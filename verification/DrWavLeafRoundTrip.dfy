/** The parser undoes the printer, one chunk at a time: for each printable object, the counting stage
    asks for exactly one slot and enough memory, and the reading stage rebuilds the object within it. */
module DrWavLeafRoundTrip {
  import opened Bytes
  import opened DrWavMetadata
  import opened DrWavStreams
  import opened DrWavParserSpec

  predicate KnownTopLevel(id: FourCC) {
    id == ID_SMPL || id == ID_INST || id == ID_ACID || id == ID_CUE || id == ID_BEXT ||
    id == ID_LIST || id == ID_list || id == ID_DATA || id == ID_FMT || id == ID_FACT
  }

  predicate KnownInList(id: FourCC) {
    id == ID_ADTL || id == ID_INFO || id == ID_LABL || id == ID_NOTE || id == ID_LTXT ||
    InfoKindOf(id).0 || id == ID_DATA || id == ID_FMT || id == ID_FACT
  }

  /** The objects that survive printing and parsing: sampler data too short to count as a loop,
      nothing the list writer skips, no unknown chunk under an id the parser gives a meaning to. The
      list parser casts distances to `int`, so subchunks stay below 2 GiB. */
  predicate Printable(m: Metadata) {
    match m
    case Smpl(_, _, samplerData) => |samplerData| < SMPL_LOOP_BYTES && BodySize(m) <= U32_MAX
    case Inst(_, _, _, _, _, _, _) => true
    case Acid(_, _, _, _, _, _, _, _) => true
    case Cue(_) => BodySize(m) <= U32_MAX
    case LabelOrNote(_, _, text) => text != [] && BodySize(m) <= INT_MAX
    case LabelledCueRegion(_, _, _, _, _, _, _, _) => BodySize(m) <= INT_MAX
    case InfoText(_, text) => text != [] && BodySize(m) <= INT_MAX
    case Unknown(id, TopLevel, data) => !KnownTopLevel(id) && |data| <= U32_MAX
    case Unknown(id, InsideInfoList, data) => !KnownInList(id) && data != [] && |data| <= INT_MAX
    case Unknown(id, InsideAdtlList, data) => !KnownInList(id) && |data| <= INT_MAX
    case Unknown(_, InvalidLocation, _) => false
  }

  /** The memory the counting stage asks for on behalf of `m`. */
  function Extra(m: Metadata): nat {
    match m
    case Smpl(_, loops, data) => LOOP_OBJECT_BYTES * |loops| + (METADATA_ALIGNMENT - 1) + |data|
    case Cue(points) => CUE_POINT_OBJECT_BYTES * |points| + (METADATA_ALIGNMENT - 1)
    case LabelOrNote(_, _, text) => TerminatedSize(text)
    case LabelledCueRegion(_, _, _, _, _, _, _, text) => TerminatedSize(text)
    case InfoText(_, text) => TerminatedSize(text)
    case Unknown(_, _, data) => |data|
    case _ => 0
  }

  /** The counting stage has added `n` objects and `extra` bytes. */
  function Counting(p: Parser, n: nat, extra: nat): Parser {
    p.(metadataCount := p.metadataCount + n, extraCapacity := p.extraCapacity + extra)
  }

  /** There are `n` free slots and `extra` free bytes. */
  predicate Room(p: Parser, n: nat, extra: nat) {
    p.inBounds && |p.slots| + n <= p.metadataCount && p.dataCursor + extra <= p.arena.start + p.Capacity()
  }

  /** The reading stage has finished `ms`, using at most `extra` bytes and never leaving the arena. */
  ghost predicate Reading(p: Parser, q: Parser, ms: seq<Metadata>, extra: nat) {
    && q.stage == p.stage && q.metadataCount == p.metadataCount
    && q.extraCapacity == p.extraCapacity && q.arena == p.arena
    && q.slots == p.slots + Completed(ms)
    && p.dataCursor <= q.dataCursor <= p.dataCursor + extra
    && (Room(p, |ms|, extra) ==> q.inBounds)
  }

  function Completed(ms: seq<Metadata>): (s: seq<Slot>)
    ensures |s| == |ms|
  {
    seq(|ms|, i requires 0 <= i < |ms| => Complete(ms[i]))
  }

  lemma ReadingTrans(p: Parser, q: Parser, r: Parser, a: seq<Metadata>, b: seq<Metadata>, x: nat, y: nat)
    requires Reading(p, q, a, x) && Reading(q, r, b, y)
    ensures Reading(p, r, a + b, x + y)
  {
    assert Completed(a + b) == Completed(a) + Completed(b);
    assert p.slots + Completed(a) + Completed(b) == p.slots + (Completed(a) + Completed(b));
  }

  lemma ReadingNothing(p: Parser)
    ensures Reading(p, p, [], 0)
  {
    assert p.slots + Completed([]) == p.slots;
  }

  // ---------- the variable parts ----------

  lemma LoopFromWords(data: seq<byte>, pos: nat, l: SmplLoop)
    requires At(data, pos, Words(LoopWords(l)))
    ensures |ReadAt(data, pos, SMPL_LOOP_BYTES)| == SMPL_LOOP_BYTES
    ensures LoopFrom(ReadAt(data, pos, SMPL_LOOP_BYTES)) == l
  {
    hide U32At, Words;
    ReadsPiece(data, pos, Words(LoopWords(l)));
    var b := ReadAt(data, pos, SMPL_LOOP_BYTES);
    assert At(b, 0, Words(LoopWords(l)));
    WordAt(b, 0, LoopWords(l), 0);
    WordAt(b, 0, LoopWords(l), 1);
    WordAt(b, 0, LoopWords(l), 2);
    WordAt(b, 0, LoopWords(l), 3);
    WordAt(b, 0, LoopWords(l), 4);
    WordAt(b, 0, LoopWords(l), 5);
  }

  lemma {:induction false} ReadLoopsBack(data: seq<byte>, pos: nat, loops: seq<SmplLoop>)
    requires At(data, pos, LoopsBytes(loops))
    ensures ReadLoops(data, pos, |loops|) == (loops, SMPL_LOOP_BYTES * |loops|)
    decreases |loops|
  {
    hide Words, LoopFrom, ReadAt;
    if loops != [] {
      AtSplit(data, pos, Words(LoopWords(loops[0])), LoopsBytes(loops[1..]));
      LoopFromWords(data, pos, loops[0]);
      ReadLoopsBack(data, pos + SMPL_LOOP_BYTES, loops[1..]);
      assert [loops[0]] + loops[1..] == loops;
    }
  }

  lemma PointFromWords(data: seq<byte>, pos: nat, p: CuePoint)
    requires At(data, pos, Words(PointWords(p)))
    ensures |ReadAt(data, pos, CUE_POINT_BYTES)| == CUE_POINT_BYTES
    ensures PointFrom(ReadAt(data, pos, CUE_POINT_BYTES)) == p
  {
    hide U32At, Words;
    ReadsPiece(data, pos, Words(PointWords(p)));
    var b := ReadAt(data, pos, CUE_POINT_BYTES);
    assert At(b, 0, Words(PointWords(p)));
    WordAt(b, 0, PointWords(p), 0);
    WordAt(b, 0, PointWords(p), 1);
    WordAt(b, 0, PointWords(p), 2);
    WordAt(b, 0, PointWords(p), 3);
    WordAt(b, 0, PointWords(p), 4);
    WordAt(b, 0, PointWords(p), 5);
  }

  lemma {:induction false} ReadPointsBack(data: seq<byte>, pos: nat, points: seq<CuePoint>)
    requires At(data, pos, PointsBytes(points))
    ensures ReadPoints(data, pos, |points|) == (points, CUE_POINT_BYTES * |points|)
    decreases |points|
  {
    hide Words, PointFrom, ReadAt;
    if points != [] {
      AtSplit(data, pos, Words(PointWords(points[0])), PointsBytes(points[1..]));
      PointFromWords(data, pos, points[0]);
      ReadPointsBack(data, pos + CUE_POINT_BYTES, points[1..]);
      assert [points[0]] + points[1..] == points;
    }
  }

  lemma ReadFixed(data: seq<byte>, pos: nat, piece: seq<byte>)
    requires At(data, pos, piece)
    ensures ReadAt(data, pos, |piece|) == piece && At(ReadAt(data, pos, |piece|), 0, piece)
  {
  }

  // ---------- smpl ----------

  lemma SmplHeaderBack(data: seq<byte>, pos: nat, h: SmplHeader, loopCount: u32, dataSize: u32)
    requires At(data, pos, Words(SmplWords(h, loopCount, dataSize)))
    ensures var b := ReadAt(data, pos, SMPL_BYTES);
      |b| == SMPL_BYTES && SmplHeaderFrom(b) == h && U32At(b, 28) == loopCount && U32At(b, 32) == dataSize
  {
    hide U32At, Words;
    var ws := SmplWords(h, loopCount, dataSize);
    ReadFixed(data, pos, Words(ws));
    var b := ReadAt(data, pos, SMPL_BYTES);
    WordAt(b, 0, ws, 0);
    WordAt(b, 0, ws, 1);
    WordAt(b, 0, ws, 2);
    WordAt(b, 0, ws, 3);
    WordAt(b, 0, ws, 4);
    WordAt(b, 0, ws, 5);
    WordAt(b, 0, ws, 6);
    WordAt(b, 0, ws, 7);
    WordAt(b, 0, ws, 8);
  }

  lemma SmplBodyAt(data: seq<byte>, pos: nat, m: Metadata)
    requires m.Smpl? && BodySize(m) <= U32_MAX && At(data, pos, Body(m))
    ensures At(data, pos, Words(SmplWords(m.header, |m.loops|, |m.samplerData|)))
    ensures At(data, pos + SMPL_BYTES, LoopsBytes(m.loops))
    ensures At(data, pos + SMPL_BYTES + SMPL_LOOP_BYTES * |m.loops|, m.samplerData)
  {
    hide Words, LoopsBytes, SmplWords;
    AtSplit3(data, pos, Words(SmplWords(m.header, |m.loops|, |m.samplerData|)), LoopsBytes(m.loops),
             m.samplerData);
  }

  lemma CountSmplBack(data: seq<byte>, pos: nat, p: Parser, m: Metadata)
    requires m.Smpl? && Printable(m) && At(data, pos, Body(m))
    ensures CountSmpl(data, pos, p, BodySize(m)).p == Counting(p, 1, Extra(m))
  {
    hide Body, CountSmpl;
    SmplCounted(data, pos, p, m);
  }

  /** The counting pass takes in a printed smpl chunk exactly when its sampler data is shorter than one
      loop: it recomputes the number of loops from the chunk size alone. Otherwise it passes over the
      chunk, and no slot is provided for it, although the reading pass begins one. */
  lemma SmplCounted(data: seq<byte>, pos: nat, p: Parser, m: Metadata)
    requires m.Smpl? && BodySize(m) <= U32_MAX && At(data, pos, Body(m))
    ensures CountSmpl(data, pos, p, BodySize(m)).p
         == if |m.samplerData| < SMPL_LOOP_BYTES then Counting(p, 1, Extra(m)) else p
  {
    hide U32At, Words, LoopsBytes, Body;
    SmplBodyAt(data, pos, m);
    var ws := SmplWords(m.header, |m.loops|, |m.samplerData|);
    WordAt(data, pos, ws, 7);
    WordAt(data, pos, ws, 8);
    ReadWord(data, pos + 28);
    ReadWord(data, pos + 32);
    assert ((BodySize(m) - SMPL_BYTES) / SMPL_LOOP_BYTES == |m.loops|) <==> |m.samplerData| < SMPL_LOOP_BYTES;
  }

  lemma ReadWord(data: seq<byte>, pos: nat)
    requires pos + 4 <= |data|
    ensures |ReadAt(data, pos, 4)| == 4 && U32At(ReadAt(data, pos, 4), 0) == U32At(data, pos)
  {
  }

  lemma ReadSmplBack(data: seq<byte>, pos: nat, p: Parser, m: Metadata)
    requires m.Smpl? && Printable(m) && At(data, pos, Body(m))
    ensures var r := ReadSmpl(data, pos, p, BodySize(m));
      r.pos == pos + BodySize(m) && r.bytesRead == BodySize(m) && Reading(p, r.p, [m], Extra(m))
  {
    hide U32At, Words, LoopsBytes, Body, ReadAt, ReadLoops, SmplHeaderFrom;
    SmplBodyAt(data, pos, m);
    SmplHeaderBack(data, pos, m.header, |m.loops|, |m.samplerData|);
    ReadLoopsBack(data, pos + SMPL_BYTES, m.loops);
    ReadsPiece(data, pos + SMPL_BYTES + SMPL_LOOP_BYTES * |m.loops|, m.samplerData);
    assert (BodySize(m) - SMPL_BYTES) / SMPL_LOOP_BYTES == |m.loops|;
    assert Completed([m]) == [Complete(m)];
  }

  // ---------- cue ----------

  lemma CueBodyAt(data: seq<byte>, pos: nat, m: Metadata)
    requires m.Cue? && BodySize(m) <= U32_MAX && At(data, pos, Body(m))
    ensures At(data, pos, LE32(|m.points|)) && At(data, pos + CUE_BYTES, PointsBytes(m.points))
  {
    hide LE32, PointsBytes;
    AtSplit(data, pos, LE32(|m.points|), PointsBytes(m.points));
  }

  lemma ReadCueBack(data: seq<byte>, pos: nat, p: Parser, m: Metadata)
    requires m.Cue? && Printable(m) && At(data, pos, Body(m))
    ensures var r := ReadCue(data, pos, p, BodySize(m));
      r.pos == pos + BodySize(m) && r.bytesRead == BodySize(m) && Reading(p, r.p, [m], Extra(m))
  {
    hide U32At, LE32, PointsBytes, Body, ReadAt, ReadPoints;
    CueBodyAt(data, pos, m);
    LE32RoundTrip(data, pos, |m.points|);
    ReadWord(data, pos);
    ReadPointsBack(data, pos + CUE_BYTES, m.points);
    assert (BodySize(m) - CUE_BYTES) / CUE_POINT_BYTES == |m.points|;
    assert Completed([m]) == [Complete(m)];
  }

  lemma CountCueBack(pos: nat, p: Parser, m: Metadata)
    requires m.Cue?
    ensures CountCue(pos, p, BodySize(m)).p == Counting(p, 1, Extra(m))
  {
    assert (BodySize(m) - CUE_BYTES) / CUE_POINT_BYTES == |m.points|;
  }

  // ---------- inst and acid ----------

  lemma ReadInstBack(data: seq<byte>, pos: nat, p: Parser, m: Metadata)
    requires m.Inst? && At(data, pos, Body(m))
    ensures var r := ReadInst(data, pos, p);
      r.pos == pos + BodySize(m) && r.bytesRead == BodySize(m) && Reading(p, r.p, [m], Extra(m))
  {
    ReadsPiece(data, pos, Body(m));
    assert InstFrom(Body(m)) == m;
    assert Completed([m]) == [Complete(m)];
  }

  lemma AcidBack(b: seq<byte>, m: Metadata)
    requires m.Acid? && b == Body(m)
    ensures AcidFrom(b) == m
  {
    hide U32At, U16At, LE32, Words, Halves;
    var h1, w, h2 := Halves([m.unityNote, m.reserved1]), Words([m.reserved2, m.numBeats]),
                     Halves([m.meterDenominator, m.meterNumerator]);
    assert b == LE32(m.flags) + h1 + w + h2 + LE32(m.tempo);
    assert At(b, 0, b);
    AtSplit(b, 0, LE32(m.flags) + h1 + w + h2, LE32(m.tempo));
    AtSplit(b, 0, LE32(m.flags) + h1 + w, h2);
    AtSplit3(b, 0, LE32(m.flags), h1, w);
    LE32RoundTrip(b, 0, m.flags);
    HalfAt(b, 4, [m.unityNote, m.reserved1], 0);
    HalfAt(b, 4, [m.unityNote, m.reserved1], 1);
    WordAt(b, 8, [m.reserved2, m.numBeats], 0);
    WordAt(b, 8, [m.reserved2, m.numBeats], 1);
    HalfAt(b, 16, [m.meterDenominator, m.meterNumerator], 0);
    HalfAt(b, 16, [m.meterDenominator, m.meterNumerator], 1);
    LE32RoundTrip(b, 20, m.tempo);
  }

  lemma ReadAcidBack(data: seq<byte>, pos: nat, p: Parser, m: Metadata)
    requires m.Acid? && At(data, pos, Body(m))
    ensures var r := ReadAcid(data, pos, p);
      r.pos == pos + BodySize(m) && r.bytesRead == BodySize(m) && Reading(p, r.p, [m], Extra(m))
  {
    hide AcidFrom, Body;
    ReadsPiece(data, pos, Body(m));
    AcidBack(Body(m), m);
    assert Completed([m]) == [Complete(m)];
  }

  // ---------- strings and unknown chunks ----------

  /** What a text chunk's body must look like for its reader. */
  lemma ReadTextBack(data: seq<byte>, pos: nat, p: Parser, fixed: seq<byte>, text: seq<byte>,
                     make: (seq<byte>, seq<byte>) -> Metadata)
    requires At(data, pos, fixed + Terminated(text))
    ensures var size, m := |fixed| + TerminatedSize(text), make(fixed, text);
      var r := ReadTextChunk(data, pos, p, size, |fixed|, make);
      r.pos == pos + size && r.bytesRead == size && Reading(p, r.p, [m], TerminatedSize(text))
  {
    hide ReadAt;
    AtSplit(data, pos, fixed, Terminated(text));
    ReadsPiece(data, pos, fixed);
    ReadsPiece(data, pos + |fixed|, Terminated(text));
    assert text != [] ==> Terminated(text)[..|text|] == text;
    assert Completed([make(fixed, text)]) == [Complete(make(fixed, text))];
  }

  lemma MakeLabelBack(m: Metadata)
    requires m.LabelOrNote?
    ensures MakeLabel(m.labelKind)(LE32(m.cuePointId), m.text) == m
  {
    hide LE32, U32At;
    assert At(LE32(m.cuePointId), 0, LE32(m.cuePointId));
    LE32RoundTrip(LE32(m.cuePointId), 0, m.cuePointId);
  }

  function RegionFixed(m: Metadata): (s: seq<byte>)
    requires m.LabelledCueRegion?
    ensures |s| == LABELLED_TEXT_BYTES
  {
    Words([m.regionCuePointId, m.sampleLength, m.purposeId]) +
    Halves([m.country, m.language, m.dialect, m.codePage])
  }

  lemma MakeRegionBack(m: Metadata)
    requires m.LabelledCueRegion?
    ensures MakeRegion()(RegionFixed(m), m.text) == m
  {
    hide Words, Halves, U32At, U16At;
    var b := RegionFixed(m);
    var ws := [m.regionCuePointId, m.sampleLength, m.purposeId];
    var hs := [m.country, m.language, m.dialect, m.codePage];
    assert At(b, 0, b);
    AtSplit(b, 0, Words(ws), Halves(hs));
    WordAt(b, 0, ws, 0);
    WordAt(b, 0, ws, 1);
    WordAt(b, 0, ws, 2);
    HalfAt(b, 12, hs, 0);
    HalfAt(b, 12, hs, 1);
    HalfAt(b, 12, hs, 2);
    HalfAt(b, 12, hs, 3);
  }

  lemma ReadInfoBack(data: seq<byte>, pos: nat, p: Parser, m: Metadata)
    requires m.InfoText? && m.text != [] && p.stage == ReadStage && At(data, pos, Body(m))
    ensures var r := ProcessInfoText(data, pos, p, BodySize(m), m.info);
      r.pos == pos + BodySize(m) && r.bytesRead == BodySize(m) && Reading(p, r.p, [m], Extra(m))
  {
    ReadsPiece(data, pos, Body(m));
    assert Terminated(m.text)[..|m.text|] == m.text;
    assert Completed([m]) == [Complete(m)];
  }

  lemma ReadUnknownBack(data: seq<byte>, pos: nat, p: Parser, m: Metadata)
    requires m.Unknown? && p.stage == ReadStage && At(data, pos, m.data)
    requires m.location != InvalidLocation && m.id != ID_DATA && m.id != ID_FMT && m.id != ID_FACT
    ensures var r := ProcessUnknown(data, pos, p, m.id, |m.data|, m.location);
      r.pos == pos + |m.data| && r.bytesRead == |m.data| && Reading(p, r.p, [m], Extra(m))
  {
    ReadsPiece(data, pos, m.data);
    assert Completed([m]) == [Complete(m)];
  }

  // ---------- dispatch ----------

  lemma CountTopLevel(data: seq<byte>, pos: nat, p: Parser, m: Metadata)
    requires Belongs(Top, m) && Printable(m) && p.stage == CountStage && At(data, pos, Body(m))
    ensures ProcessChunk(data, pos, p, ChunkId(m), BodySize(m)).p == Counting(p, 1, Extra(m))
  {
    hide CountSmpl, CountCue, Body, ProcessList;
    match m {
      case Smpl(_, _, _) => CountSmplBack(data, pos, p, m);
      case Cue(_) => CountCueBack(pos, p, m);
      case _ =>
    }
  }

  lemma ReadTopLevel(data: seq<byte>, pos: nat, p: Parser, m: Metadata)
    requires Belongs(Top, m) && Printable(m) && p.stage == ReadStage && At(data, pos, Body(m))
    ensures var r := ProcessChunk(data, pos, p, ChunkId(m), BodySize(m));
      r.pos == pos + BodySize(m) && r.bytesRead == BodySize(m) && Reading(p, r.p, [m], Extra(m))
  {
    hide ReadSmpl, ReadCue, ReadInst, ReadAcid, ProcessUnknown, ProcessList, Reading;
    match m {
      case Smpl(_, _, _) => ReadSmplBack(data, pos, p, m);
      case Cue(_) => ReadCueBack(data, pos, p, m);
      case Inst(_, _, _, _, _, _, _) => ReadInstBack(data, pos, p, m);
      case Acid(_, _, _, _, _, _, _, _) => ReadAcidBack(data, pos, p, m);
      case Unknown(_, _, _) => ReadUnknownBack(data, pos, p, m);
    }
  }

  lemma CountSubchunk(data: seq<byte>, pos: nat, p: Parser, m: Metadata, listType: Location)
    requires pos <= |data| && p.stage == CountStage && Printable(m)
    requires (Belongs(Info, m) && listType == InsideInfoList) || (Belongs(Adtl, m) && listType == InsideAdtlList)
    ensures ProcessSubchunk(data, pos, p, ChunkId(m), BodySize(m), listType)
         == Step(pos, Counting(p, 1, Extra(m)), 0)
  {
    match m {
      case LabelOrNote(_, _, _) =>
      case LabelledCueRegion(_, _, _, _, _, _, _, _) =>
      case InfoText(k, _) => assert InfoKindOf(InfoId(k)) == (true, k);
      case Unknown(_, _, _) =>
    }
  }

  lemma ReadSubchunk(data: seq<byte>, pos: nat, p: Parser, m: Metadata, listType: Location)
    requires p.stage == ReadStage && Printable(m) && At(data, pos, Body(m))
    requires (Belongs(Info, m) && listType == InsideInfoList) || (Belongs(Adtl, m) && listType == InsideAdtlList)
    ensures var r := ProcessSubchunk(data, pos, p, ChunkId(m), BodySize(m), listType);
      r.pos == pos + BodySize(m) && r.bytesRead == BodySize(m) && Reading(p, r.p, [m], Extra(m))
  {
    hide ReadTextChunk, ProcessInfoText, ProcessUnknown, Reading, MakeLabel, MakeRegion, LE32, Words, Halves;
    match m {
      case LabelOrNote(k, cue, text) =>
        MakeLabelBack(m);
        ReadTextBack(data, pos, p, LE32(cue), text, MakeLabel(k));
      case LabelledCueRegion(_, _, _, _, _, _, _, text) =>
        MakeRegionBack(m);
        ReadTextBack(data, pos, p, RegionFixed(m), text, MakeRegion());
      case InfoText(k, _) =>
        assert InfoKindOf(InfoId(k)) == (true, k);
        ReadInfoBack(data, pos, p, m);
      case Unknown(_, _, _) =>
        ReadUnknownBack(data, pos, p, m);
    }
  }
}
