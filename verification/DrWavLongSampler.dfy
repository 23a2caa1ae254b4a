/** Files written with long sampler data, which the first walk does not count: they open, everything else
    comes back, and exactly which of them put a slot outside the array. */
module DrWavLongSampler {
  import opened Bytes
  import opened DrWavMetadata
  import opened DrWavStreams
  import opened DrWavParserSpec
  import opened DrWavLeafRoundTrip
  import opened DrWavListRoundTrip
  import opened DrWavOpenSpec
  import opened DrWavWalks
  import opened DrWavFile
  import opened DrWavOpenRoundTrip
  import opened DrWavOrderlyFiles
  import opened DrWavOrderly
  import opened DrWavArena
  import DrWavRoundTrip

  // ---------- the first walk ----------

  /** A long sampler chunk is passed over. */
  lemma ScanLong(container: Container, processing: bool, data: seq<byte>, s: Scan, m: Metadata)
    requires container != W64 && LongSmpl(m) && s.parser.stage == CountStage && s.drift == 0
    requires s.pos <= |data| && At(data, s.pos, Piece(Top, m))
    ensures ScanChunks(container, processing, data, s)
         == ScanChunks(container, processing, data, s.(pos := s.pos + |Piece(Top, m)|))
  {
    hide ScanChunks, Body, Chunk, ProcessChunk;
    SmplPiece(m);
    HeaderOfChunk(container, data, s.pos, ID_SMPL, Body(m));
    LongNotCounted(data, s.pos + 8, s.parser, m);
    ScanOther(container, processing, data, s, ID_SMPL, Body(m));
  }

  lemma LongNotCounted(data: seq<byte>, pos: nat, p: Parser, m: Metadata)
    requires LongSmpl(m) && p.stage == CountStage && At(data, pos, Body(m))
    ensures ProcessChunk(data, pos, p, ID_SMPL, BodySize(m)).p == p
  {
    hide Body, CountSmpl;
    SmplCounted(data, pos, p, m);
  }

  /** What the first object puts into the top-level part of what comes back. */
  function KeptTop(m: Metadata): seq<Metadata> {
    if Belongs(Top, m) && !LongSmpl(m) then [m] else []
  }

  lemma FirstTop(ms: seq<Metadata>)
    requires ms != []
    ensures Select(Top, Kept(ms)) == KeptTop(ms[0]) + Select(Top, Kept(ms[1..]))
  {
    hide Kept, Select, LongSmpl, Belongs;
    var m, rest := ms[0], ms[1..];
    KeptStep(ms);
    LongBelongs(m);
    SelectCons(Top, m, Kept(rest));
    assert [] + Select(Top, Kept(rest)) == Select(Top, Kept(rest));
  }

  lemma ScanFirst(container: Container, processing: bool, data: seq<byte>, s: Scan, m: Metadata)
    requires container != W64 && (Printable(m) || LongSmpl(m)) && s.parser.stage == CountStage && s.drift == 0
    requires s.pos <= |data| && At(data, s.pos, Piece(Top, m))
    ensures ScanChunks(container, processing, data, s)
         == ScanChunks(container, processing, data,
              s.(pos := s.pos + |Piece(Top, m)|, parser := Tally(processing, s.parser, KeptTop(m))))
  {
    hide ScanChunks, Printable, LongSmpl, Belongs, Piece, Tally;
    TallyNothing(processing, s.parser);
    PieceWhole(Top, m);
    if LongSmpl(m) {
      ScanLong(container, processing, data, s, m);
    } else if Belongs(Top, m) {
      ScanOneTop(container, processing, data, s, m);
    }
  }

  lemma {:induction false} ScanTops(container: Container, processing: bool, data: seq<byte>, s: Scan,
                                    ms: seq<Metadata>)
    requires container != W64 && AllWritable(ms) && s.parser.stage == CountStage && s.drift == 0
    requires s.pos <= |data| && At(data, s.pos, Pieces(Top, ms))
    ensures ScanChunks(container, processing, data, s)
         == ScanChunks(container, processing, data,
              s.(pos := s.pos + |Pieces(Top, ms)|, parser := Tally(processing, s.parser, Select(Top, Kept(ms)))))
    decreases |ms|
  {
    hide ScanChunks, Printable, LongSmpl, Piece, Select, Tally, Kept, KeptTop, AllWritable;
    if ms == [] {
      TallyNothing(processing, s.parser);
      NothingKept(0);
    } else {
      var m, rest := ms[0], ms[1..];
      AllStep(ms);
      FirstTop(ms);
      AtSplit(data, s.pos, Piece(Top, m), Pieces(Top, rest));
      ScanFirst(container, processing, data, s, m);
      var s1 := s.(pos := s.pos + |Piece(Top, m)|, parser := Tally(processing, s.parser, KeptTop(m)));
      TallyStage(processing, s.parser, KeptTop(m));
      ScanTops(container, processing, data, s1, rest);
      TallyTwice(processing, s.parser, KeptTop(m), Select(Top, Kept(rest)));
    }
  }

  lemma ScanWritten(container: Container, processing: bool, data: seq<byte>, s: Scan, ms: seq<Metadata>)
    requires container != W64 && AllWritable(ms) && s.parser.stage == CountStage && s.drift == 0
    requires s.pos <= |data| && At(data, s.pos, Print(ms)) && |Print(ms)| <= U32_MAX
    ensures ScanChunks(container, processing, data, s)
         == ScanChunks(container, processing, data,
              s.(pos := s.pos + |Print(ms)|, parser := Tally(processing, s.parser, Partition(Kept(ms)))))
  {
    hide ScanChunks, AllWritable, AllPrintable, ListChunk, Pieces, Select, Tally, Kept;
    PrintAt(data, s.pos, ms);
    KeptPrintable(ms);
    KeptLists(Info, ms);
    KeptLists(Adtl, ms);
    var kept := Kept(ms);
    var a, b, c := Select(Top, kept), Select(Info, kept), Select(Adtl, kept);
    ScanTops(container, processing, data, s, ms);
    TallyStage(processing, s.parser, a);
    var s1 := s.(pos := s.pos + |Pieces(Top, ms)|, parser := Tally(processing, s.parser, a));
    ScanList(Info, container, processing, data, s1, kept);
    TallyTwice(processing, s.parser, a, b);
    TallyStage(processing, s.parser, a + b);
    var s2 := s1.(pos := s1.pos + |ListChunk(Info, ms)|, parser := Tally(processing, s.parser, a + b));
    ScanList(Adtl, container, processing, data, s2, kept);
    TallyTwice(processing, s.parser, a + b, c);
  }

  // ---------- the second walk ----------

  /** The slots that the second walk has filled; that it has stayed in bounds is another matter. */
  ghost predicate Filled(p: Parser, q: Parser, ms: seq<Metadata>) {
    q.stage == p.stage && q.metadataCount == p.metadataCount && q.slots == p.slots + Completed(ms)
  }

  lemma FilledNothing(p: Parser)
    ensures Filled(p, p, [])
  {
    assert p.slots + Completed([]) == p.slots;
  }

  lemma FilledTrans(p: Parser, q: Parser, r: Parser, a: seq<Metadata>, b: seq<Metadata>)
    requires Filled(p, q, a) && Filled(q, r, b)
    ensures Filled(p, r, a + b)
  {
    assert Completed(a + b) == Completed(a) + Completed(b);
    assert p.slots + Completed(a) + Completed(b) == p.slots + (Completed(a) + Completed(b));
  }

  lemma ReadingFills(p: Parser, q: Parser, ms: seq<Metadata>, extra: nat)
    requires Reading(p, q, ms, extra)
    ensures Filled(p, q, ms)
  {
  }

  /** A long sampler chunk begins an object in the next slot and gives it up. */
  lemma LongTouches(data: seq<byte>, pos: nat, p: Parser, m: Metadata)
    requires LongSmpl(m) && p.stage == ReadStage && At(data, pos, Body(m))
    ensures ProcessChunk(data, pos, p, ID_SMPL, BodySize(m)) == Step(pos + SMPL_BYTES, p.TouchSlot(), SMPL_BYTES)
  {
    hide U32At, Words, LoopsBytes, Body, ReadLoops, SmplHeaderFrom, ReadAt;
    SmplBodyAt(data, pos, m);
    SmplHeaderBack(data, pos, m.header, |m.loops|, |m.samplerData|);
    assert BodySize(m) - SMPL_BYTES == SMPL_LOOP_BYTES * |m.loops| + |m.samplerData|;
    assert (BodySize(m) - SMPL_BYTES) / SMPL_LOOP_BYTES != |m.loops|;
  }

  lemma ReadLong(container: Container, data: seq<byte>, pos: nat, p: Parser, m: Metadata) returns (q: Parser)
    requires container != W64 && LongSmpl(m) && p.stage == ReadStage && At(data, pos, Piece(Top, m))
    ensures ReadMetadata(container, data, pos, p) == ReadMetadata(container, data, pos + |Piece(Top, m)|, q)
    ensures Filled(p, q, [])
  {
    hide ReadMetadata, Body, Chunk, ProcessChunk;
    SmplPiece(m);
    HeaderOfChunk(container, data, pos, ID_SMPL, Body(m));
    LongTouches(data, pos + 8, p, m);
    ReadOther(container, data, pos, p, ID_SMPL, Body(m));
    q := p.TouchSlot();
    assert p.slots + Completed([]) == p.slots;
  }

  lemma ReadFirst(container: Container, data: seq<byte>, pos: nat, p: Parser, m: Metadata) returns (q: Parser)
    requires container != W64 && (Printable(m) || LongSmpl(m)) && p.stage == ReadStage
    requires At(data, pos, Piece(Top, m))
    ensures ReadMetadata(container, data, pos, p) == ReadMetadata(container, data, pos + |Piece(Top, m)|, q)
    ensures Filled(p, q, KeptTop(m))
  {
    hide ReadMetadata, Printable, LongSmpl, Belongs, Piece, Reading, Filled;
    PieceWhole(Top, m);
    if LongSmpl(m) {
      q := ReadLong(container, data, pos, p, m);
    } else if Belongs(Top, m) {
      q := ReadOneTop(container, data, pos, p, m);
      ReadingFills(p, q, [m], Extra(m));
    } else {
      q := p;
      FilledNothing(p);
    }
  }

  lemma {:induction false} ReadTops(container: Container, data: seq<byte>, pos: nat, p: Parser, ms: seq<Metadata>)
    returns (q: Parser)
    requires container != W64 && AllWritable(ms) && p.stage == ReadStage && At(data, pos, Pieces(Top, ms))
    ensures ReadMetadata(container, data, pos, p) == ReadMetadata(container, data, pos + |Pieces(Top, ms)|, q)
    ensures Filled(p, q, Select(Top, Kept(ms)))
    decreases |ms|
  {
    hide ReadMetadata, Printable, LongSmpl, Piece, Select, Kept, KeptTop, AllWritable, Completed;
    if ms == [] {
      q := p;
      FilledNothing(p);
      NothingKept(0);
    } else {
      var m, rest := ms[0], ms[1..];
      AllStep(ms);
      FirstTop(ms);
      AtSplit(data, pos, Piece(Top, m), Pieces(Top, rest));
      var q1 := ReadFirst(container, data, pos, p, m);
      q := ReadTops(container, data, pos + |Piece(Top, m)|, q1, rest);
      FilledTrans(p, q1, q, KeptTop(m), Select(Top, Kept(rest)));
    }
  }

  lemma ReadWritten(container: Container, data: seq<byte>, pos: nat, p: Parser, ms: seq<Metadata>)
    returns (q: Parser)
    requires container != W64 && AllWritable(ms) && p.stage == ReadStage
    requires At(data, pos, Print(ms)) && |Print(ms)| <= U32_MAX
    ensures ReadMetadata(container, data, pos, p) == ReadMetadata(container, data, pos + |Print(ms)|, q)
    ensures Filled(p, q, Partition(Kept(ms)))
  {
    hide ReadMetadata, AllWritable, AllPrintable, ListChunk, Pieces, Select, ExtraSum, Reading, Kept, Completed;
    PrintAt(data, pos, ms);
    KeptPrintable(ms);
    KeptLists(Info, ms);
    KeptLists(Adtl, ms);
    var kept := Kept(ms);
    var a, b, c := Select(Top, kept), Select(Info, kept), Select(Adtl, kept);
    var q1 := ReadTops(container, data, pos, p, ms);
    var pos1 := pos + |Pieces(Top, ms)|;
    var q2 := ReadWholeList(Info, container, data, pos1, q1, kept);
    ReadingFills(q1, q2, b, ExtraSum(b));
    FilledTrans(p, q1, q2, a, b);
    q := ReadWholeList(Adtl, container, data, pos1 + |ListChunk(Info, ms)|, q2, kept);
    ReadingFills(q2, q, c, ExtraSum(c));
    FilledTrans(p, q2, q, a + b, c);
  }

  // ---------- opening ----------

  /** The first walk over a whole RIFF file. */
  lemma ScanWrittenFile(data: seq<byte>, fmt: Fmt, ms: seq<Metadata>, riffSize: u64, samples: seq<byte>, s: Scan)
    requires Plain(fmt) && AllWritable(ms) && |samples| < U32_MAX && WithinLimits(Riff, ms, |samples|, true)
    requires data == FileBytes(Riff, fmt, ms, riffSize, |samples|, samples)
    requires s.pos == 12 <= |data| && s.parser.stage == CountStage && s.drift == 0
    ensures EndsWith(ScanChunks(Riff, true, data, s),
                     s.(fmt := fmt, foundFmt := true, parser := Tally(true, s.parser, Partition(Kept(ms)))),
                     DataStart(Riff, ms), |samples|)
  {
    hide ScanChunks, AllWritable, FmtChunkBytes, DataHeaderBytes, FileBytes, Print, Tally, Partition, Kept;
    FileLayout(data, Riff, fmt, ms, riffSize, |samples|, samples);
    ScanFmtChunk(Riff, true, data, s, fmt);
    var s1 := s.(pos := 36, fmt := fmt, foundFmt := true);
    ScanWritten(Riff, true, data, s1, ms);
    var s2 := s1.(pos := 36 + |Print(ms)|, parser := Tally(true, s.parser, Partition(Kept(ms))));
    ScanDataChunk(Riff, true, data, s2, |samples|);
  }

  lemma ReadWrittenFile(data: seq<byte>, fmt: Fmt, ms: seq<Metadata>, riffSize: u64, samples: seq<byte>, p: Parser)
    returns (q: Parser)
    requires AllWritable(ms) && |samples| < U32_MAX && WithinLimits(Riff, ms, |samples|, true)
    requires data == FileBytes(Riff, fmt, ms, riffSize, |samples|, samples)
    requires 12 <= |data| && p.stage == ReadStage
    ensures ReadMetadata(Riff, data, 12, p) == Parsed(q) && Filled(p, q, Partition(Kept(ms)))
  {
    hide ReadMetadata, AllWritable, FmtChunkBytes, DataHeaderBytes, FileBytes, Print, Partition, Kept, Filled, U32At,
         At;
    RiffLayout(Riff, data, fmt, ms, riffSize, samples);
    FmtHeaderWords(Riff, data, 12, fmt);
    ReadIgnored(Riff, data, 12, p, ID_FMT, 16);
    q := ReadWritten(Riff, data, 36, p, ms);
    var dataHeader := 36 + |Print(ms)|;
    DataHeaderWords(Riff, data, dataHeader, |samples|);
    ReadIgnored(Riff, data, dataHeader, q, ID_DATA, |samples|);
    ReadAtEnd(Riff, data, q);
  }

  /** A RIFF file written from any such list opens with its metadata: all of it comes back in its order but the
      long sampler objects; and it is read in bounds if and only if nothing comes back at all or each long
      sampler object is followed, in the file, by something that does. */
  lemma WrittenOpens(fmt: Fmt, ms: seq<Metadata>, riffSize: u64, samples: seq<byte>, arena: Arena)
    requires Plain(fmt) && ReaderAccepts(fmt) && AllWritable(ms) && |samples| < U32_MAX
    requires WithinLimits(Riff, ms, |samples|, true)
    ensures var o := Open(FileBytes(Riff, fmt, ms, riffSize, |samples|, samples), true, arena);
      o.Opened? && o.container == Riff && o.fmt == fmt && o.dataChunkDataPos == DataStart(Riff, ms) == o.streamPos
      && o.metadata == Completed(Partition(Kept(ms))) && o.metadataCount == |Partition(Kept(ms))|
      && (o.inBounds <==> Partition(Kept(ms)) == [] || Followed(ms))
  {
    hide *;
    var data := FileBytes(Riff, fmt, ms, riffSize, |samples|, samples);
    WrittenOpened(fmt, ms, riffSize, samples, arena);
    WrittenOrderly(Riff, fmt, ms, riffSize, samples);
    InBoundsExactly(data, arena);
  }

  lemma WrittenOpened(fmt: Fmt, ms: seq<Metadata>, riffSize: u64, samples: seq<byte>, arena: Arena)
    requires Plain(fmt) && ReaderAccepts(fmt) && AllWritable(ms) && |samples| < U32_MAX
    requires WithinLimits(Riff, ms, |samples|, true)
    ensures var o := Open(FileBytes(Riff, fmt, ms, riffSize, |samples|, samples), true, arena);
      o.Opened? && o.container == Riff && o.fmt == fmt && o.dataChunkDataPos == DataStart(Riff, ms) == o.streamPos
      && o.metadata == Completed(Partition(Kept(ms))) && o.metadataCount == |Partition(Kept(ms))|
  {
    hide AllWritable, FileBytes, Print, ScanChunks, FmtChunkBytes, DataHeaderBytes, PrologueBytes, ReadPrologue, Tally,
         Partition, Kept, DataStart, ReadMetadata, StartReading, BytesPerFrame, TranslatedTag, FrameCount, Div,
         RoundDown, Completed, WithinLimits;
    var data := FileBytes(Riff, fmt, ms, riffSize, |samples|, samples);
    FileLayout(data, Riff, fmt, ms, riffSize, |samples|, samples);
    PrologueBack(Riff, data, riffSize, |samples|);
    RiffSmall(ms, |samples|);
    var s := StartScan(ReadPrologue(data), arena);
    ScanWrittenFile(data, fmt, ms, riffSize, samples, s);
    var t := ScanChunks(Riff, true, data, s).s;
    TallyCounts(s.parser, Partition(Kept(ms)));
    if Partition(Kept(ms)) != [] {
      ReadingStarts(t.parser);
      var q := ReadWrittenFile(data, fmt, ms, riffSize, samples, StartReading(t.parser));
      assert [] + Completed(Partition(Kept(ms))) == Completed(Partition(Kept(ms)));
    } else {
      DrWavRoundTrip.CompletedNothing();
    }
  }

  lemma RiffSmall(ms: seq<Metadata>, n: nat)
    requires WithinLimits(Riff, ms, n, true)
    ensures n < U32_MAX
  {
  }

  // ---------- one long sampler object at the end ----------

  /** A list that comes back whole and a long sampler object behind it: read in bounds exactly when a list
      chunk follows. */
  lemma LongLast(fmt: Fmt, ms: seq<Metadata>, m: Metadata, riffSize: u64, samples: seq<byte>, arena: Arena)
    requires Plain(fmt) && ReaderAccepts(fmt) && AllPrintable(ms) && LongSmpl(m) && |samples| < U32_MAX
    requires WithinLimits(Riff, ms + [m], |samples|, true)
    ensures var o := Open(FileBytes(Riff, fmt, ms + [m], riffSize, |samples|, samples), true, arena);
      o.Opened? && o.metadata == Completed(Partition(ms)) && o.metadataCount == |Partition(ms)|
      && (o.inBounds <==> Partition(ms) == [] || Has(Info, ms) || Has(Adtl, ms))
  {
    hide Plain, ReaderAccepts, AllWritable, FileBytes, Open, Completed, Partition, Has, Followed, LongSmpl, Kept,
         WithinLimits, AllPrintable;
    LastWritable(ms, m);
    LastKept(ms, m);
    LastFollowed(ms, m);
    WrittenOpens(fmt, ms + [m], riffSize, samples, arena);
  }

  lemma LastWritable(ms: seq<Metadata>, m: Metadata)
    requires AllPrintable(ms) && LongSmpl(m)
    ensures AllWritable(ms + [m])
  {
    hide LongSmpl;
    PrintableShort(ms);
  }

  lemma {:induction false} LastKept(ms: seq<Metadata>, m: Metadata)
    requires AllPrintable(ms) && LongSmpl(m)
    ensures Kept(ms + [m]) == ms
    decreases |ms|
  {
    hide Printable, LongSmpl;
    PrintableShort(ms);
    if ms == [] {
      assert ([] + [m])[1..] == [];
    } else {
      assert forall i :: 0 <= i < |ms| - 1 ==> ms[1..][i] == ms[i + 1];
      LastKept(ms[1..], m);
      assert (ms + [m])[1..] == ms[1..] + [m];
      assert [ms[0]] + ms[1..] == ms;
    }
  }

  lemma LastFollowed(ms: seq<Metadata>, m: Metadata)
    requires AllPrintable(ms) && LongSmpl(m)
    ensures Followed(ms + [m]) <==> Has(Info, ms) || Has(Adtl, ms)
  {
    hide TopsFollowed, Select, Has, LongSmpl, Kept, AllPrintable;
    LastKept(ms, m);
    HasSelects(Info, ms);
    HasSelects(Adtl, ms);
    LastTop(ms, m, |Select(Info, ms)| + |Select(Adtl, ms)|);
  }

  lemma {:induction false} LastTop(ms: seq<Metadata>, m: Metadata, later: nat)
    requires AllPrintable(ms) && LongSmpl(m)
    ensures TopsFollowed(ms + [m], later) <==> later > 0
    decreases |ms|
  {
    hide Printable, LongSmpl, Select, Kept;
    PrintableShort(ms);
    if ms == [] {
      assert ([] + [m])[1..] == [];
      NothingKept(later);
    } else {
      assert forall i :: 0 <= i < |ms| - 1 ==> ms[1..][i] == ms[i + 1];
      LastTop(ms[1..], m, later);
      assert (ms + [m])[1..] == ms[1..] + [m];
    }
  }

  lemma {:induction false} HasSelects(part: Part, ms: seq<Metadata>)
    ensures Has(part, ms) <==> |Select(part, ms)| > 0
    decreases |ms|
  {
    hide Belongs;
    if ms != [] {
      HasSelects(part, ms[1..]);
      HasCons(part, ms[0], ms[1..]);
      assert [ms[0]] + ms[1..] == ms;
    }
  }

  // ---------- two such files ----------

  const SMALL_INST := Inst(60, 0, 0, 0, 127, 1, 127)

  /** No loops, and twenty-four bytes of data. */
  const SMALL_SMPL := Smpl(SmplHeader(0, 0, 0, 60, 0, 0, 0), [], Zeros(SMPL_LOOP_BYTES))

  lemma SmallFacts()
    ensures Printable(SMALL_INST) && LongSmpl(SMALL_SMPL) && Belongs(Top, SMALL_INST) && !LongSmpl(SMALL_INST)
    ensures AllPrintable([SMALL_INST])
  {
  }

  /** The instrument in front: one object counted and filled, and the slot behind it begun. The instrument
      behind: the same object, in bounds. */
  lemma SmallLongFiles(fmt: Fmt, riffSize: u64, samples: seq<byte>, arena: Arena)
    requires Plain(fmt) && ReaderAccepts(fmt) && |samples| < 0x1000
    ensures var o := Open(FileBytes(Riff, fmt, [SMALL_INST, SMALL_SMPL], riffSize, |samples|, samples), true, arena);
      o.Opened? && o.metadata == [Complete(SMALL_INST)] && o.metadataCount == 1 && !o.inBounds
    ensures var o := Open(FileBytes(Riff, fmt, [SMALL_SMPL, SMALL_INST], riffSize, |samples|, samples), true, arena);
      o.Opened? && o.metadata == [Complete(SMALL_INST)] && o.metadataCount == 1 && o.inBounds
  {
    hide Plain, ReaderAccepts, AllWritable, AllPrintable, FileBytes, Open, Completed, Partition, Has, Followed, Kept,
         WithinLimits, LongSmpl, Printable;
    SmallFacts();
    SmallSizes(|samples|);
    SmallLists();
    assert [SMALL_INST] + [SMALL_SMPL] == [SMALL_INST, SMALL_SMPL];
    LongLast(fmt, [SMALL_INST], SMALL_SMPL, riffSize, samples, arena);
    WrittenOpens(fmt, [SMALL_SMPL, SMALL_INST], riffSize, samples, arena);
  }

  lemma SmallLists()
    ensures Partition([SMALL_INST]) == [SMALL_INST] && Completed([SMALL_INST]) == [Complete(SMALL_INST)]
    ensures !Has(Info, [SMALL_INST]) && !Has(Adtl, [SMALL_INST])
    ensures AllWritable([SMALL_SMPL, SMALL_INST]) && Kept([SMALL_SMPL, SMALL_INST]) == [SMALL_INST]
    ensures Followed([SMALL_SMPL, SMALL_INST])
  {
    hide Printable, LongSmpl;
    SmallFacts();
    var a, b := SMALL_SMPL, SMALL_INST;
    assert [a, b][1..] == [b] && [b][1..] == [] && [b] == [b] + [];
    SelectCons(Top, b, []);
    SelectCons(Info, b, []);
    SelectCons(Adtl, b, []);
    assert Kept([b]) == [b];
    assert TopsFollowed([b], 0);
  }

  lemma SmallSizes(n: nat)
    requires n < 0x1000
    ensures WithinLimits(Riff, [SMALL_INST] + [SMALL_SMPL], n, true)
    ensures WithinLimits(Riff, [SMALL_SMPL, SMALL_INST], n, true)
  {
    hide Print;
    assert [SMALL_INST] + [SMALL_SMPL] == [SMALL_INST, SMALL_SMPL];
    PairPrint(SMALL_INST, SMALL_SMPL);
    PairPrint(SMALL_SMPL, SMALL_INST);
  }

  lemma PairPrint(a: Metadata, b: Metadata)
    requires BodySize(a) <= 100 && BodySize(b) <= 100
    ensures |Print([a, b])| <= 1000
  {
    hide Pieces, Piece, Print;
    DrWavRoundTrip.PiecesPair(Top, a, b);
    DrWavRoundTrip.PiecesPair(Info, a, b);
    DrWavRoundTrip.PiecesPair(Adtl, a, b);
    DrWavRoundTrip.PrintBound([a, b]);
    PieceSmall(Top, a);
    PieceSmall(Info, a);
    PieceSmall(Adtl, a);
    PieceSmall(Top, b);
    PieceSmall(Info, b);
    PieceSmall(Adtl, b);
  }

  lemma PieceSmall(part: Part, m: Metadata)
    requires BodySize(m) <= 100
    ensures |Piece(part, m)| <= 110
  {
    hide Chunk, Body, BodySize, Belongs, Skipped;
  }
}
