/** The arena that the first walk sizes and the second one fills: for every orderly file, exactly when
    nothing is put outside it. */
module DrWavArena {
  import opened Bytes
  import opened DrWavMetadata
  import opened DrWavStreams
  import opened DrWavParserSpec
  import opened DrWavOpenSpec
  import opened DrWavOrderly
  import opened DrWavUse

  // ---------- the second walk ----------

  /** Reading has gone as far as it says: the seek goes on to the end of the chunk, or fails. */
  lemma SeekToEnd(data: seq<byte>, h: HeaderRead, r: Step)
    requires h.Header? && h.size + h.padding < 0x1_0000_0000_0000_0000 && |data| < 0x1_0000_0000_0000_0000
    requires r.pos == h.next + r.bytesRead && r.pos <= |data|
    ensures var distance := ToU64(ToU64(h.size + h.padding) - r.bytesRead);
      r.pos + distance <= |data| ==> r.pos + distance == EndOf(h)
  {
    var total := h.size + h.padding;
    if r.bytesRead > total {
      DivUnique(total - r.bytesRead, 0x1_0000_0000_0000_0000, -1, total - r.bytesRead + 0x1_0000_0000_0000_0000);
    }
  }

  const COUNTING_NOTHING := Parser(CountStage, 0, 0, Arena(0, 0), [], 0, true)
  const READING_NOTHING := COUNTING_NOTHING.(stage := ReadStage)

  lemma ReadTurnOrderly(container: Container, data: seq<byte>, pos: nat, p: Parser)
    requires container != W64 && pos <= |data| < 0x1_0000_0000_0000_0000 && Orderly(container, data, pos)
    requires p.stage == ReadStage
    ensures var h, r := ReadChunkHeader(container, data, pos), ReadTurn(container, data, pos, p);
      r.Midway? ==> h.Header? && h.ident.FourCCId? && r.pos == EndOf(h) && Orderly(container, data, r.pos)
                    && r.p == ProcessChunk(data, h.next, p, h.ident.id, h.size).p && r.p.stage == ReadStage
  {
    hide ReadChunkHeader, ProcessChunk, ChunkOrderly, Counts, Uses, EndOf, HeaderUse;
    var h := ReadChunkHeader(container, data, pos);
    if h.Header? && h.ident.FourCCId? {
      ChunkUses(container, data, h, COUNTING_NOTHING, p);
      FitsU64(container, data, h);
      SeekToEnd(data, h, ProcessChunk(data, h.next, p, h.ident.id, h.size));
    }
  }

  /** The second walk over an orderly file ends. */
  lemma {:induction false} ReadOrderlyEnds(container: Container, data: seq<byte>, pos: nat, p: Parser)
    requires container != W64 && pos <= |data| < 0x1_0000_0000_0000_0000 && Orderly(container, data, pos)
    requires p.stage == ReadStage
    ensures !ReadMetadata(container, data, pos, p).ReadsForever?
    decreases |data| - pos
  {
    hide ReadTurn, ReadMetadata, Orderly, ProcessChunk;
    ReadOn(container, data, pos, p);
    ReadTurnOrderly(container, data, pos, p);
    var r := ReadTurn(container, data, pos, p);
    if r.Midway? {
      ReadOrderlyEnds(container, data, r.pos, r.p);
    }
  }

  // ---------- the first walk ----------

  lemma FourCCOutsideW64(container: Container, data: seq<byte>, pos: nat)
    requires container != W64 && pos <= |data|
    ensures var h := ReadChunkHeader(container, data, pos); h.Header? ==> h.ident.FourCCId?
  {
    hide U32At;
  }

  lemma NotMetadata(data: seq<byte>, pos: nat, p: Parser, id: FourCC, size: nat)
    requires pos <= |data| && (id == ID_FMT || id == ID_DATA || id == ID_FACT)
    ensures ProcessChunk(data, pos, p, id, size) == Step(pos, p, 0) && ChunkUse(data, pos, id, size) == NO_USE
  {
  }

  /** One turn of the first walk with metadata counts what its chunk counts for. */
  lemma ScanTurnCounts(container: Container, data: seq<byte>, s: Scan)
    requires container != W64 && s.pos <= |data| && Orderly(container, data, s.pos) && s.drift == 0
    requires s.parser.stage == CountStage
    ensures var h, r := ReadChunkHeader(container, data, s.pos), ScanTurn(container, true, data, s);
      r.Next? || r.Stop? ==>
        Counts(s.parser, r.s.parser, if h.Header? then HeaderUse(data, h).counted else 0)
  {
    hide ScanChunk, ProcessChunk, ReadChunkHeader, ChunkOrderly, Uses, ChunkUse;
    var h := ReadChunkHeader(container, data, s.pos);
    if h.Header? {
      FourCCOutsideW64(container, data, s.pos);
      ScanChunkOrderly(container, true, data, s, h);
      if IsFmt(h.ident) || IsData(h.ident) || IsFact(h.ident) {
        NotMetadata(data, h.next, s.parser, h.ident.id, h.size);
      } else {
        ChunkUses(container, data, h, s.parser, READING_NOTHING);
      }
    }
  }

  lemma {:induction false} ScanCounts(container: Container, data: seq<byte>, s: Scan)
    requires container != W64 && s.pos <= |data| && Orderly(container, data, s.pos) && s.drift == 0
    requires s.parser.stage == CountStage
    ensures var r := ScanChunks(container, true, data, s);
      r.Stop? ==> Counts(s.parser, r.s.parser, FileUse(container, data, s.pos).counted)
    decreases |data| - s.pos
  {
    hide ScanTurn, ScanChunks, Orderly, HeaderUse, ReadChunkHeader;
    ScanOn(container, true, data, s);
    ScanTurnOrderly(container, true, data, s);
    ScanTurnCounts(container, data, s);
    var r := ScanTurn(container, true, data, s);
    if r.Next? {
      ScanCounts(container, data, r.s);
    }
  }

  // ---------- both walks ----------

  /** One turn of each. */
  lemma TurnsUse(container: Container, data: seq<byte>, s: Scan, p: Parser)
    requires container != W64 && s.pos <= |data| < 0x1_0000_0000_0000_0000 && Orderly(container, data, s.pos)
    requires s.drift == 0 && s.parser.stage == CountStage && p.stage == ReadStage
    ensures var a, b := ScanTurn(container, true, data, s), ReadTurn(container, data, s.pos, p);
      (a.Next? && b.Midway? ==>
         Uses(s.parser, a.s.parser, p, b.p, HeaderUse(data, ReadChunkHeader(container, data, s.pos))))
      && (a.Stop? && b.Parsed? ==> a.s.parser == s.parser && b.parser == p
                                   && ReadChunkHeader(container, data, s.pos).NoHeader?)
      && (a.Stop? ==> !b.Midway?) && (a.Next? ==> !b.Parsed?)
  {
    hide ScanChunk, ProcessChunk, ReadChunkHeader, ChunkOrderly, Counts, Fills, ChunkUse;
    var h := ReadChunkHeader(container, data, s.pos);
    if h.Header? {
      FourCCOutsideW64(container, data, s.pos);
      ScanChunkOrderly(container, true, data, s, h);
      ReadTurnOrderly(container, data, s.pos, p);
      if IsFmt(h.ident) || IsData(h.ident) || IsFact(h.ident) {
        NotMetadata(data, h.next, s.parser, h.ident.id, h.size);
        NotMetadata(data, h.next, p, h.ident.id, h.size);
        UsesNothing(s.parser, p);
      } else {
        ChunkUses(container, data, h, s.parser, p);
      }
    }
  }

  /** What both walks over an orderly file have used, if the second comes to its end. */
  lemma {:induction false} WalksUse(container: Container, data: seq<byte>, s: Scan, p: Parser)
    requires container != W64 && s.pos <= |data| < 0x1_0000_0000_0000_0000 && Orderly(container, data, s.pos)
    requires s.drift == 0 && s.parser.stage == CountStage && p.stage == ReadStage
    ensures var a, b := ScanChunks(container, true, data, s), ReadMetadata(container, data, s.pos, p);
      a.Stop? && b.Parsed? ==> Uses(s.parser, a.s.parser, p, b.parser, FileUse(container, data, s.pos))
    decreases |data| - s.pos
  {
    hide ScanTurn, ScanChunks, ReadTurn, ReadMetadata, Orderly, ProcessChunk, Fills, HeaderUse, ReadChunkHeader,
         Use.Then;
    ScanOn(container, true, data, s);
    ReadOn(container, data, s.pos, p);
    ScanTurnOrderly(container, true, data, s);
    ReadTurnOrderly(container, data, s.pos, p);
    TurnsUse(container, data, s, p);
    var a, b := ScanTurn(container, true, data, s), ReadTurn(container, data, s.pos, p);
    if a.Next? && b.Midway? {
      var h := ReadChunkHeader(container, data, s.pos);
      StagesKept(s.parser, a.s.parser, p, b.p, HeaderUse(data, h));
      WalksUse(container, data, a.s, b.p);
      var x, y := ScanChunks(container, true, data, a.s), ReadMetadata(container, data, b.pos, b.p);
      if x.Stop? && y.Parsed? {
        UsesThen(s.parser, a.s.parser, x.s.parser, p, b.p, y.parser, HeaderUse(data, h),
                 FileUse(container, data, a.s.pos));
      }
    } else {
      UsesNothing(s.parser, p);
    }
  }

  // ---------- opening ----------

  /** What the chunks of a file count for. */
  function UseOf(data: seq<byte>): Use {
    var pro := ReadPrologue(data);
    if pro.Prologue? then FileUse(pro.container, data, pro.pos) else NO_USE
  }

  /** An orderly file that opens with its metadata has as many objects as are counted and as many of them
      filled as are taken; and everything has stayed inside the arena exactly when nothing is counted or no
      more slots are needed than are counted. */
  lemma ArenaExactly(data: seq<byte>, arena: Arena)
    requires OrderlyFile(data)
    ensures var o, u := Open(data, true, arena), UseOf(data);
      o != Hangs
      && (o.Opened? && o.container != W64 ==>
            o.metadataCount == u.counted && |o.metadata| == (if u.counted == 0 then 0 else u.taken)
            && (o.inBounds <==> u.counted == 0 || u.needed <= u.counted))
  {
    hide ScanChunks, ReadMetadata, ReadPrologue, Orderly, StartReading, BytesPerFrame, TranslatedTag, FrameCount,
         ScanTurns, ReadTurns, FileUse;
    var pro := ReadPrologue(data);
    if pro.Prologue? {
      var processing, s := pro.container != W64, StartScan(pro, arena);
      ScanOrderlyEnds(pro.container, processing, data, s);
      if processing {
        ScanCounts(pro.container, data, s);
        var a := ScanChunks(pro.container, true, data, s);
        if a.Stop? {
          var p := StartReading(a.s.parser);
          ReadingStarts(a.s.parser);
          ReadOrderlyEnds(pro.container, data, pro.pos, p);
          WalksUse(pro.container, data, s, p);
        }
      }
    }
  }

  /** Without metadata, nothing is put anywhere. */
  lemma {:induction false} ScanKeepsParser(container: Container, data: seq<byte>, s: Scan)
    requires s.pos <= |data| && Orderly(container, data, s.pos) && s.drift == 0
    ensures var r := ScanChunks(container, false, data, s); r.Stop? ==> r.s.parser == s.parser
    decreases |data| - s.pos
  {
    hide ScanTurn, ScanChunks, Orderly;
    ScanOn(container, false, data, s);
    ScanTurnOrderly(container, false, data, s);
    TurnKeepsParser(container, data, s);
    var r := ScanTurn(container, false, data, s);
    if r.Next? {
      ScanKeepsParser(container, data, r.s);
    }
  }

  lemma TurnKeepsParser(container: Container, data: seq<byte>, s: Scan)
    requires s.pos <= |data| && Orderly(container, data, s.pos) && s.drift == 0
    ensures var r := ScanTurn(container, false, data, s); r.Next? || r.Stop? ==> r.s.parser == s.parser
  {
    hide ScanChunk, ReadChunkHeader, ChunkOrderly, EndOf, ProcessChunk;
    var h := ReadChunkHeader(container, data, s.pos);
    if h.Header? {
      ScanChunkOrderly(container, false, data, s, h);
    }
  }

  lemma OpenWithout(data: seq<byte>, withMetadata: bool, arena: Arena)
    requires OrderlyFile(data)
    ensures var o := Open(data, withMetadata, arena);
      o.Opened? && (!withMetadata || o.container == W64) ==> o.inBounds && o.metadataCount == 0 && o.metadata == []
    ensures !withMetadata ==> Open(data, withMetadata, arena) != Hangs
  {
    hide ScanChunks, ReadMetadata, ReadPrologue, Orderly, StartReading, BytesPerFrame, TranslatedTag, FrameCount,
         ScanTurns, ReadTurns;
    var pro := ReadPrologue(data);
    if pro.Prologue? && (!withMetadata || pro.container == W64) {
      ScanOrderlyEnds(pro.container, false, data, StartScan(pro, arena));
      ScanKeepsParser(pro.container, data, StartScan(pro, arena));
    }
  }

  // ---------- the condition, chunk by chunk ----------

  /** A sampler chunk that takes a slot without being counted. */
  predicate SmplStrays(data: seq<byte>, h: HeaderRead)
    requires h.Header?
  {
    h.ident == FourCCId(ID_SMPL) && h.size >= SMPL_BYTES && h.next + SMPL_BYTES <= |data|
    && !SmplCounts(data, h.next, h.size)
  }

  /** Every sampler chunk has as many loops as its size says. */
  predicate SmplsCounted(container: Container, data: seq<byte>, pos: nat)
    requires pos <= |data|
    decreases |data| - pos
  {
    var h := ReadChunkHeader(container, data, pos);
    h.NoHeader?
    || (!SmplStrays(data, h) && (EndOf(h) <= |data| ==> SmplsCounted(container, data, EndOf(h))))
  }

  /** No stray sampler chunk is a bare 36 bytes, and behind each longer one something is counted. */
  predicate StraysFollowed(container: Container, data: seq<byte>, pos: nat)
    requires pos <= |data|
    decreases |data| - pos
  {
    var h := ReadChunkHeader(container, data, pos);
    h.NoHeader?
    || ((SmplStrays(data, h) ==>
           h.size > SMPL_BYTES && EndOf(h) <= |data| && FileUse(container, data, EndOf(h)).counted > 0)
        && (EndOf(h) <= |data| ==> StraysFollowed(container, data, EndOf(h))))
  }

  predicate ListWhole(data: seq<byte>, pos: nat, listType: Location, bytesRead: nat, size: nat)
    decreases size - bytesRead
  {
    if bytesRead >= size || pos + 4 > |data| then true
    else
      var id := U32At(data, pos);
      if id == ID_ADTL then ListWhole(data, pos + 4, InsideAdtlList, bytesRead + 4, size)
      else if id == ID_INFO then ListWhole(data, pos + 4, InsideInfoList, bytesRead + 4, size)
      else if pos + 8 > |data| then true
      else
        var sub := U32At(data, pos + 4) as int;
        var skipped := 8 + sub + sub % 2;
        (SubchunkCounts(id, sub, listType) ==> pos + 8 + sub <= |data|)
        && (pos + skipped <= |data| ==> ListWhole(data, pos + skipped, listType, bytesRead + skipped, size))
  }

  /** Whatever the chunk counts for is there in full. */
  predicate ChunkWhole(data: seq<byte>, h: HeaderRead)
    requires h.Header?
  {
    && (h.ident == FourCCId(ID_SMPL) && h.size >= SMPL_BYTES && h.next + SMPL_BYTES <= |data| ==>
          SmplCounts(data, h.next, h.size) ==> SmplWhole(data, h.next, h.size))
    && (h.ident == FourCCId(ID_CUE) && h.size >= CUE_BYTES ==>
          h.next + CUE_BYTES <= |data| && CueWhole(data, h.next, h.size))
    && (h.ident == FourCCId(ID_LIST) || h.ident == FourCCId(ID_list) ==>
          ListWhole(data, h.next, InvalidLocation, 0, h.size))
  }

  predicate Whole(container: Container, data: seq<byte>, pos: nat)
    requires pos <= |data|
    decreases |data| - pos
  {
    var h := ReadChunkHeader(container, data, pos);
    h.NoHeader? || (ChunkWhole(data, h) && (EndOf(h) <= |data| ==> Whole(container, data, EndOf(h))))
  }

  /** In a list, no more is taken or needed than is counted, and all of it is taken exactly when it is whole. */
  ghost predicate UseBounds(u: Use, whole: bool) {
    u.taken <= u.counted && u.needed <= u.counted && (u.taken == u.counted <==> whole)
    && (u.taken == u.counted ==> u.needed == u.counted)
  }

  lemma UseBoundsThen(u: Use, v: Use, first: bool, second: bool)
    requires UseBounds(u, first) && UseBounds(v, second)
    ensures UseBounds(u.Then(v), first && second)
  {
  }

  lemma SubchunkUseBounds(data: seq<byte>, pos: nat, id: FourCC, size: nat, listType: Location)
    ensures UseBounds(SubchunkUse(data, pos, id, size, listType),
                      SubchunkCounts(id, size, listType) ==> pos + size <= |data|)
  {
    hide SubchunkCounts, SubchunkFixed;
    FixedCounts(id, size, listType);
  }

  lemma {:induction false} ListUseBounds(data: seq<byte>, pos: nat, listType: Location, bytesRead: nat, size: nat)
    ensures UseBounds(ListUse(data, pos, listType, bytesRead, size), ListWhole(data, pos, listType, bytesRead, size))
    decreases size - bytesRead
  {
    hide U32At, SubchunkUse, SubchunkCounts, UseBounds, Use.Then;
    NoUseBounds();
    if bytesRead < size && pos + 4 <= |data| {
      var id := U32At(data, pos);
      if id == ID_ADTL {
        ListUseBounds(data, pos + 4, InsideAdtlList, bytesRead + 4, size);
      } else if id == ID_INFO {
        ListUseBounds(data, pos + 4, InsideInfoList, bytesRead + 4, size);
      } else if pos + 8 <= |data| {
        var sub := U32At(data, pos + 4) as int;
        var skipped := 8 + sub + sub % 2;
        SubchunkUseBounds(data, pos + 8, id, sub, listType);
        if pos + skipped <= |data| {
          ListUseBounds(data, pos + skipped, listType, bytesRead + skipped, size);
          UseBoundsThen(SubchunkUse(data, pos + 8, id, sub, listType),
                        ListUse(data, pos + skipped, listType, bytesRead + skipped, size),
                        SubchunkCounts(id, sub, listType) ==> pos + 8 + sub <= |data|,
                        ListWhole(data, pos + skipped, listType, bytesRead + skipped, size));
        }
      }
    }
  }

  lemma NoUseBounds()
    ensures UseBounds(NO_USE, true)
  {
  }

  lemma FixedCounts(id: FourCC, size: nat, listType: Location)
    ensures SubchunkCounts(id, size, listType) ==> SubchunkFixed(id) <= size
  {
  }

  /** A chunk that does not stray takes and needs no more than it counts for; one that does counts for
      nothing and needs a slot, which it keeps if it is a bare 36 bytes. */
  lemma HeaderUseBounds(data: seq<byte>, h: HeaderRead)
    requires h.Header?
    ensures var u := HeaderUse(data, h);
      if SmplStrays(data, h) then u == Use(0, if h.size == SMPL_BYTES then 1 else 0, 1) && h.size >= SMPL_BYTES
      else UseBounds(u, ChunkWhole(data, h))
  {
    hide ListUse, ListWhole, SmplCounts, SmplWhole, CueWhole;
    ListUseBounds(data, h.next, InvalidLocation, 0, h.size);
  }

  /** Without strays, no more is taken or needed than is counted, and all is taken exactly when it is whole. */
  lemma {:induction false} CountedUse(container: Container, data: seq<byte>, pos: nat)
    requires pos <= |data| && SmplsCounted(container, data, pos)
    ensures var u := FileUse(container, data, pos);
      u.taken <= u.counted && u.needed <= u.counted && (u.taken == u.counted <==> Whole(container, data, pos))
    decreases |data| - pos
  {
    hide ReadChunkHeader, HeaderUse, ChunkWhole, SmplStrays;
    var h := ReadChunkHeader(container, data, pos);
    if h.Header? {
      HeaderUseBounds(data, h);
      if EndOf(h) <= |data| {
        CountedUse(container, data, EndOf(h));
      }
    }
  }

  /** When all that is counted is whole: what is needed is at least what is counted, and no more exactly
      when the strays do no harm. */
  lemma {:induction false} WholeUse(container: Container, data: seq<byte>, pos: nat)
    requires pos <= |data| && Whole(container, data, pos)
    ensures var u := FileUse(container, data, pos);
      u.counted <= u.needed && (u.needed <= u.counted <==> StraysFollowed(container, data, pos))
    decreases |data| - pos
  {
    hide ReadChunkHeader, HeaderUse, ChunkWhole, SmplStrays;
    var h := ReadChunkHeader(container, data, pos);
    if h.Header? {
      HeaderUseBounds(data, h);
      if EndOf(h) <= |data| {
        WholeUse(container, data, EndOf(h));
      }
    }
  }

  // ---------- what follows for a caller ----------

  predicate FileWhole(data: seq<byte>) {
    var pro := ReadPrologue(data); pro.Prologue? ==> Whole(pro.container, data, pro.pos)
  }

  predicate FileStraysFollowed(data: seq<byte>) {
    var pro := ReadPrologue(data); pro.Prologue? ==> StraysFollowed(pro.container, data, pro.pos)
  }

  predicate FileSmplsCounted(data: seq<byte>) {
    var pro := ReadPrologue(data); pro.Prologue? ==> SmplsCounted(pro.container, data, pro.pos)
  }

  /** An orderly file whose counted objects are whole is opened in bounds if and only if nothing is counted,
      or no sampler chunk of bare 36 bytes claims loops and every longer one with a wrong number of loops is
      followed by something that is counted. */
  lemma InBoundsExactly(data: seq<byte>, arena: Arena)
    requires OrderlyFile(data) && FileWhole(data)
    ensures var o := Open(data, true, arena);
      o.Opened? && o.container != W64 ==>
        (o.inBounds <==> UseOf(data).counted == 0 || FileStraysFollowed(data))
  {
    hide ReadPrologue, Open, Orderly, Whole, StraysFollowed, FileUse;
    ArenaExactly(data, arena);
    var pro := ReadPrologue(data);
    if pro.Prologue? {
      WholeUse(pro.container, data, pro.pos);
    }
  }

  /** An orderly file whose sampler chunks have as many loops as their sizes say is opened in finitely many
      turns, and no object and no byte of its metadata is put outside the arena. */
  lemma OpensInBounds(data: seq<byte>, withMetadata: bool, arena: Arena)
    requires OrderlyFile(data) && FileSmplsCounted(data)
    ensures var o := Open(data, withMetadata, arena); o != Hangs && (o.Opened? ==> o.inBounds)
  {
    hide ReadPrologue, Open, Orderly, SmplsCounted, Whole, FileUse;
    OpenWithout(data, withMetadata, arena);
    if withMetadata {
      ArenaExactly(data, arena);
      var pro := ReadPrologue(data);
      if pro.Prologue? {
        CountedUse(pro.container, data, pro.pos);
      }
    }
  }

  /** Such a file reports as many objects as it has filled if and only if all it counts is whole. */
  lemma FilledExactly(data: seq<byte>, arena: Arena)
    requires OrderlyFile(data) && FileSmplsCounted(data)
    ensures var o := Open(data, true, arena);
      o.Opened? && o.container != W64 ==> (|o.metadata| == o.metadataCount <==> FileWhole(data))
  {
    hide ReadPrologue, Open, Orderly, SmplsCounted, Whole, FileUse;
    ArenaExactly(data, arena);
    var pro := ReadPrologue(data);
    if pro.Prologue? {
      CountedUse(pro.container, data, pro.pos);
    }
  }
}
