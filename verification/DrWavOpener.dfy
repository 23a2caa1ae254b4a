/** drwav_init__internal as it runs over a memory stream: two loops over the chunks, seeking back
    after each look at the metadata. Proved to do what the functions of DrWavOpenSpec say. Neither loop
    need end, so that both are run for so many turns. */
module DrWavOpener {
  import opened Bytes
  import opened DrWavMetadata
  import opened DrWavStreams
  import opened DrWavParserSpec
  import opened DrWavParser
  import opened DrWavOpenSpec
  import opened DrWavReturns

  /** How one chunk leaves the first loop. */
  datatype Outcome = Continue | Break | Fail | LeaveModel

  /** Reads a chunk header; `next` is the position after it. */
  method ReadHeader(stream: MemoryReadStream, container: Container) returns (h: HeaderRead)
    requires stream.Valid()
    modifies stream
    ensures stream.Valid()
    ensures h == ReadChunkHeader(container, stream.data, old(stream.currentReadPos))
    ensures h.Header? ==> stream.currentReadPos == h.next
  {
    hide U32At, U64At;
    ghost var start := stream.currentReadPos;
    if container == W64 {
      var guid := stream.Read(16);
      if |guid| != 16 { return NoHeader; }
      var sizeInBytes := stream.Read(8);
      if |sizeInBytes| != 8 { return NoHeader; }
      SliceWords(stream.data, start, guid);
      SliceWords(stream.data, start + 16, sizeInBytes);
      var size := ToU64(U64At(sizeInBytes, 0) as int - 24);
      h := Header(Guid(U64At(guid, 0), U64At(guid, 8)), size, size % 8, stream.currentReadPos);
    } else {
      var fourcc := stream.Read(4);
      if |fourcc| != 4 { return NoHeader; }
      var sizeInBytes := stream.Read(4);
      if |sizeInBytes| != 4 { return NoHeader; }
      SliceWords(stream.data, start, fourcc);
      SliceWords(stream.data, start + 4, sizeInBytes);
      var size := U32At(sizeInBytes, 0);
      h := Header(FourCCId(U32At(fourcc, 0)), size, size % 2, stream.currentReadPos);
    }
  }

  /** Fields of a buffer are fields of the data it was read from. */
  lemma SliceWords(data: seq<byte>, pos: nat, b: seq<byte>)
    requires At(data, pos, b)
    ensures |b| >= 4 ==> U32At(b, 0) == U32At(data, pos)
    ensures |b| >= 8 ==> U64At(b, 0) == U64At(data, pos)
    ensures |b| >= 16 ==> U64At(b, 8) == U64At(data, pos + 8)
  {
    forall i | 0 <= i < |b| ensures b[i] == data[pos + i] {
      assert data[pos..pos + |b|][i] == data[pos + i];
    }
  }

  /** The variables of the first loop. */
  class ChunkWalk {
    const stream: MemoryReadStream
    const parser: MetadataParser
    const container: Container
    const processing: bool
    var drift: u64
    var fmt: Fmt
    var foundFmt: bool
    var foundData: bool
    var dataPos: nat
    var dataSize: u64
    var factCount: u64

    ghost predicate Valid()
      reads this, stream
    {
      stream.Valid() && parser.stream == stream
    }

    function Snapshot(): Scan
      reads this, stream, parser
    {
      Scan(stream.currentReadPos, drift, fmt, foundFmt, foundData, dataPos, dataSize, factCount, parser.Snapshot())
    }

    constructor (stream: MemoryReadStream, parser: MetadataParser, pro: Prologue, processing: bool)
      requires pro.Prologue? && stream.Valid() && parser.stream == stream
      ensures Valid()
      ensures this.stream == stream && this.parser == parser
      ensures this.container == pro.container && this.processing == processing
      ensures Snapshot() == Scan(stream.currentReadPos, 0, ZERO_FMT, false, false, 0, pro.dataSize, pro.factCount,
                                 parser.Snapshot())
    {
      this.stream := stream;
      this.parser := parser;
      this.container := pro.container;
      this.processing := processing;
      drift, fmt, foundFmt, foundData, dataPos := 0, ZERO_FMT, false, false, 0;
      dataSize, factCount := pro.dataSize, pro.factCount;
    }

    /** The object agrees with what a function says of the chunk; past the loop, the position no
        longer matters. */
    ghost predicate Agrees(o: Outcome, r: After)
      reads this, stream, parser
    {
      Valid() &&
      match o
      case Continue => r == Next(Snapshot())
      case Break => r.Stop? && r.s.(pos := stream.currentReadPos) == Snapshot()
      case Fail => r == Reject
      case LeaveModel => r == OutsideModel
    }

    method Skip(ghost s: Scan, pos: nat, chunkSize: u64, padding: nat) returns (o: Outcome)
      requires Valid() && pos == stream.currentReadPos && s.(pos := pos) == Snapshot()
      modifies stream
      ensures Agrees(o, SkipBody(stream.data, s, pos, chunkSize, padding))
    {
      var ok := stream.SeekForward(ToU64(chunkSize + padding));
      o := if ok then Continue else Break;
    }

    method WalkFmt(h: HeaderRead) returns (o: Outcome)
      requires Valid() && h.Header? && h.next == stream.currentReadPos
      modifies this, stream
      ensures Agrees(o, ScanFmt(stream.data, old(Snapshot()), h))
    {
      hide U16At, U32At, U64At;
      var pos := stream.currentReadPos;
      var fmtData := stream.Read(16);
      if |fmtData| != 16 { return Fail; }
      SliceFmt(stream.data, pos, fmtData);
      fmt := FmtFrom(fmtData, 0);
      foundFmt := true;
      if h.size > 16 {
        o := WalkFmtExtension(pos, h);
        if o != Continue { return; }
      }
      if h.padding > 0 {
        var ok := stream.SeekForward(h.padding);
        if !ok { return Break; }
      }
      o := Continue;
    }

    /** The extension of a fmt chunk longer than 16 bytes, and whatever follows it. */
    method WalkFmtExtension(ghost pos: nat, h: HeaderRead) returns (o: Outcome)
      requires Valid() && h.Header? && stream.currentReadPos == pos + 16 && h.size > 16
      requires fmt == FmtFrom(stream.data, pos) && foundFmt && h.next == pos
      modifies this, stream
      ensures Valid()
      ensures match o
        case Continue =>
          ScanFmt(stream.data, old(Snapshot()), h) == AfterPadding(Snapshot(), |stream.data|, h.padding)
        case Break => false
        case Fail => ScanFmt(stream.data, old(Snapshot()), h) == Reject
        case LeaveModel => false
    {
      hide U32At, U64At, SkipLeftover;
      var fmt_cbSize := stream.Read(2);
      if |fmt_cbSize| != 2 { return Fail; }
      var ext: nat := U16At(fmt_cbSize, 0);
      assert ext == U16At(stream.data, pos + 16);
      var bytesReadSoFar: nat := 18;
      fmt := fmt.(extendedSize := ext);
      if ext > 0 {
        if fmt.formatTag == FORMAT_EXTENSIBLE {
          if ext != 22 { return Fail; }
          var fmtext := stream.Read(22);
          if |fmtext| != 22 { return Fail; }
          SliceExtension(stream.data, pos + 18, fmtext);
          fmt := fmt.(validBitsPerSample := U16At(fmtext, 0), channelMask := U32At(fmtext, 2),
                      subFormatLo := U64At(fmtext, 6), subFormatHi := U64At(fmtext, 14));
        } else {
          var ok := stream.Seek(ext, FromCurrent);
          if !ok { return Fail; }
        }
        bytesReadSoFar := bytesReadSoFar + ext;
      }
      var leftover := ToU64(h.size as int - bytesReadSoFar);
      o := SeekLeftover(Snapshot(), leftover, h.padding);
    }

    /** The seek over what is left of a fmt chunk. */
    method SeekLeftover(ghost s: Scan, leftover: u64, ghost padding: nat) returns (o: Outcome)
      requires Valid() && s == Snapshot()
      modifies this`drift, stream
      ensures Valid() && (o == Fail || o == Continue)
      ensures SkipLeftover(stream.data, s, leftover, padding)
           == if o == Fail then Reject else AfterPadding(Snapshot(), |stream.data|, padding)
    {
      hide AfterPadding, ToInt32;
      var ok := stream.Seek(ToInt32(leftover), FromCurrent);
      if !ok { return Fail; }
      drift := ToU64(drift as int + leftover as int - ToInt32(leftover));
      o := Continue;
    }

    lemma SliceFmt(data: seq<byte>, pos: nat, b: seq<byte>)
      requires |b| == 16 && At(data, pos, b)
      ensures FmtFrom(b, 0) == FmtFrom(data, pos)
    {
      forall i | 0 <= i < 16 ensures b[i] == data[pos + i] {
        assert data[pos..pos + 16][i] == data[pos + i];
      }
    }

    lemma SliceExtension(data: seq<byte>, pos: nat, b: seq<byte>)
      requires |b| == 22 && At(data, pos, b)
      ensures U16At(b, 0) == U16At(data, pos) && U32At(b, 2) == U32At(data, pos + 2)
      ensures U64At(b, 6) == U64At(data, pos + 6) && U64At(b, 14) == U64At(data, pos + 14)
    {
      forall i | 0 <= i < 22 ensures b[i] == data[pos + i] {
        assert data[pos..pos + 22][i] == data[pos + i];
      }
    }

    method WalkData(h: HeaderRead) returns (o: Outcome)
      requires Valid() && h.Header? && h.next == stream.currentReadPos
      modifies this, stream
      ensures Agrees(o, ScanData(container, processing, stream.data, old(Snapshot()), h))
    {
      foundData := true;
      dataPos := Cursor(stream.currentReadPos, drift);
      if container != Rf64 {
        dataSize := h.size;
      }
      if !processing {
        o := Break;
      } else {
        o := Skip(Snapshot(), stream.currentReadPos, h.size, h.padding);
      }
    }

    method WalkFact(h: HeaderRead) returns (o: Outcome)
      requires Valid() && h.Header? && h.next == stream.currentReadPos
      modifies this, stream
      ensures Agrees(o, ScanFact(container, stream.data, old(Snapshot()), h))
    {
      hide U64At, SkipBody;
      var chunkSize := h.size;
      ghost var pos := stream.currentReadPos;
      if container == Riff {
        var sampleCount := stream.Read(4);
        if |sampleCount| != 4 { return Fail; }
        chunkSize := ToU64(chunkSize as int - 4);
        factCount := 0;
      } else if container == W64 {
        var sampleCount := stream.Read(8);
        if |sampleCount| != 8 { return Fail; }
        SliceWords(stream.data, pos, sampleCount);
        chunkSize := ToU64(chunkSize as int - 8);
        factCount := U64At(sampleCount, 0);
      }
      ghost var s := Snapshot().(pos := pos);
      o := Skip(s, stream.currentReadPos, chunkSize, h.padding);
      SkipFrom(s, old(Snapshot()).(factCount := factCount), stream.data, h, chunkSize);
    }

    /** Skipping does not look at where the walk was before. */
    lemma SkipFrom(s: Scan, t: Scan, data: seq<byte>, h: HeaderRead, chunkSize: u64)
      requires h.Header? && s.(pos := 0) == t.(pos := 0)
      ensures forall pos: nat ::
        var a, b := SkipBody(data, s, pos, chunkSize, h.padding), SkipBody(data, t, pos, chunkSize, h.padding);
        a.Stop? == b.Stop? && a.Next? == b.Next? && (a.Next? ==> a == b)
        && (a.Stop? ==> a.s.(pos := 0) == b.s.(pos := 0))
    {
    }

    /** A chunk that only the metadata parser may look at. */
    method WalkOther(h: HeaderRead) returns (o: Outcome)
      requires Valid() && h.Header? && h.next == stream.currentReadPos
      requires !IsFmt(h.ident) && !IsData(h.ident) && !IsFact(h.ident)
      modifies this, stream, parser
      ensures Agrees(o, ScanChunk(container, processing, stream.data, old(Snapshot()), h))
    {
      hide ProcessChunk, SkipBody, ScanFmt, ScanData, ScanFact;
      if processing && h.ident.FourCCId? {
        if h.ident.id == ID_BEXT { return LeaveModel; }
        var cursor := Cursor(stream.currentReadPos, drift);
        var _ := parser.ProcessOneChunk(h.ident.id, h.size);
        var ok := stream.SeekFromStart(cursor);
        if !ok { return Break; }
        drift := 0;
      }
      o := Skip(Snapshot().(pos := h.next), stream.currentReadPos, h.size, h.padding);
    }

    method WalkOne(h: HeaderRead) returns (o: Outcome)
      requires Valid() && h.Header? && h.next == stream.currentReadPos
      modifies this, stream, parser
      ensures Agrees(o, ScanChunk(container, processing, stream.data, old(Snapshot()), h))
    {
      hide ScanFmt, ScanData, ScanFact;
      if IsFmt(h.ident) {
        o := WalkFmt(h);
      } else if IsData(h.ident) {
        o := WalkData(h);
      } else if IsFact(h.ident) {
        o := WalkFact(h);
      } else {
        o := WalkOther(h);
      }
    }

    /** The first loop, for so many turns. */
    method Walk(turns: nat) returns (o: Outcome)
      requires Valid()
      modifies this, stream, parser
      ensures Agrees(o, ScanTurns(container, processing, stream.data, old(Snapshot()), turns))
    {
      hide ReadChunkHeader, ScanChunk;
      ghost var outcome := ScanTurns(container, processing, stream.data, Snapshot(), turns);
      for i := 0 to turns
        invariant Valid()
        invariant outcome == ScanTurns(container, processing, stream.data, Snapshot(), turns - i)
      {
        ghost var before := Snapshot();
        var h := ReadHeader(stream, container);
        if h == NoHeader { return Break; }
        ScanFrom(container, processing, stream.data, before, Snapshot(), h);
        o := WalkOne(h);
        if o != Continue { return; }
      }
      o := Continue;
    }

    /** Two outcomes that differ only in the position at which the loop was left. */
    ghost predicate SameAfter(a: After, b: After) {
      a.Stop? == b.Stop? && a.Next? == b.Next? && a.Reject? == b.Reject? && (a.Next? ==> a == b)
      && (a.Stop? ==> a.s.(pos := 0) == b.s.(pos := 0))
    }

    lemma FmtFromAnywhere(data: seq<byte>, s: Scan, t: Scan, h: HeaderRead)
      requires h.Header? && h.next <= |data| && s.(pos := 0) == t.(pos := 0)
      ensures SameAfter(ScanFmt(data, s, h), ScanFmt(data, t, h))
    {
      hide FmtFrom, U16At, U32At, U64At, ToInt32;
    }

    lemma FactFromAnywhere(container: Container, data: seq<byte>, s: Scan, t: Scan, h: HeaderRead)
      requires h.Header? && h.next <= |data| && s.(pos := 0) == t.(pos := 0)
      ensures SameAfter(ScanFact(container, data, s, h), ScanFact(container, data, t, h))
    {
      hide U64At;
    }

    /** A chunk's outcome does not depend on where the walk was before its header. */
    lemma ScanFrom(container: Container, processing: bool, data: seq<byte>, s: Scan, t: Scan, h: HeaderRead)
      requires h.Header? && h.next <= |data| && s.(pos := 0) == t.(pos := 0)
      ensures SameAfter(ScanChunk(container, processing, data, s, h), ScanChunk(container, processing, data, t, h))
    {
      hide ProcessChunk, ScanFmt, ScanFact;
      FmtFromAnywhere(data, s, t, h);
      FactFromAnywhere(container, data, s, t, h);
    }
  }

  /** One chunk once more, this time for its metadata. */
  method ReadOne(stream: MemoryReadStream, parser: MetadataParser, container: Container) returns (r: SecondPass)
    requires stream.Valid() && parser.stream == stream
    modifies stream, parser
    ensures stream.Valid()
    ensures r == ReadTurn(container, stream.data, old(stream.currentReadPos), old(parser.Snapshot()))
    ensures r.Midway? ==> r == Midway(stream.currentReadPos, parser.Snapshot())
    ensures r.Parsed? ==> r.parser == parser.Snapshot()
  {
    hide ReadChunkHeader, ProcessChunk;
    var h := ReadHeader(stream, container);
    if h == NoHeader { return Parsed(parser.Snapshot()); }
    if !h.ident.FourCCId? || h.ident.id == ID_BEXT { return Outside; }
    var bytesRead := parser.ProcessOneChunk(h.ident.id, h.size);
    var distance := ToU64(ToU64(h.size + h.padding) as int - bytesRead);
    var ok := stream.SeekForward(distance);
    if !ok { return Failed; }
    r := Midway(stream.currentReadPos, parser.Snapshot());
  }

  /** The second loop, for so many turns. */
  method ReadAllMetadata(stream: MemoryReadStream, parser: MetadataParser, container: Container, turns: nat)
    returns (r: SecondPass)
    requires stream.Valid() && parser.stream == stream
    modifies stream, parser
    ensures stream.Valid()
    ensures r == ReadTurns(container, stream.data, old(stream.currentReadPos), old(parser.Snapshot()), turns)
    ensures r.Parsed? ==> parser.Snapshot() == r.parser
  {
    hide ReadTurn;
    r := Midway(stream.currentReadPos, parser.Snapshot());
    for i := 0 to turns
      invariant stream.Valid() && r == Midway(stream.currentReadPos, parser.Snapshot())
      invariant ReadTurns(container, stream.data, old(stream.currentReadPos), old(parser.Snapshot()), turns)
             == ReadTurns(container, stream.data, r.pos, r.p, turns - i)
    {
      r := ReadOne(stream, parser, container);
      if !r.Midway? { return; }
    }
  }

  /** The container's own header. */
  method ReadFilePrologue(stream: MemoryReadStream) returns (pro: Prologue)
    requires stream.Valid() && stream.currentReadPos == 0
    modifies stream
    ensures stream.Valid()
    ensures pro == ReadPrologue(stream.data)
    ensures pro.Prologue? ==> stream.currentReadPos == pro.pos
  {
    hide U32At, U64At;
    var riff := stream.Read(4);
    if |riff| != 4 { return BadPrologue; }
    SliceWords(stream.data, 0, riff);
    var id := U32At(riff, 0);
    if id == ID_RIFX || id == ID_FORM { return OtherPrologue; }
    if id == ID_riff {
      pro := ReadW64Prologue(stream);
    } else if id == ID_RIFF || id == ID_RF64 {
      var chunkSizeBytes := stream.Read(4);
      if |chunkSizeBytes| != 4 { return BadPrologue; }
      SliceWords(stream.data, 4, chunkSizeBytes);
      if id == ID_RF64 && U32At(chunkSizeBytes, 0) != U32_MAX {
        return BadPrologue;
      }
      var wave := stream.Read(4);
      if |wave| != 4 { return BadPrologue; }
      SliceWords(stream.data, 8, wave);
      if U32At(wave, 0) != ID_WAVE { return BadPrologue; }
      if id == ID_RIFF {
        pro := Prologue(Riff, 12, 0, 0);
      } else {
        pro := ReadDs64Chunk(stream);
      }
    } else {
      pro := BadPrologue;
    }
  }

  lemma LowHalf(data: seq<byte>)
    requires |data| >= 16
    ensures Guid(U64At(data, 0), U64At(data, 8)) == W64_RIFF
       <==> U32At(data, 0) == ID_riff && U32At(data, 4) == 0x11CF_912E && U64At(data, 8) == 0x0000_C104_DB28_D6A5
  {
    hide U32At;
  }

  /** The rest of a Wave64 header, after its first four bytes. */
  method ReadW64Prologue(stream: MemoryReadStream) returns (pro: Prologue)
    requires stream.Valid() && stream.currentReadPos == 4 && U32At(stream.data, 0) == ID_riff
    modifies stream
    ensures stream.Valid()
    ensures pro == ReadPrologue(stream.data)
    ensures pro.Prologue? ==> stream.currentReadPos == pro.pos
  {
    hide U32At, U64At;
    var riff2 := stream.Read(12);
    if |riff2| != 12 { return BadPrologue; }
    SliceTwelve(stream.data, riff2);
    LowHalf(stream.data);
    if U32At(riff2, 0) != 0x11CF_912E || U64At(riff2, 4) != 0x0000_C104_DB28_D6A5 { return BadPrologue; }
    var chunkSizeBytes := stream.Read(8);
    if |chunkSizeBytes| != 8 { return BadPrologue; }
    SliceWords(stream.data, 16, chunkSizeBytes);
    if U64At(chunkSizeBytes, 0) < 80 { return BadPrologue; }
    var wave := stream.Read(16);
    if |wave| != 16 { return BadPrologue; }
    SliceWords(stream.data, 24, wave);
    if Guid(U64At(wave, 0), U64At(wave, 8)) != W64_WAVE { return BadPrologue; }
    pro := Prologue(W64, 40, 0, 0);
  }

  lemma SliceTwelve(data: seq<byte>, b: seq<byte>)
    requires |b| == 12 && At(data, 4, b)
    ensures U32At(b, 0) == U32At(data, 4) && U64At(b, 4) == U64At(data, 8)
  {
    forall i | 0 <= i < 12 ensures b[i] == data[4 + i] {
      assert data[4..16][i] == data[4 + i];
    }
  }

  method ReadDs64Chunk(stream: MemoryReadStream) returns (pro: Prologue)
    requires stream.Valid()
    modifies stream
    ensures stream.Valid()
    ensures pro == ReadDs64(stream.data, old(stream.currentReadPos))
    ensures pro.Prologue? ==> stream.currentReadPos == pro.pos
  {
    hide U64At, ReadChunkHeader;
    var h := ReadHeader(stream, Rf64);
    if h == NoHeader || h.ident != FourCCId(ID_DS64) { return BadPrologue; }
    var bytesRemainingInChunk := h.size + h.padding;
    var ok := stream.SeekForward(8);
    if !ok { return BadPrologue; }
    var dataSizeBytes := stream.Read(8);
    if |dataSizeBytes| != 8 { return BadPrologue; }
    SliceWords(stream.data, h.next + 8, dataSizeBytes);
    var sampleCountBytes := stream.Read(8);
    if |sampleCountBytes| != 8 { return BadPrologue; }
    SliceWords(stream.data, h.next + 16, sampleCountBytes);
    ok := stream.SeekForward(ToU64(bytesRemainingInChunk as int - 24));
    if !ok { return BadPrologue; }
    pro := Prologue(Rf64, stream.currentReadPos, U64At(dataSizeBytes, 0), U64At(sampleCountBytes, 0));
  }

  /** Reads and discards in blocks of 4096 bytes. */
  method ReadToEnd(stream: MemoryReadStream)
    requires stream.Valid()
    modifies stream
    ensures stream.currentReadPos == |stream.data|
  {
    while true
      invariant stream.Valid()
      decreases |stream.data| - stream.currentReadPos
    {
      var temp := stream.Read(4096);
      if |temp| < 4096 { break; }
    }
  }

  /** The figures do not depend on where either walk has left off. */
  lemma ConcludeIgnores(container: Container, data: seq<byte>, s: Scan, t: Scan, reading: bool, p: Parser)
    requires s.(pos := 0, parser := p) == t.(pos := 0, parser := p)
    requires BasicallyValid(s.fmt) && s.dataPos <= |data|
    ensures Conclude(container, data, s, reading, p) == Conclude(container, data, t, reading, p)
  {
  }

  /** What follows the first loop. */
  method FinishOpening(stream: MemoryReadStream, walk: ChunkWalk, ghost s: Scan, metadataStart: nat, turns: nat)
    returns (r: Opening)
    requires walk.Valid() && walk.stream == stream && metadataStart <= |stream.data|
    requires s.(pos := 0) == walk.Snapshot().(pos := 0)
    modifies stream, walk.parser
    ensures stream.Valid()
    ensures r == FinishWith(walk.container, walk.processing, stream.data, s,
                            ReadTurns(walk.container, stream.data, metadataStart, StartReading(s.parser), turns))
    ensures r.Opened? ==> stream.currentReadPos == r.streamPos
  {
    hide ReadTurns, StartReading;
    var parser := walk.parser;
    if !walk.foundFmt || !walk.foundData { return Rejected; }
    if !BasicallyValid(walk.fmt) { return Rejected; }
    var ok := stream.SeekFromStart(walk.dataPos);
    if !ok { return Rejected; }
    var reading := walk.processing && parser.metadataCount > 0;
    if reading {
      ok := stream.SeekFromStart(metadataStart);
      parser.Allocate();
      var second := ReadAllMetadata(stream, parser, walk.container, turns);
      if second == Failed { return Rejected; }
      if second == Outside { return Unmodelled; }
      if second.Midway? { return CutShort; }
    }
    ok := stream.SeekFromStart(walk.dataPos);
    if walk.dataSize == U32_MAX && walk.container == Riff {
      ReadToEnd(stream);
    }
    r := Conclude(walk.container, stream.data, walk.Snapshot(), reading, parser.Snapshot());
    ConcludeIgnores(walk.container, stream.data, s, walk.Snapshot(), reading, parser.Snapshot());
  }

  /** drwav_init__internal, whose loops are run for so many turns: unless they are cut short, this is what
      they come to. */
  method OpenStreamWithin(stream: MemoryReadStream, withMetadata: bool, arena: Arena, turns: nat) returns (r: Opening)
    requires stream.Valid() && stream.currentReadPos == 0
    modifies stream
    ensures stream.Valid()
    ensures r == OpenWithin(stream.data, withMetadata, arena, turns)
    ensures r != CutShort ==> r == Open(stream.data, withMetadata, arena)
    ensures r.Opened? ==> stream.currentReadPos == r.streamPos
  {
    hide ReadPrologue, ScanTurns, FinishWith, Open;
    if OpenWithin(stream.data, withMetadata, arena, turns) != CutShort {
      OpenedWithin(stream.data, withMetadata, arena, turns);
    }
    var pro := ReadFilePrologue(stream);
    if pro == BadPrologue { return Rejected; }
    if pro == OtherPrologue { return Unmodelled; }
    var processing := withMetadata && pro.container != W64;
    var parser := new MetadataParser(stream, arena);
    var walk := new ChunkWalk(stream, parser, pro, processing);
    ghost var outcome := ScanTurns(pro.container, processing, stream.data, walk.Snapshot(), turns);
    assert walk.Snapshot() == StartScan(pro, arena);
    var o := walk.Walk(turns);
    if o == Fail { return Rejected; }
    if o == LeaveModel { return Unmodelled; }
    if o == Continue { return CutShort; }
    r := FinishOpening(stream, walk, outcome.s, pro.pos, turns);
  }

  /** drwav_init__internal. A walk that takes more turns than there are places in the file has come back to
      one of them and never ends, so that the outcome is always decided. */
  method OpenStream(stream: MemoryReadStream, withMetadata: bool, arena: Arena) returns (r: Opening)
    requires stream.Valid() && stream.currentReadPos == 0
    modifies stream
    ensures stream.Valid()
    ensures r == Open(stream.data, withMetadata, arena)
    ensures r.Opened? ==> stream.currentReadPos == r.streamPos
  {
    hide Open, OpenWithin, Places;
    OpenDecided(stream.data, withMetadata, arena);
    r := OpenStreamWithin(stream, withMetadata, arena, Places(withMetadata, stream.data));
    if r == CutShort { return Hangs; }
  }
}
