/** Both walks of the opener over a printed metadata region: the first skips it, or counts it when
    metadata is wanted; the second rebuilds it inside the arena. */
module DrWavWalks {
  import opened Bytes
  import opened DrWavMetadata
  import opened DrWavStreams
  import opened DrWavParserSpec
  import opened DrWavLeafRoundTrip
  import opened DrWavListRoundTrip
  import opened DrWavOpenSpec

  lemma HeaderOfChunk(container: Container, data: seq<byte>, pos: nat, id: FourCC, body: seq<byte>)
    requires container != W64 && At(data, pos, Chunk(id, body)) && |body| <= U32_MAX
    ensures ReadChunkHeader(container, data, pos) == Header(FourCCId(id), |body|, |body| % 2, pos + 8)
    ensures At(data, pos + 8, body) && pos + 8 + |body| + |body| % 2 <= |data|
  {
    hide U32At, Chunk;
    ChunkAt(data, pos, id, body);
  }

  /** What the first walk adds to the parser's sums. */
  function Tally(processing: bool, p: Parser, ms: seq<Metadata>): Parser {
    if processing then Counting(p, |ms|, ExtraSum(ms)) else p
  }

  lemma TallyTwice(processing: bool, p: Parser, a: seq<Metadata>, b: seq<Metadata>)
    ensures Tally(processing, Tally(processing, p, a), b) == Tally(processing, p, a + b)
  {
    ExtraSumConcat(a, b);
  }

  /** The first walk passes over a chunk that only the metadata parser looks at. */
  lemma ScanOther(container: Container, processing: bool, data: seq<byte>, s: Scan, id: FourCC, body: seq<byte>)
    requires container != W64 && s.pos <= |data| && At(data, s.pos, Chunk(id, body)) && |body| <= U32_MAX
    requires id != ID_FMT && id != ID_DATA && id != ID_FACT && id != ID_BEXT && s.drift == 0
    ensures var p := if processing then ProcessChunk(data, s.pos + 8, s.parser, id, |body|).p else s.parser;
      ScanChunks(container, processing, data, s)
      == ScanChunks(container, processing, data, s.(pos := s.pos + |Chunk(id, body)|, parser := p))
  {
    hide ReadChunkHeader, Chunk, ProcessChunk, ScanFmt, ScanData, ScanFact, ScanChunks;
    HeaderOfChunk(container, data, s.pos, id, body);
    ScanOn(container, processing, data, s);
  }

  lemma {:induction false} ScanTop(container: Container, processing: bool, data: seq<byte>, s: Scan,
                                   ms: seq<Metadata>)
    requires container != W64 && AllPrintable(ms) && s.parser.stage == CountStage && s.drift == 0
    requires s.pos <= |data| && At(data, s.pos, Pieces(Top, ms))
    ensures ScanChunks(container, processing, data, s)
         == ScanChunks(container, processing, data,
              s.(pos := s.pos + |Pieces(Top, ms)|, parser := Tally(processing, s.parser, Select(Top, ms))))
    decreases |ms|
  {
    hide ScanChunks, Printable, Belongs, Piece, Select, Tally;
    if ms == [] {
      TallyNothing(processing, s.parser);
      SelectNothing(Top);
    } else {
      var m := ms[0];
      SelectStep(Top, ms);
      PieceWhole(Top, m);
      AtSplit(data, s.pos, Piece(Top, m), Pieces(Top, ms[1..]));
      var rest := Select(Top, ms[1..]);
      if Belongs(Top, m) {
        ScanOneTop(container, processing, data, s, m);
        var s1 := s.(pos := s.pos + |Piece(Top, m)|, parser := Tally(processing, s.parser, [m]));
        assert s1.parser.stage == CountStage by { TallyStage(processing, s.parser, [m]); }
        ScanTop(container, processing, data, s1, ms[1..]);
        TallyTwice(processing, s.parser, [m], rest);
      } else {
        ScanTop(container, processing, data, s, ms[1..]);
      }
    }
  }

  lemma TallyNothing(processing: bool, p: Parser)
    ensures Tally(processing, p, []) == p
  {
  }

  lemma TallyStage(processing: bool, p: Parser, ms: seq<Metadata>)
    ensures Tally(processing, p, ms).stage == p.stage
  {
  }

  lemma TallyCounts(p: Parser, ms: seq<Metadata>)
    ensures Tally(true, p, ms).metadataCount == p.metadataCount + |ms|
  {
  }

  lemma ScanOneTop(container: Container, processing: bool, data: seq<byte>, s: Scan, m: Metadata)
    requires container != W64 && Belongs(Top, m) && Printable(m) && s.parser.stage == CountStage && s.drift == 0
    requires s.pos <= |data| && At(data, s.pos, Piece(Top, m))
    ensures ScanChunks(container, processing, data, s)
         == ScanChunks(container, processing, data,
              s.(pos := s.pos + |Piece(Top, m)|, parser := Tally(processing, s.parser, [m])))
  {
    hide ScanChunks, Printable, Belongs, Body, BodySize, ChunkId, Extra, Skipped, Chunk, ProcessChunk;
    PrintableTopFacts(m);
    NotBext(m);
    HeaderOfChunk(container, data, s.pos, ChunkId(m), Body(m));
    CountTopLevelIf(processing, data, s.pos + 8, s.parser, m);
    ScanOther(container, processing, data, s, ChunkId(m), Body(m));
  }

  lemma NotBext(m: Metadata)
    requires Belongs(Top, m) && Printable(m)
    ensures ChunkId(m) != ID_BEXT
  {
  }

  lemma CountTopLevelIf(processing: bool, data: seq<byte>, pos: nat, p: Parser, m: Metadata)
    requires Belongs(Top, m) && Printable(m) && p.stage == CountStage && At(data, pos, Body(m))
    ensures processing ==> ProcessChunk(data, pos, p, ChunkId(m), BodySize(m)).p == Tally(true, p, [m])
  {
    hide Printable, Belongs, Body, BodySize, ChunkId, Extra, ProcessChunk;
    CountTopLevel(data, pos, p, m);
    assert ExtraSum([m]) == Extra(m) + ExtraSum([m][1..]);
  }

  lemma SelectNone(part: Part, ms: seq<Metadata>)
    requires !Has(part, ms)
    ensures Select(part, ms) == []
  {
    if ms != [] {
      assert !Belongs(part, ms[0]);
      forall i | 0 <= i < |ms| - 1 ensures !Belongs(part, ms[1..][i]) {
        assert ms[1..][i] == ms[i + 1];
      }
      SelectNone(part, ms[1..]);
    }
  }

  /** A written list, as the chunk it is. */
  lemma ListShape(part: Part, ms: seq<Metadata>)
    requires part != Top && AllPrintable(ms)
    ensures !Has(part, ms) ==> ListChunk(part, ms) == [] && Select(part, ms) == []
    ensures Has(part, ms) ==> ListChunk(part, ms) == Chunk(ID_LIST, LE32(ListTag(part)) + Pieces(part, ms))
  {
    hide Chunk, AllPrintable, LE32;
    NothingSkipped(part, ms);
    if Has(part, ms) {
      ListIsChunk(part, ms);
    } else {
      SelectNone(part, ms);
    }
  }

  lemma ScanList(part: Part, container: Container, processing: bool, data: seq<byte>, s: Scan, ms: seq<Metadata>)
    requires part != Top && container != W64 && AllPrintable(ms) && s.parser.stage == CountStage && s.drift == 0
    requires s.pos <= |data| && At(data, s.pos, ListChunk(part, ms)) && |ListChunk(part, ms)| <= U32_MAX
    ensures ScanChunks(container, processing, data, s)
         == ScanChunks(container, processing, data,
              s.(pos := s.pos + |ListChunk(part, ms)|, parser := Tally(processing, s.parser, Select(part, ms))))
  {
    hide ScanChunks, AllPrintable, Chunk, ListChunk, Pieces, Select, ProcessChunk, Has, LE32;
    ListShape(part, ms);
    if Has(part, ms) {
      var body := LE32(ListTag(part)) + Pieces(part, ms);
      HeaderOfChunk(container, data, s.pos, ID_LIST, body);
      if processing {
        CountList(part, data, s.pos + 8, s.parser, ms);
      }
      ScanOther(container, processing, data, s, ID_LIST, body);
    } else {
      TallyNothing(processing, s.parser);
    }
  }

  /** The objects in the order in which a file holds them. */
  function Partition(ms: seq<Metadata>): seq<Metadata> {
    Select(Top, ms) + Select(Info, ms) + Select(Adtl, ms)
  }

  lemma PrintAt(data: seq<byte>, pos: nat, ms: seq<Metadata>)
    requires At(data, pos, Print(ms))
    ensures At(data, pos, Pieces(Top, ms))
    ensures At(data, pos + |Pieces(Top, ms)|, ListChunk(Info, ms))
    ensures At(data, pos + |Pieces(Top, ms)| + |ListChunk(Info, ms)|, ListChunk(Adtl, ms))
  {
    hide Pieces, ListChunk;
    AtSplit3(data, pos, Pieces(Top, ms), ListChunk(Info, ms), ListChunk(Adtl, ms));
  }

  /** The first walk over everything printed. */
  lemma ScanPrint(container: Container, processing: bool, data: seq<byte>, s: Scan, ms: seq<Metadata>)
    requires container != W64 && AllPrintable(ms) && s.parser.stage == CountStage && s.drift == 0
    requires s.pos <= |data| && At(data, s.pos, Print(ms)) && |Print(ms)| <= U32_MAX
    ensures ScanChunks(container, processing, data, s)
         == ScanChunks(container, processing, data,
              s.(pos := s.pos + |Print(ms)|, parser := Tally(processing, s.parser, Partition(ms))))
  {
    hide ScanChunks, AllPrintable, ListChunk, Pieces, Select, Tally;
    PrintAt(data, s.pos, ms);
    var a, b, c := Select(Top, ms), Select(Info, ms), Select(Adtl, ms);
    ScanTop(container, processing, data, s, ms);
    TallyStage(processing, s.parser, a);
    var s1 := s.(pos := s.pos + |Pieces(Top, ms)|, parser := Tally(processing, s.parser, a));
    ScanList(Info, container, processing, data, s1, ms);
    TallyTwice(processing, s.parser, a, b);
    TallyStage(processing, s.parser, a + b);
    var s2 := s1.(pos := s1.pos + |ListChunk(Info, ms)|, parser := Tally(processing, s.parser, a + b));
    ScanList(Adtl, container, processing, data, s2, ms);
    TallyTwice(processing, s.parser, a + b, c);
  }

  // ---------- the second walk ----------

  /** The second walk passes over a chunk that its processing reads no further than its end. */
  lemma ReadOther(container: Container, data: seq<byte>, pos: nat, p: Parser, id: FourCC, body: seq<byte>)
    requires container != W64 && At(data, pos, Chunk(id, body)) && |body| <= U32_MAX && id != ID_BEXT
    requires var r := ProcessChunk(data, pos + 8, p, id, |body|);
      r.pos == pos + 8 + r.bytesRead && r.bytesRead <= |body|
    ensures ReadMetadata(container, data, pos, p)
         == ReadMetadata(container, data, pos + |Chunk(id, body)|, ProcessChunk(data, pos + 8, p, id, |body|).p)
  {
    hide ReadChunkHeader, Chunk, ProcessChunk, ReadMetadata, ToU64;
    HeaderOfChunk(container, data, pos, id, body);
    ReadOn(container, data, pos, p);
    SmallDistance(|body| + |body| % 2, ProcessChunk(data, pos + 8, p, id, |body|).bytesRead);
  }

  lemma SmallDistance(total: nat, bytesRead: nat)
    requires bytesRead <= total <= U32_MAX + 1
    ensures ToU64(ToU64(total) - bytesRead) == total - bytesRead
  {
  }

  lemma ReadOneTop(container: Container, data: seq<byte>, pos: nat, p: Parser, m: Metadata) returns (q: Parser)
    requires container != W64 && Belongs(Top, m) && Printable(m) && p.stage == ReadStage
    requires At(data, pos, Piece(Top, m))
    ensures ReadMetadata(container, data, pos, p) == ReadMetadata(container, data, pos + |Piece(Top, m)|, q)
    ensures Reading(p, q, [m], Extra(m))
  {
    hide ReadMetadata, Printable, Belongs, Body, BodySize, ChunkId, Extra, Skipped, Chunk, ProcessChunk, Reading;
    PrintableTopFacts(m);
    NotBext(m);
    HeaderOfChunk(container, data, pos, ChunkId(m), Body(m));
    ReadTopLevel(data, pos + 8, p, m);
    ReadOther(container, data, pos, p, ChunkId(m), Body(m));
    q := ProcessChunk(data, pos + 8, p, ChunkId(m), BodySize(m)).p;
  }

  lemma {:induction false} ReadTop(container: Container, data: seq<byte>, pos: nat, p: Parser, ms: seq<Metadata>)
    returns (q: Parser)
    requires container != W64 && AllPrintable(ms) && p.stage == ReadStage
    requires At(data, pos, Pieces(Top, ms))
    ensures ReadMetadata(container, data, pos, p) == ReadMetadata(container, data, pos + |Pieces(Top, ms)|, q)
    ensures Reading(p, q, Select(Top, ms), ExtraSum(Select(Top, ms)))
    decreases |ms|
  {
    hide ReadMetadata, Printable, Belongs, Extra, Piece, Select, ExtraSum, Reading;
    if ms == [] {
      q := p;
      ReadingNothing(p);
      SelectNothing(Top);
    } else {
      var m := ms[0];
      SelectStep(Top, ms);
      AtSplit(data, pos, Piece(Top, m), Pieces(Top, ms[1..]));
      if Belongs(Top, m) {
        var q1 := ReadOneTop(container, data, pos, p, m);
        ReadingStage(p, q1, [m], Extra(m));
        q := ReadTop(container, data, pos + |Piece(Top, m)|, q1, ms[1..]);
        ReadingTrans(p, q1, q, [m], Select(Top, ms[1..]), Extra(m), ExtraSum(Select(Top, ms[1..])));
      } else {
        PieceWhole(Top, m);
        q := ReadTop(container, data, pos, p, ms[1..]);
      }
    }
  }

  lemma ReadWholeList(part: Part, container: Container, data: seq<byte>, pos: nat, p: Parser, ms: seq<Metadata>)
    returns (q: Parser)
    requires part != Top && container != W64 && AllPrintable(ms) && p.stage == ReadStage
    requires At(data, pos, ListChunk(part, ms)) && |ListChunk(part, ms)| <= U32_MAX
    ensures ReadMetadata(container, data, pos, p) == ReadMetadata(container, data, pos + |ListChunk(part, ms)|, q)
    ensures Reading(p, q, Select(part, ms), ExtraSum(Select(part, ms)))
  {
    hide ReadMetadata, AllPrintable, Chunk, ListChunk, Pieces, Select, ExtraSum, ProcessChunk, Has, LE32, Reading;
    ListShape(part, ms);
    if Has(part, ms) {
      var body := LE32(ListTag(part)) + Pieces(part, ms);
      HeaderOfChunk(container, data, pos, ID_LIST, body);
      ReadList(part, data, pos + 8, p, ms);
      ReadOther(container, data, pos, p, ID_LIST, body);
      q := ProcessChunk(data, pos + 8, p, ID_LIST, |body|).p;
    } else {
      SelectNothing(part);
      ReadingNothing(p);
      q := p;
    }
  }

  /** The second walk over everything printed rebuilds the partition. */
  lemma ReadPrint(container: Container, data: seq<byte>, pos: nat, p: Parser, ms: seq<Metadata>) returns (q: Parser)
    requires container != W64 && AllPrintable(ms) && p.stage == ReadStage
    requires At(data, pos, Print(ms)) && |Print(ms)| <= U32_MAX
    ensures ReadMetadata(container, data, pos, p) == ReadMetadata(container, data, pos + |Print(ms)|, q)
    ensures Reading(p, q, Partition(ms), ExtraSum(Partition(ms)))
  {
    hide ReadMetadata, AllPrintable, ListChunk, Pieces, Select, ExtraSum, Reading;
    PrintAt(data, pos, ms);
    var a, b, c := Select(Top, ms), Select(Info, ms), Select(Adtl, ms);
    var q1 := ReadTop(container, data, pos, p, ms);
    ReadingStage(p, q1, a, ExtraSum(a));
    var pos1 := pos + |Pieces(Top, ms)|;
    var q2 := ReadWholeList(Info, container, data, pos1, q1, ms);
    ReadingTrans(p, q1, q2, a, b, ExtraSum(a), ExtraSum(b));
    ReadingStage(p, q2, a + b, ExtraSum(a) + ExtraSum(b));
    q := ReadWholeList(Adtl, container, data, pos1 + |ListChunk(Info, ms)|, q2, ms);
    ReadingTrans(p, q2, q, a + b, c, ExtraSum(a) + ExtraSum(b), ExtraSum(c));
    ExtraSumConcat(a, b);
    ExtraSumConcat(a + b, c);
  }

  /** The second walk passes over the chunks that are not metadata, or fails when one reaches past
      the end of the data. */
  lemma ReadIgnored(container: Container, data: seq<byte>, pos: nat, p: Parser, id: FourCC, size: u32)
    requires container != W64 && (id == ID_FMT || id == ID_DATA || id == ID_FACT)
    requires pos + 8 <= |data| && U32At(data, pos) == id && U32At(data, pos + 4) == size
    ensures var end := pos + 8 + size + size % 2;
      ReadMetadata(container, data, pos, p)
      == if end > |data| then Failed else ReadMetadata(container, data, end, p)
  {
    hide U32At, ProcessChunk, ReadChunkHeader, ReadMetadata;
    IgnoredChunk(data, pos + 8, p, id, size);
    HeaderWords(container, data, pos);
    ReadOn(container, data, pos, p);
  }

  lemma HeaderWords(container: Container, data: seq<byte>, pos: nat)
    requires container != W64 && pos + 8 <= |data|
    ensures var size := U32At(data, pos + 4);
      ReadChunkHeader(container, data, pos) == Header(FourCCId(U32At(data, pos)), size, size % 2, pos + 8)
  {
    hide U32At;
  }

  lemma IgnoredChunk(data: seq<byte>, pos: nat, p: Parser, id: FourCC, size: u32)
    requires (id == ID_FMT || id == ID_DATA || id == ID_FACT) && pos <= |data|
    ensures ProcessChunk(data, pos, p, id, size) == Step(pos, p, 0)
  {
  }
}
