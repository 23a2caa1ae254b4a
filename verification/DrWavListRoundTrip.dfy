/** The parser undoes the printer for whole LIST chunks and for the run of top-level chunks. */
module DrWavListRoundTrip {
  import opened Bytes
  import opened DrWavMetadata
  import opened DrWavStreams
  import opened DrWavParserSpec
  import opened DrWavLeafRoundTrip

  predicate AllPrintable(ms: seq<Metadata>) {
    forall i :: 0 <= i < |ms| ==> Printable(ms[i])
  }

  /** The objects of one part, in order. */
  function Select(part: Part, ms: seq<Metadata>): seq<Metadata> {
    if ms == [] then []
    else (if Belongs(part, ms[0]) then [ms[0]] else []) + Select(part, ms[1..])
  }

  function ExtraSum(ms: seq<Metadata>): nat {
    if ms == [] then 0 else Extra(ms[0]) + ExtraSum(ms[1..])
  }

  lemma {:induction false} ExtraSumConcat(a: seq<Metadata>, b: seq<Metadata>)
    ensures ExtraSum(a + b) == ExtraSum(a) + ExtraSum(b)
    decreases |a|
  {
    if a == [] {
      assert a + b == b;
    } else {
      assert (a + b)[1..] == a[1..] + b;
      ExtraSumConcat(a[1..], b);
    }
  }

  lemma SelectStep(part: Part, ms: seq<Metadata>)
    requires ms != []
    ensures var rest := Select(part, ms[1..]);
      if Belongs(part, ms[0]) then
        Select(part, ms) == [ms[0]] + rest && ExtraSum(Select(part, ms)) == Extra(ms[0]) + ExtraSum(rest)
      else Select(part, ms) == rest
  {
    hide Belongs, Extra;
    var rest := Select(part, ms[1..]);
    assert [] + rest == rest;
    assert ([ms[0]] + rest)[1..] == rest;
  }

  function ListLocation(part: Part): Location {
    if part == Info then InsideInfoList else InsideAdtlList
  }

  lemma PrintableFacts(part: Part, m: Metadata)
    requires part != Top && Belongs(part, m) && Printable(m)
    ensures !Skipped(m) && BodySize(m) <= INT_MAX
    ensures ChunkId(m) != ID_ADTL && ChunkId(m) != ID_INFO
  {
    match m {
      case LabelOrNote(k, _, _) =>
      case LabelledCueRegion(_, _, _, _, _, _, _, _) =>
      case InfoText(k, _) => assert InfoId(k) != ID_ADTL && InfoId(k) != ID_INFO;
      case Unknown(_, _, _) =>
    }
  }

  lemma PrintableTopFacts(m: Metadata)
    requires Belongs(Top, m) && Printable(m)
    ensures !Skipped(m) && BodySize(m) <= U32_MAX
    ensures ChunkId(m) != ID_FMT && ChunkId(m) != ID_DATA && ChunkId(m) != ID_FACT
  {
  }

  /** One turn of the list walk over a subchunk that stands in the data. */
  lemma ListTurn(data: seq<byte>, pos: nat, p: Parser, loc: Location, bytesRead: nat, size: nat,
                 id: FourCC, body: seq<byte>)
    requires At(data, pos, Chunk(id, body)) && bytesRead < size && |body| <= INT_MAX
    requires id != ID_ADTL && id != ID_INFO
    requires var sub := ProcessSubchunk(data, pos + 8, p, id, |body|, loc);
      sub.pos == pos + 8 + sub.bytesRead
    ensures ProcessList(data, pos, p, loc, bytesRead, size)
         == ProcessList(data, pos + |Chunk(id, body)|, ProcessSubchunk(data, pos + 8, p, id, |body|, loc).p,
                        loc, bytesRead + |Chunk(id, body)|, size)
  {
    hide ListItem, Chunk, ProcessSubchunk;
    ListItemWhole(data, pos, p, loc, bytesRead, id, body);
  }

  lemma ListItemWhole(data: seq<byte>, pos: nat, p: Parser, loc: Location, bytesRead: nat, id: FourCC,
                      body: seq<byte>)
    requires At(data, pos, Chunk(id, body)) && |body| <= INT_MAX
    requires id != ID_ADTL && id != ID_INFO
    requires var sub := ProcessSubchunk(data, pos + 8, p, id, |body|, loc);
      sub.pos == pos + 8 + sub.bytesRead
    ensures ListItem(data, pos, p, loc, bytesRead)
         == Item(true, pos + |Chunk(id, body)|, ProcessSubchunk(data, pos + 8, p, id, |body|, loc).p, loc,
                 bytesRead + |Chunk(id, body)|)
  {
    hide U32At, Chunk, SubchunkTurn;
    ChunkAt(data, pos, id, body);
    ReadWord(data, pos);
    ReadWord(data, pos + 4);
    SubchunkTurnWhole(data, pos + 8, p, loc, id, |body|);
  }

  lemma SelectNothing(part: Part)
    ensures Select(part, []) == [] && ExtraSum([]) == 0
  {
  }

  lemma PieceWhole(part: Part, m: Metadata)
    ensures Belongs(part, m) && !Skipped(m) ==> Piece(part, m) == Chunk(ChunkId(m), Body(m))
    ensures !Belongs(part, m) ==> Piece(part, m) == []
  {
  }

  lemma SubchunkTurnWhole(data: seq<byte>, pos: nat, p: Parser, loc: Location, id: FourCC, size: u32)
    requires pos + size + size % 2 <= |data| && size <= INT_MAX
    requires var sub := ProcessSubchunk(data, pos, p, id, size, loc);
      sub.pos == pos + sub.bytesRead
    ensures SubchunkTurn(data, pos, p, id, size, loc)
         == Turn(true, pos + size + size % 2, ProcessSubchunk(data, pos, p, id, size, loc).p, size + size % 2)
  {
    hide ProcessSubchunk;
  }

  lemma ListEnd(data: seq<byte>, pos: nat, p: Parser, loc: Location, size: nat)
    requires pos <= |data|
    ensures ProcessList(data, pos, p, loc, size, size) == Step(pos, p, size)
  {
  }

  lemma {:induction false} CountListBack(part: Part, data: seq<byte>, pos: nat, p: Parser, bytesRead: nat,
                                         size: nat, ms: seq<Metadata>)
    requires part != Top && AllPrintable(ms) && p.stage == CountStage
    requires At(data, pos, Pieces(part, ms)) && bytesRead + |Pieces(part, ms)| == size
    ensures ProcessList(data, pos, p, ListLocation(part), bytesRead, size).p
         == Counting(p, |Select(part, ms)|, ExtraSum(Select(part, ms)))
    decreases |ms|
  {
    hide Printable, Belongs, Body, BodySize, ChunkId, Extra, Skipped, Chunk, ProcessSubchunk, ProcessList, Piece,
         Select, ExtraSum;
    if ms == [] {
      ListEnd(data, pos, p, ListLocation(part), size);
      SelectNothing(part);
    } else {
      SelectStep(part, ms);
      PieceWhole(part, ms[0]);
      var m := ms[0];
      AtSplit(data, pos, Piece(part, m), Pieces(part, ms[1..]));
      if Belongs(part, m) {
        PrintableFacts(part, m);
        ChunkAt(data, pos, ChunkId(m), Body(m));
        CountSubchunkIn(part, data, pos + 8, p, m);
        ListTurn(data, pos, p, ListLocation(part), bytesRead, size, ChunkId(m), Body(m));
        var q := Counting(p, 1, Extra(m));
        CountListBack(part, data, pos + |Piece(part, m)|, q, bytesRead + |Piece(part, m)|, size, ms[1..]);
      } else {
        CountListBack(part, data, pos, p, bytesRead, size, ms[1..]);
      }
    }
  }

  lemma CountSubchunkIn(part: Part, data: seq<byte>, pos: nat, p: Parser, m: Metadata)
    requires part != Top && Belongs(part, m) && Printable(m) && p.stage == CountStage && pos <= |data|
    ensures ProcessSubchunk(data, pos, p, ChunkId(m), BodySize(m), ListLocation(part))
         == Step(pos, Counting(p, 1, Extra(m)), 0)
  {
    hide ProcessSubchunk, Printable, Belongs, ChunkId, BodySize, Extra;
    CountSubchunk(data, pos, p, m, ListLocation(part));
  }

  lemma {:induction false} ReadListBack(part: Part, data: seq<byte>, pos: nat, p: Parser, bytesRead: nat,
                                        size: nat, ms: seq<Metadata>)
    requires part != Top && AllPrintable(ms) && p.stage == ReadStage
    requires At(data, pos, Pieces(part, ms)) && bytesRead + |Pieces(part, ms)| == size
    ensures var r := ProcessList(data, pos, p, ListLocation(part), bytesRead, size);
      r.pos == pos + |Pieces(part, ms)| && r.bytesRead == size
      && Reading(p, r.p, Select(part, ms), ExtraSum(Select(part, ms)))
    decreases |ms|
  {
    hide Printable, Belongs, Body, BodySize, ChunkId, Extra, Skipped, Chunk, ProcessSubchunk, ProcessList, Reading,
         Piece, Select, ExtraSum;
    if ms == [] {
      ListEnd(data, pos, p, ListLocation(part), size);
      SelectNothing(part);
      ReadingNothing(p);
    } else {
      SelectStep(part, ms);
      PieceWhole(part, ms[0]);
      var m := ms[0];
      AtSplit(data, pos, Piece(part, m), Pieces(part, ms[1..]));
      var rest := Select(part, ms[1..]);
      if Belongs(part, m) {
        PrintableFacts(part, m);
        ChunkAt(data, pos, ChunkId(m), Body(m));
        ReadSubchunk(data, pos + 8, p, m, ListLocation(part));
        ListTurn(data, pos, p, ListLocation(part), bytesRead, size, ChunkId(m), Body(m));
        var q := ProcessSubchunk(data, pos + 8, p, ChunkId(m), BodySize(m), ListLocation(part)).p;
        assert q.stage == ReadStage by { ReadingStage(p, q, [m], Extra(m)); }
        ReadListBack(part, data, pos + |Piece(part, m)|, q, bytesRead + |Piece(part, m)|, size, ms[1..]);
        var r := ProcessList(data, pos, p, ListLocation(part), bytesRead, size);
        ReadingTrans(p, q, r.p, [m], rest, Extra(m), ExtraSum(rest));
      } else {
        ReadListBack(part, data, pos, p, bytesRead, size, ms[1..]);
      }
    }
  }

  lemma ReadingStage(p: Parser, q: Parser, ms: seq<Metadata>, extra: nat)
    requires Reading(p, q, ms, extra)
    ensures q.stage == p.stage
  {
  }

  // ---------- a whole LIST chunk ----------

  lemma NothingSkipped(part: Part, ms: seq<Metadata>)
    requires part != Top && AllPrintable(ms)
    ensures NoneSkipped(part, ms)
  {
    forall i | 0 <= i < |ms| && Belongs(part, ms[i]) ensures !Skipped(ms[i]) {
      PrintableFacts(part, ms[i]);
    }
  }

  /** The list walk starts by reading the tag. */
  lemma ListStart(part: Part, data: seq<byte>, pos: nat, p: Parser, size: nat)
    requires part != Top && size >= 4 && At(data, pos, LE32(ListTag(part)))
    ensures ProcessList(data, pos, p, InvalidLocation, 0, size)
         == ProcessList(data, pos + 4, p, ListLocation(part), 4, size)
  {
    hide U32At, LE32;
    LE32RoundTrip(data, pos, ListTag(part));
    ReadWord(data, pos);
  }

  lemma CountList(part: Part, data: seq<byte>, pos: nat, p: Parser, ms: seq<Metadata>)
    requires part != Top && AllPrintable(ms) && p.stage == CountStage
    requires At(data, pos, LE32(ListTag(part)) + Pieces(part, ms))
    ensures ProcessChunk(data, pos, p, ID_LIST, 4 + |Pieces(part, ms)|).p
         == Counting(p, |Select(part, ms)|, ExtraSum(Select(part, ms)))
  {
    hide ProcessList, Pieces, Select, LE32;
    AtSplit(data, pos, LE32(ListTag(part)), Pieces(part, ms));
    ListStart(part, data, pos, p, 4 + |Pieces(part, ms)|);
    CountListBack(part, data, pos + 4, p, 4, 4 + |Pieces(part, ms)|, ms);
  }

  lemma ReadList(part: Part, data: seq<byte>, pos: nat, p: Parser, ms: seq<Metadata>)
    requires part != Top && AllPrintable(ms) && p.stage == ReadStage
    requires At(data, pos, LE32(ListTag(part)) + Pieces(part, ms))
    ensures var size := 4 + |Pieces(part, ms)|;
      var r := ProcessChunk(data, pos, p, ID_LIST, size);
      r.pos == pos + size && r.bytesRead == size
      && Reading(p, r.p, Select(part, ms), ExtraSum(Select(part, ms)))
  {
    hide ProcessList, Pieces, Select, LE32, Reading;
    AtSplit(data, pos, LE32(ListTag(part)), Pieces(part, ms));
    ListStart(part, data, pos, p, 4 + |Pieces(part, ms)|);
    ReadListBack(part, data, pos + 4, p, 4, 4 + |Pieces(part, ms)|, ms);
  }
}
