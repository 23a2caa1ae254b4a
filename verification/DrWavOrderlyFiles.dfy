/** What the writer leaves behind is orderly and whole, also when sampler data are too long to be read back;
    and what its chunks count for is known from the list it was given. */
module DrWavOrderlyFiles {
  import opened Bytes
  import opened DrWavMetadata
  import opened DrWavStreams
  import opened DrWavParserSpec
  import opened DrWavLeafRoundTrip
  import opened DrWavListRoundTrip
  import opened DrWavOpenSpec
  import opened DrWavWalks
  import opened DrWavFile
  import opened DrWavOpenRoundTrip
  import opened DrWavOrderly
  import opened DrWavUse
  import opened DrWavArena

  /** Sampler data of a loop or more, which the first walk takes for loops. */
  predicate LongSmpl(m: Metadata) {
    m.Smpl? && |m.samplerData| >= SMPL_LOOP_BYTES && BodySize(m) <= U32_MAX
  }

  predicate AllWritable(ms: seq<Metadata>) {
    forall i :: 0 <= i < |ms| ==> Printable(ms[i]) || LongSmpl(ms[i])
  }

  /** The objects that come back. */
  function Kept(ms: seq<Metadata>): seq<Metadata> {
    if ms == [] then [] else (if LongSmpl(ms[0]) then [] else [ms[0]]) + Kept(ms[1..])
  }

  predicate NoLongSmpl(ms: seq<Metadata>) {
    forall i :: 0 <= i < |ms| ==> !LongSmpl(ms[i])
  }

  /** Behind each long sampler object stands another top-level object that comes back, unless `later` objects
      stand in the lists. */
  predicate TopsFollowed(ms: seq<Metadata>, later: nat) {
    ms == []
    || (TopsFollowed(ms[1..], later) && (LongSmpl(ms[0]) ==> |Select(Top, Kept(ms[1..]))| + later > 0))
  }

  predicate Followed(ms: seq<Metadata>) {
    TopsFollowed(ms, |Select(Info, Kept(ms))| + |Select(Adtl, Kept(ms))|)
  }

  lemma {:induction false} KeptPrintable(ms: seq<Metadata>)
    requires AllWritable(ms)
    ensures AllPrintable(Kept(ms))
    decreases |ms|
  {
    hide Printable, LongSmpl;
    if ms != [] {
      assert forall i :: 0 <= i < |ms| - 1 ==> ms[1..][i] == ms[i + 1];
      KeptPrintable(ms[1..]);
    }
  }

  lemma {:induction false} KeptAll(ms: seq<Metadata>)
    requires NoLongSmpl(ms)
    ensures Kept(ms) == ms
    decreases |ms|
  {
    hide LongSmpl;
    if ms != [] {
      assert forall i :: 0 <= i < |ms| - 1 ==> ms[1..][i] == ms[i + 1];
      KeptAll(ms[1..]);
      assert [ms[0]] + ms[1..] == ms;
    }
  }

  lemma PrintableShort(ms: seq<Metadata>)
    requires AllPrintable(ms)
    ensures AllWritable(ms) && NoLongSmpl(ms)
  {
    hide BodySize;
    forall i | 0 <= i < |ms| ensures !LongSmpl(ms[i]) {
      assert Printable(ms[i]);
    }
  }

  lemma SelectCons(part: Part, m: Metadata, rest: seq<Metadata>)
    ensures Select(part, [m] + rest) == (if Belongs(part, m) then [m] else []) + Select(part, rest)
    ensures Pieces(part, [m] + rest) == Piece(part, m) + Pieces(part, rest)
    ensures DeclaredPieces(part, [m] + rest) == DeclaredPiece(part, m) + DeclaredPieces(part, rest)
  {
    hide Belongs, Piece, DeclaredPiece;
    assert ([m] + rest)[1..] == rest;
  }

  /** The lists are those of the objects that come back. */
  lemma {:induction false} KeptParts(part: Part, ms: seq<Metadata>)
    requires part != Top
    ensures Pieces(part, Kept(ms)) == Pieces(part, ms) && DeclaredPieces(part, Kept(ms)) == DeclaredPieces(part, ms)
    ensures Select(part, Kept(ms)) == Select(part, ms) && Has(part, Kept(ms)) == Has(part, ms)
    decreases |ms|
  {
    hide Belongs, Piece, DeclaredPiece, LongSmpl;
    if ms != [] {
      var m := ms[0];
      KeptParts(part, ms[1..]);
      assert ms == [m] + ms[1..];
      SelectCons(part, m, ms[1..]);
      HasCons(part, m, ms[1..]);
      if LongSmpl(m) {
        LongIsTop(part, m);
        assert Kept(ms) == Kept(ms[1..]);
      } else {
        assert Kept(ms) == [m] + Kept(ms[1..]);
        SelectCons(part, m, Kept(ms[1..]));
        HasCons(part, m, Kept(ms[1..]));
      }
    }
  }

  lemma HasCons(part: Part, m: Metadata, rest: seq<Metadata>)
    ensures Has(part, [m] + rest) <==> Belongs(part, m) || Has(part, rest)
  {
    hide Belongs;
    var ms := [m] + rest;
    if Belongs(part, m) {
      assert Belongs(part, ms[0]);
    }
    if i :| 0 <= i < |rest| && Belongs(part, rest[i]) {
      assert Belongs(part, ms[i + 1]);
    }
    if i :| 0 <= i < |ms| && Belongs(part, ms[i]) {
      assert i > 0 ==> ms[i] == rest[i - 1];
    }
  }

  lemma LongIsTop(part: Part, m: Metadata)
    requires LongSmpl(m) && part != Top
    ensures !Belongs(part, m) && Piece(part, m) == [] && DeclaredPiece(part, m) == 0
  {
  }

  lemma KeptLists(part: Part, ms: seq<Metadata>)
    requires part != Top
    ensures ListChunk(part, Kept(ms)) == ListChunk(part, ms)
  {
    hide Pieces, DeclaredPieces, Has, Kept;
    KeptParts(part, ms);
  }

  // ---------- one written chunk ----------

  function HeaderFor(pos: nat, id: FourCC, body: seq<byte>): (h: HeaderRead)
    requires |body| <= U32_MAX
    ensures h.Header?
  {
    Header(FourCCId(id), |body|, |body| % 2, pos + 8)
  }

  /** What holds from a written chunk on, in terms of what holds behind it. */
  lemma ChunkBefore(container: Container, data: seq<byte>, pos: nat, id: FourCC, body: seq<byte>)
    requires container != W64 && At(data, pos, Chunk(id, body)) && |body| <= U32_MAX
    ensures var h, end := HeaderFor(pos, id, body), pos + |Chunk(id, body)|;
      At(data, pos + 8, body) && pos + 8 + |body| <= end <= |data|
      && (Orderly(container, data, pos) <==> ChunkOrderly(container, data, h) && Orderly(container, data, end))
      && (Whole(container, data, pos) <==> ChunkWhole(data, h) && Whole(container, data, end))
      && FileUse(container, data, pos) == HeaderUse(data, h).Then(FileUse(container, data, end))
      && (SmplsCounted(container, data, pos) <==> !SmplStrays(data, h) && SmplsCounted(container, data, end))
      && (StraysFollowed(container, data, pos) <==>
            StraysFollowed(container, data, end)
            && (SmplStrays(data, h) ==> |body| > SMPL_BYTES && FileUse(container, data, end).counted > 0))
  {
    hide Chunk, ReadChunkHeader, ChunkOrderly, ChunkWhole, HeaderUse, SmplStrays, Use.Then;
    HeaderOfChunk(container, data, pos, id, body);
  }

  /** The chunks from `pos` on are orderly and whole, count for `n` objects, and have so far as their sampler
      chunks go this to say. */
  ghost predicate Good(container: Container, data: seq<byte>, pos: nat, n: nat, followed: bool, counted: bool) {
    pos <= |data| && Orderly(container, data, pos) && Whole(container, data, pos)
    && FileUse(container, data, pos).counted == n
    && (StraysFollowed(container, data, pos) <==> followed) && (SmplsCounted(container, data, pos) <==> counted)
  }

  /** A chunk in front that is no sampler chunk. */
  lemma GoodBefore(container: Container, data: seq<byte>, pos: nat, id: FourCC, body: seq<byte>, k: nat, n: nat,
                   followed: bool, counted: bool)
    requires container != W64 && At(data, pos, Chunk(id, body)) && |body| <= U32_MAX && id != ID_SMPL
    requires ChunkOrderly(container, data, HeaderFor(pos, id, body)) && ChunkWhole(data, HeaderFor(pos, id, body))
    requires HeaderUse(data, HeaderFor(pos, id, body)).counted == k
    requires Good(container, data, pos + |Chunk(id, body)|, n, followed, counted)
    ensures Good(container, data, pos, n + k, followed, counted)
  {
    hide Chunk, ChunkOrderly, ChunkWhole, HeaderUse, Orderly, Whole, FileUse, StraysFollowed, SmplsCounted;
    ChunkBefore(container, data, pos, id, body);
  }

  lemma SmplWordsAt(data: seq<byte>, pos: nat, m: Metadata)
    requires m.Smpl? && BodySize(m) <= U32_MAX && At(data, pos, Body(m))
    ensures U32At(data, pos + 28) == |m.loops| && U32At(data, pos + 32) == |m.samplerData|
  {
    hide Words, LoopsBytes, Body, U32At;
    SmplBodyAt(data, pos, m);
    WordAt(data, pos, SmplWords(m.header, |m.loops|, |m.samplerData|), 7);
    WordAt(data, pos, SmplWords(m.header, |m.loops|, |m.samplerData|), 8);
  }

  /** A sampler chunk counts, and is whole, exactly when its data are short; a long one strays and is no bare
      36 bytes. */
  lemma SmplHeader(container: Container, data: seq<byte>, pos: nat, m: Metadata)
    requires m.Smpl? && BodySize(m) <= U32_MAX && At(data, pos + 8, Body(m))
    ensures var h := HeaderFor(pos, ID_SMPL, Body(m));
      ChunkOrderly(container, data, h) && ChunkWhole(data, h) && (SmplStrays(data, h) <==> LongSmpl(m))
      && HeaderUse(data, h).counted == (if LongSmpl(m) then 0 else 1) && (LongSmpl(m) ==> |Body(m)| > SMPL_BYTES)
  {
    hide Body, U32At, ListOrderly, ListWhole, ListUse;
    SmplWordsAt(data, pos + 8, m);
    var loops, n, size := |m.loops|, |m.samplerData|, BodySize(m);
    assert size - SMPL_BYTES == SMPL_LOOP_BYTES * loops + n;
    assert LoopRoom(size) == loops <==> n < SMPL_LOOP_BYTES;
    LongUse(data, pos + 8, m);
  }

  lemma LongUse(data: seq<byte>, pos: nat, m: Metadata)
    requires m.Smpl? && BodySize(m) <= U32_MAX && At(data, pos, Body(m))
    ensures ChunkUse(data, pos, ID_SMPL, BodySize(m)).counted == if SmplCounts(data, pos, BodySize(m)) then 1 else 0
  {
    hide Body, U32At;
  }

  lemma SmplBefore(container: Container, data: seq<byte>, pos: nat, m: Metadata, n: nat, followed: bool, counted: bool)
    requires container != W64 && m.Smpl? && BodySize(m) <= U32_MAX && At(data, pos, Piece(Top, m))
    requires Good(container, data, pos + |Piece(Top, m)|, n, followed, counted)
    ensures if LongSmpl(m) then Good(container, data, pos, n, followed && n > 0, false)
            else Good(container, data, pos, n + 1, followed, counted)
  {
    hide Chunk, Body, ChunkOrderly, ChunkWhole, HeaderUse, Orderly, Whole, FileUse, StraysFollowed, SmplsCounted,
         SmplStrays, LongSmpl;
    SmplPiece(m);
    ChunkBefore(container, data, pos, ID_SMPL, Body(m));
    SmplHeader(container, data, pos, m);
  }

  lemma SmplPiece(m: Metadata)
    requires m.Smpl?
    ensures Piece(Top, m) == Chunk(ID_SMPL, Body(m))
  {
  }

  /** Any other printable top-level object. */
  lemma OtherHeader(container: Container, data: seq<byte>, pos: nat, m: Metadata)
    requires Belongs(Top, m) && Printable(m) && !m.Smpl? && At(data, pos + 8, Body(m)) && |Body(m)| <= U32_MAX
    ensures var h := HeaderFor(pos, ChunkId(m), Body(m));
      ChunkId(m) != ID_SMPL && ChunkOrderly(container, data, h) && ChunkWhole(data, h)
      && HeaderUse(data, h).counted == 1
  {
    hide ListOrderly, ListWhole, ListUse, LE32, U32At, PointsBytes, Halves, Words;
    if m.Cue? {
      CueBodyAt(data, pos + 8, m);
      LE32RoundTrip(data, pos + 8, |m.points|);
    }
  }

  lemma TopBefore(container: Container, data: seq<byte>, pos: nat, m: Metadata, n: nat, followed: bool, counted: bool)
    requires container != W64 && Belongs(Top, m) && (Printable(m) || LongSmpl(m)) && At(data, pos, Piece(Top, m))
    requires Good(container, data, pos + |Piece(Top, m)|, n, followed, counted)
    ensures if LongSmpl(m) then Good(container, data, pos, n, followed && n > 0, false)
            else Good(container, data, pos, n + 1, followed, counted)
  {
    hide Chunk, Body, Good, Printable, LongSmpl, ChunkOrderly, ChunkWhole, HeaderUse, Skipped, Belongs, ChunkId;
    if m.Smpl? {
      SmplFits(m);
      SmplBefore(container, data, pos, m, n, followed, counted);
    } else {
      OnlySmpl(m);
      PrintableTopFacts(m);
      PieceWhole(Top, m);
      HeaderOfChunk(container, data, pos, ChunkId(m), Body(m));
      OtherHeader(container, data, pos, m);
      GoodBefore(container, data, pos, ChunkId(m), Body(m), 1, n, followed, counted);
    }
  }

  lemma SmplFits(m: Metadata)
    requires m.Smpl? && (Printable(m) || LongSmpl(m))
    ensures BodySize(m) <= U32_MAX
  {
  }

  lemma OnlySmpl(m: Metadata)
    requires !m.Smpl?
    ensures !LongSmpl(m)
  {
  }

  // ---------- all written chunks ----------

  lemma {:induction false} TopsBefore(container: Container, data: seq<byte>, pos: nat, ms: seq<Metadata>, n: nat)
    requires container != W64 && AllWritable(ms) && At(data, pos, Pieces(Top, ms))
    requires Good(container, data, pos + |Pieces(Top, ms)|, n, true, true)
    ensures Good(container, data, pos, n + |Select(Top, Kept(ms))|, TopsFollowed(ms, n), NoLongSmpl(ms))
    decreases |ms|
  {
    hide Good, Printable, Belongs, Piece, LongSmpl, Select, Kept, TopsFollowed, NoLongSmpl, AllWritable;
    if ms == [] {
      NothingKept(n);
    } else {
      var m, rest := ms[0], ms[1..];
      PieceWhole(Top, m);
      AtSplit(data, pos, Piece(Top, m), Pieces(Top, rest));
      FirstKept(ms, n);
      TopsBefore(container, data, pos + |Piece(Top, m)|, rest, n);
      if Belongs(Top, m) {
        TopBefore(container, data, pos, m, n + |Select(Top, Kept(rest))|, TopsFollowed(rest, n), NoLongSmpl(rest));
      }
    }
  }

  lemma NothingKept(n: nat)
    ensures Select(Top, Kept([])) == [] && TopsFollowed([], n) && NoLongSmpl([])
  {
  }

  /** What the first object does to all this. */
  lemma FirstKept(ms: seq<Metadata>, n: nat)
    requires ms != [] && AllWritable(ms)
    ensures var m, rest := ms[0], ms[1..];
      AllWritable(rest) && (Printable(m) || LongSmpl(m)) && (LongSmpl(m) ==> Belongs(Top, m))
      && |Select(Top, Kept(ms))| == |Select(Top, Kept(rest))| + (if Belongs(Top, m) && !LongSmpl(m) then 1 else 0)
      && TopsFollowed(ms, n) == (TopsFollowed(rest, n) && (LongSmpl(m) ==> |Select(Top, Kept(rest))| + n > 0))
      && NoLongSmpl(ms) == (!LongSmpl(m) && NoLongSmpl(rest))
  {
    hide AllWritable, NoLongSmpl, Kept, Select, LongSmpl, Belongs;
    AllStep(ms);
    KeptStep(ms);
    LongBelongs(ms[0]);
    SelectCons(Top, ms[0], Kept(ms[1..]));
  }

  lemma KeptStep(ms: seq<Metadata>)
    requires ms != []
    ensures Kept(ms) == if LongSmpl(ms[0]) then Kept(ms[1..]) else [ms[0]] + Kept(ms[1..])
  {
    hide LongSmpl;
  }

  lemma AllStep(ms: seq<Metadata>)
    requires ms != [] && AllWritable(ms)
    ensures AllWritable(ms[1..]) && (Printable(ms[0]) || LongSmpl(ms[0]))
    ensures NoLongSmpl(ms) == (!LongSmpl(ms[0]) && NoLongSmpl(ms[1..]))
  {
    hide Printable, LongSmpl;
    var rest := ms[1..];
    assert forall i :: 0 <= i < |rest| ==> rest[i] == ms[i + 1];
    if NoLongSmpl(rest) && !LongSmpl(ms[0]) {
      forall i | 0 <= i < |ms| ensures !LongSmpl(ms[i]) {
        assert i > 0 ==> ms[i] == rest[i - 1];
      }
    }
  }

  lemma LongBelongs(m: Metadata)
    ensures LongSmpl(m) ==> Belongs(Top, m)
  {
  }

  lemma SubchunkBefore(data: seq<byte>, pos: nat, listType: Location, bytesRead: nat, size: nat, id: FourCC,
                       body: seq<byte>)
    requires At(data, pos, Chunk(id, body)) && |body| <= INT_MAX && id != ID_ADTL && id != ID_INFO && bytesRead < size
    requires SubchunkCounts(id, |body|, listType)
    requires var k := |Chunk(id, body)|;
      ListOrderly(data, pos + k, bytesRead + k, size) && ListWhole(data, pos + k, listType, bytesRead + k, size)
    ensures ListOrderly(data, pos, bytesRead, size) && ListWhole(data, pos, listType, bytesRead, size)
    ensures var k := |Chunk(id, body)|;
      ListUse(data, pos, listType, bytesRead, size).counted
      == 1 + ListUse(data, pos + k, listType, bytesRead + k, size).counted
  {
    hide U32At, Chunk, SubchunkCounts, ListOrderly, ListWhole, ListUse;
    SubchunkWords(data, pos, id, body);
    OrderlyBefore(data, pos, bytesRead, size);
    WholeBefore(data, pos, listType, bytesRead, size);
  }

  lemma SubchunkWords(data: seq<byte>, pos: nat, id: FourCC, body: seq<byte>)
    requires At(data, pos, Chunk(id, body)) && |body| <= INT_MAX
    ensures pos + |Chunk(id, body)| <= |data| && |Chunk(id, body)| == 8 + |body| + |body| % 2
    ensures U32At(data, pos) == id && U32At(data, pos + 4) == |body|
  {
    hide U32At, Chunk;
    ChunkAt(data, pos, id, body);
  }

  lemma OrderlyBefore(data: seq<byte>, pos: nat, bytesRead: nat, size: nat)
    requires pos + 8 <= |data| && bytesRead < size && U32At(data, pos) != ID_ADTL && U32At(data, pos) != ID_INFO
    requires var sub := U32At(data, pos + 4) as int;
      sub <= INT_MAX && ListOrderly(data, pos + 8 + sub + sub % 2, bytesRead + 8 + sub + sub % 2, size)
    ensures ListOrderly(data, pos, bytesRead, size)
  {
    hide U32At;
  }

  lemma WholeBefore(data: seq<byte>, pos: nat, listType: Location, bytesRead: nat, size: nat)
    requires pos + 8 <= |data| && bytesRead < size && U32At(data, pos) != ID_ADTL && U32At(data, pos) != ID_INFO
    requires var sub := U32At(data, pos + 4) as int;
      var k := 8 + sub + sub % 2;
      SubchunkCounts(U32At(data, pos), sub, listType) && pos + k <= |data|
      && ListWhole(data, pos + k, listType, bytesRead + k, size)
    ensures ListWhole(data, pos, listType, bytesRead, size)
    ensures var sub := U32At(data, pos + 4) as int;
      var k := 8 + sub + sub % 2;
      ListUse(data, pos, listType, bytesRead, size).counted
      == 1 + ListUse(data, pos + k, listType, bytesRead + k, size).counted
  {
    hide U32At, SubchunkCounts;
  }

  lemma Countable(part: Part, m: Metadata)
    requires part != Top && Belongs(part, m) && Printable(m)
    ensures SubchunkCounts(ChunkId(m), BodySize(m), ListLocation(part))
  {
    match m {
      case LabelOrNote(k, _, _) =>
      case LabelledCueRegion(_, _, _, _, _, _, _, _) =>
      case InfoText(k, _) => assert InfoKindOf(InfoId(k)) == (true, k);
      case Unknown(_, _, _) =>
    }
  }

  lemma {:induction false} SubchunksGood(part: Part, data: seq<byte>, pos: nat, bytesRead: nat, size: nat,
                                         ms: seq<Metadata>)
    requires part != Top && AllPrintable(ms)
    requires At(data, pos, Pieces(part, ms)) && bytesRead + |Pieces(part, ms)| == size
    ensures ListOrderly(data, pos, bytesRead, size) && ListWhole(data, pos, ListLocation(part), bytesRead, size)
    ensures ListUse(data, pos, ListLocation(part), bytesRead, size).counted == |Select(part, ms)|
    decreases |ms|
  {
    hide ListOrderly, ListWhole, ListUse, Printable, Belongs, Piece, ChunkId, Body, BodySize, Skipped, Chunk, Select,
         SubchunkCounts, ListLocation;
    if ms == [] {
      ListDone(data, pos, ListLocation(part), size);
      SelectNothing(part);
    } else {
      var m, rest := ms[0], ms[1..];
      PieceWhole(part, m);
      SelectStep(part, ms);
      AtSplit(data, pos, Piece(part, m), Pieces(part, rest));
      SubchunksGood(part, data, pos + |Piece(part, m)|, bytesRead + |Piece(part, m)|, size, rest);
      if Belongs(part, m) {
        PrintableFacts(part, m);
        Countable(part, m);
        SubchunkBefore(data, pos, ListLocation(part), bytesRead, size, ChunkId(m), Body(m));
      }
    }
  }

  lemma ListDone(data: seq<byte>, pos: nat, listType: Location, size: nat)
    ensures ListOrderly(data, pos, size, size) && ListWhole(data, pos, listType, size, size)
    ensures ListUse(data, pos, listType, size, size) == NO_USE
  {
  }

  lemma TagBefore(part: Part, data: seq<byte>, pos: nat, size: nat)
    requires part != Top && size >= 4 && At(data, pos, LE32(ListTag(part)))
    requires ListOrderly(data, pos + 4, 4, size) && ListWhole(data, pos + 4, ListLocation(part), 4, size)
    ensures ListOrderly(data, pos, 0, size) && ListWhole(data, pos, InvalidLocation, 0, size)
    ensures ListUse(data, pos, InvalidLocation, 0, size) == ListUse(data, pos + 4, ListLocation(part), 4, size)
  {
    hide U32At, LE32;
    LE32RoundTrip(data, pos, ListTag(part));
  }

  lemma ListHeader(container: Container, data: seq<byte>, pos: nat, body: seq<byte>)
    requires |body| <= U32_MAX && ListOrderly(data, pos + 8, 0, |body|)
    requires ListWhole(data, pos + 8, InvalidLocation, 0, |body|)
    ensures var h := HeaderFor(pos, ID_LIST, body);
      ChunkOrderly(container, data, h) && ChunkWhole(data, h)
      && HeaderUse(data, h) == ListUse(data, pos + 8, InvalidLocation, 0, |body|)
  {
    hide ListOrderly, ListWhole, ListUse;
  }

  lemma ListBefore(part: Part, container: Container, data: seq<byte>, pos: nat, ms: seq<Metadata>, n: nat)
    requires part != Top && container != W64 && AllPrintable(ms)
    requires At(data, pos, ListChunk(part, ms)) && |ListChunk(part, ms)| <= U32_MAX
    requires Good(container, data, pos + |ListChunk(part, ms)|, n, true, true)
    ensures Good(container, data, pos, n + |Select(part, ms)|, true, true)
  {
    hide AllPrintable, Chunk, ListChunk, Pieces, Has, LE32, Good, ListOrderly, ListWhole, ListUse, Select, ChunkOrderly,
         ChunkWhole, HeaderUse, ListLocation;
    ListShape(part, ms);
    if Has(part, ms) {
      var body := LE32(ListTag(part)) + Pieces(part, ms);
      HeaderOfChunk(container, data, pos, ID_LIST, body);
      AtSplit(data, pos + 8, LE32(ListTag(part)), Pieces(part, ms));
      SubchunksGood(part, data, pos + 12, 4, |body|, ms);
      TagBefore(part, data, pos + 8, |body|);
      ListHeader(container, data, pos, body);
      GoodBefore(container, data, pos, ID_LIST, body, |Select(part, ms)|, n, true, true);
    }
  }

  lemma PrintBefore(container: Container, data: seq<byte>, pos: nat, ms: seq<Metadata>)
    requires container != W64 && AllWritable(ms) && At(data, pos, Print(ms)) && |Print(ms)| <= U32_MAX
    requires Good(container, data, pos + |Print(ms)|, 0, true, true)
    ensures Good(container, data, pos, |Partition(Kept(ms))|, Followed(ms), NoLongSmpl(ms))
  {
    hide AllPrintable, AllWritable, ListChunk, Pieces, Good, Select, TopsFollowed, NoLongSmpl, Kept;
    PrintAt(data, pos, ms);
    KeptPrintable(ms);
    KeptLists(Info, ms);
    KeptLists(Adtl, ms);
    var end, kept := pos + |Pieces(Top, ms)|, Kept(ms);
    ListBefore(Adtl, container, data, end + |ListChunk(Info, ms)|, kept, 0);
    ListBefore(Info, container, data, end, kept, |Select(Adtl, kept)|);
    TopsBefore(container, data, pos, ms, |Select(Adtl, kept)| + |Select(Info, kept)|);
  }

  /** The data chunk ends with the file, or claims to end behind it. */
  lemma DataGood(container: Container, data: seq<byte>, pos: nat, n: u64)
    requires container != W64 && At(data, pos, DataHeaderBytes(container, n)) && (container == Riff ==> n <= U32_MAX)
    requires |data| == pos + 8 + n + n % 2 && (container == Rf64 ==> n < U32_MAX)
    ensures Good(container, data, pos, 0, true, true)
  {
    hide DataHeaderBytes, ReadChunkHeader, ChunkOrderly, ChunkWhole, HeaderUse, SmplStrays, Use.Then;
    DataHeader(container, data, pos, n);
    DataHeaderGood(container, data, ReadChunkHeader(container, data, pos));
    GoodAtEnd(container, data);
  }

  lemma DataHeaderGood(container: Container, data: seq<byte>, h: HeaderRead)
    requires h.Header? && h.ident == FourCCId(ID_DATA) && h.size + h.padding < 0x1_0000_0000_0000_0000
    ensures ChunkOrderly(container, data, h) && ChunkWhole(data, h) && HeaderUse(data, h) == NO_USE
    ensures !SmplStrays(data, h) && forall u: Use :: NO_USE.Then(u) == u
  {
  }

  lemma GoodAtEnd(container: Container, data: seq<byte>)
    ensures Good(container, data, |data|, 0, true, true)
  {
    hide ReadChunkHeader;
    NoHeaderAtEnd(container, data);
  }

  lemma FmtBefore(container: Container, data: seq<byte>, pos: nat, fmt: Fmt, n: nat, followed: bool, counted: bool)
    requires container != W64 && At(data, pos, FmtChunkBytes(container, fmt))
    requires Good(container, data, pos + 24, n, followed, counted)
    ensures Good(container, data, pos, n, followed, counted)
  {
    hide FmtChunkBytes, FmtBytes, ReadChunkHeader, ListOrderly, ListWhole;
    FmtHeader(container, data, pos, fmt);
  }

  /** A written file is orderly and whole; it counts for the objects that come back; all its sampler chunks
      count if no sampler data are long, and no stray one does harm if each is followed. */
  lemma WrittenOrderly(container: Container, fmt: Fmt, ms: seq<Metadata>, riffSize: u64, samples: seq<byte>)
    requires container != W64 && AllWritable(ms) && |samples| < U32_MAX
    requires WithinLimits(container, ms, |samples|, true)
    ensures var data := FileBytes(container, fmt, ms, riffSize, |samples|, samples);
      OrderlyFile(data) && FileWhole(data) && UseOf(data).counted == |Partition(Kept(ms))|
      && (FileSmplsCounted(data) <==> NoLongSmpl(ms)) && (FileStraysFollowed(data) <==> Followed(ms))
  {
    hide AllWritable, FmtChunkBytes, DataHeaderBytes, FileBytes, Print, PrologueBytes, Orderly, Whole, FileUse,
         SmplsCounted, StraysFollowed, ReadPrologue, Partition, Kept, NoLongSmpl, Followed;
    var data, n := FileBytes(container, fmt, ms, riffSize, |samples|, samples), |samples|;
    FileLayout(data, container, fmt, ms, riffSize, n, samples);
    RiffLayout(container, data, fmt, ms, riffSize, samples);
    PrologueBack(container, data, riffSize, n);
    var pos := PrologueSize(container);
    DataGood(container, data, pos + 24 + |Print(ms)|, n);
    PrintBefore(container, data, pos + 24, ms);
    FmtBefore(container, data, pos, fmt, |Partition(Kept(ms))|, Followed(ms), NoLongSmpl(ms));
  }
}
