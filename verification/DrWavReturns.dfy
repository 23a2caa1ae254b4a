/** When the opener's loops never end: exactly when a walk comes back to a chunk header it has read before.
    Since there are only so many places in a file, so many turns decide it. */
module DrWavReturns {
  import opened Bytes
  import opened DrWavMetadata
  import opened DrWavStreams
  import opened DrWavParserSpec
  import opened DrWavOpenSpec
  import Pigeonhole

  // ---------- the first walk ----------

  /** What the next turn depends on: the position, and with metadata the drift of the count of bytes read. */
  predicate SamePlace(processing: bool, s: Scan, t: Scan) {
    s.pos == t.pos && (processing ==> s.drift == t.drift)
  }

  lemma FmtFromPlace(data: seq<byte>, s: Scan, t: Scan, h: HeaderRead)
    requires h.Header? && h.next <= |data|
    ensures var a, b := ScanFmt(data, s, h), ScanFmt(data, t, h);
      a.Next? == b.Next? && (a.Next? ==> a.s.pos == b.s.pos && (s.drift == t.drift ==> a.s.drift == b.s.drift))
  {
    hide FmtFrom, U16At, U32At, U64At, ToInt32, ToU64;
  }

  lemma SkipFromPlace(data: seq<byte>, s: Scan, t: Scan, pos: nat, chunkSize: u64, padding: nat)
    ensures var a, b := SkipBody(data, s, pos, chunkSize, padding), SkipBody(data, t, pos, chunkSize, padding);
      a.Next? == b.Next? && (a.Next? ==> a.s.pos == b.s.pos && a.s.drift == s.drift && b.s.drift == t.drift)
  {
  }

  lemma FactFromPlace(container: Container, data: seq<byte>, s: Scan, t: Scan, h: HeaderRead)
    requires h.Header? && h.next <= |data|
    ensures var a, b := ScanFact(container, data, s, h), ScanFact(container, data, t, h);
      a.Next? == b.Next? && (a.Next? ==> a.s.pos == b.s.pos && a.s.drift == s.drift && b.s.drift == t.drift)
  {
    hide SkipBody, U64At, ToU64;
    SkipFromPlace(data, s.(factCount := 0), t.(factCount := 0), h.next + 4, ToU64(h.size - 4), h.padding);
    if h.next + 8 <= |data| {
      var n := U64At(data, h.next);
      SkipFromPlace(data, s.(factCount := n), t.(factCount := n), h.next + 8, ToU64(h.size - 8), h.padding);
    }
    SkipFromPlace(data, s, t, h.next, h.size, h.padding);
  }

  lemma MetadataFromPlace(data: seq<byte>, s: Scan, t: Scan, h: HeaderRead)
    requires h.Header? && h.next <= |data| && h.ident.FourCCId? && s.drift == t.drift
    ensures var a, b := ScanMetadata(data, s, h), ScanMetadata(data, t, h);
      a.Next? == b.Next? && (a.Next? ==> a.s.pos == b.s.pos && a.s.drift == b.s.drift)
  {
    hide SkipBody, ProcessChunk, Cursor;
    var p, q := ProcessChunk(data, h.next, s.parser, h.ident.id, h.size).p,
                ProcessChunk(data, h.next, t.parser, h.ident.id, h.size).p;
    SkipFromPlace(data, s.(parser := p, drift := 0), t.(parser := q, drift := 0), Cursor(h.next, s.drift), h.size,
                  h.padding);
  }

  lemma DataFromPlace(container: Container, processing: bool, data: seq<byte>, s: Scan, t: Scan, h: HeaderRead)
    requires h.Header? && h.next <= |data|
    ensures var a, b := ScanData(container, processing, data, s, h), ScanData(container, processing, data, t, h);
      a.Next? == b.Next? && (a.Next? ==> a.s.pos == b.s.pos && a.s.drift == s.drift && b.s.drift == t.drift)
  {
  }

  lemma TurnFromPlace(container: Container, processing: bool, data: seq<byte>, s: Scan, t: Scan)
    requires s.pos <= |data| && SamePlace(processing, s, t)
    ensures var a, b := ScanTurn(container, processing, data, s), ScanTurn(container, processing, data, t);
      a.Next? == b.Next? && (a.Next? ==> SamePlace(processing, a.s, b.s))
  {
    hide ScanFmt, ScanData, ScanFact, ScanMetadata, SkipBody, ReadChunkHeader;
    var h := ReadChunkHeader(container, data, s.pos);
    if h.Header? {
      FmtFromPlace(data, s, t, h);
      DataFromPlace(container, processing, data, s, t, h);
      FactFromPlace(container, data, s, t, h);
      if processing && h.ident.FourCCId? {
        MetadataFromPlace(data, s, t, h);
      }
      SkipFromPlace(data, s, t, h.next, h.size, h.padding);
    }
  }

  lemma {:induction false} TurnsFromPlace(container: Container, processing: bool, data: seq<byte>, s: Scan, t: Scan,
                                          n: nat)
    requires s.pos <= |data| && SamePlace(processing, s, t)
    ensures ScanTurns(container, processing, data, s, n).Next? == ScanTurns(container, processing, data, t, n).Next?
    decreases n
  {
    hide ScanTurn;
    if n > 0 {
      TurnFromPlace(container, processing, data, s, t);
      var a, b := ScanTurn(container, processing, data, s), ScanTurn(container, processing, data, t);
      if a.Next? {
        TurnsFromPlace(container, processing, data, a.s, b.s, n - 1);
      }
    }
  }

  /** So many turns, and then more. */
  lemma {:induction false} TurnsSplit(container: Container, processing: bool, data: seq<byte>, s: Scan, n: nat, m: nat)
    requires s.pos <= |data| && ScanTurns(container, processing, data, s, n).Next?
    ensures var t := ScanTurns(container, processing, data, s, n).s;
      t.pos <= |data|
      && ScanTurns(container, processing, data, s, n + m) == ScanTurns(container, processing, data, t, m)
    decreases n
  {
    hide ScanTurn;
    if n > 0 {
      TurnsSplit(container, processing, data, ScanTurn(container, processing, data, s).s, n - 1, m);
    }
  }

  lemma StillWalking(container: Container, processing: bool, data: seq<byte>, s: Scan, n: nat, m: nat)
    requires s.pos <= |data| && n <= m && ScanTurns(container, processing, data, s, m).Next?
    ensures ScanTurns(container, processing, data, s, n).Next?
  {
    hide ScanTurns;
    if !ScanTurns(container, processing, data, s, n).Next? {
      ScanSettled(container, processing, data, s, n, m);
    }
  }

  /** After `i` turns and again after `j`, the walk is in the same place. */
  ghost predicate ScanReturns(container: Container, processing: bool, data: seq<byte>, s: Scan, i: nat, j: nat)
    requires s.pos <= |data|
  {
    var a, b := ScanTurns(container, processing, data, s, i), ScanTurns(container, processing, data, s, j);
    i < j && a.Next? && b.Next? && SamePlace(processing, a.s, b.s)
  }

  lemma {:induction false} ReturnsAgain(container: Container, processing: bool, data: seq<byte>, s: Scan, i: nat,
                                        j: nat, n: nat)
    requires s.pos <= |data| && ScanReturns(container, processing, data, s, i, j)
    ensures ScanTurns(container, processing, data, s, n).Next?
    decreases n
  {
    hide ScanTurns, SamePlace;
    if n <= j {
      StillWalking(container, processing, data, s, n, j);
    } else {
      ReturnsAgain(container, processing, data, s, i, j, n - (j - i));
      TurnsSplit(container, processing, data, s, j, n - j);
      TurnsSplit(container, processing, data, s, i, n - j);
      assert i + (n - j) == n - (j - i) && j + (n - j) == n;
      TurnsFromPlace(container, processing, data, ScanTurns(container, processing, data, s, i).s,
                     ScanTurns(container, processing, data, s, j).s, n - j);
    }
  }

  /** How many places there are. */
  function Places(processing: bool, data: seq<byte>): nat {
    if processing then (|data| + 1) * 0x1_0000_0000_0000_0000 else |data| + 1
  }

  function Place(processing: bool, s: Scan): nat {
    if processing then s.pos * 0x1_0000_0000_0000_0000 + s.drift else s.pos
  }

  lemma PlaceInside(processing: bool, data: seq<byte>, s: Scan)
    requires s.pos <= |data|
    ensures Place(processing, s) < Places(processing, data)
  {
  }

  lemma PlaceUnique(processing: bool, s: Scan, t: Scan)
    requires Place(processing, s) == Place(processing, t)
    ensures SamePlace(processing, s, t)
  {
  }

  lemma PlaceAfter(container: Container, processing: bool, data: seq<byte>, s: Scan, n: nat, m: nat)
    requires s.pos <= |data| && n <= m && ScanTurns(container, processing, data, s, m).Next?
    ensures var r := ScanTurns(container, processing, data, s, n);
      r.Next? && Place(processing, r.s) < Places(processing, data)
  {
    hide ScanTurns, Place, Places;
    StillWalking(container, processing, data, s, n, m);
    TurnsSplit(container, processing, data, s, n, 0);
    PlaceInside(processing, data, ScanTurns(container, processing, data, s, n).s);
  }

  lemma LongWalkReturns(container: Container, processing: bool, data: seq<byte>, s: Scan) returns (i: nat, j: nat)
    requires s.pos <= |data| && ScanTurns(container, processing, data, s, Places(processing, data)).Next?
    ensures ScanReturns(container, processing, data, s, i, j)
  {
    hide ScanTurns, Place, Places, SamePlace;
    var b := Places(processing, data);
    forall n: nat | n <= b
      ensures var r := ScanTurns(container, processing, data, s, n); r.Next? && Place(processing, r.s) < b
    {
      PlaceAfter(container, processing, data, s, n, b);
    }
    var ks := seq(b + 1, n requires 0 <= n <= b => Place(processing, ScanTurns(container, processing, data, s, n).s));
    i, j := Pigeonhole.Repeats(ks, b);
    PlaceUnique(processing, ScanTurns(container, processing, data, s, i).s,
                ScanTurns(container, processing, data, s, j).s);
    StillWalking(container, processing, data, s, i, b);
    StillWalking(container, processing, data, s, j, b);
  }

  /** The first walk never ends exactly when it comes back to a place. */
  lemma ScanHangsExactly(container: Container, processing: bool, data: seq<byte>, s: Scan)
    requires s.pos <= |data|
    ensures ScanChunks(container, processing, data, s).ScansForever?
       <==> exists i: nat, j: nat :: ScanReturns(container, processing, data, s, i, j)
  {
    hide ScanTurns, ScanChunks, ScanReturns, Places;
    ScanNever(container, processing, data, s);
    if ScanChunks(container, processing, data, s).ScansForever? {
      var i, j := LongWalkReturns(container, processing, data, s);
    } else if i: nat, j: nat :| ScanReturns(container, processing, data, s, i, j) {
      forall n: nat ensures ScanTurns(container, processing, data, s, n).Next? {
        ReturnsAgain(container, processing, data, s, i, j, n);
      }
    }
  }

  /** As many turns as there are places decide it. */
  lemma ScanDecided(container: Container, processing: bool, data: seq<byte>, s: Scan)
    requires s.pos <= |data|
    ensures ScanChunks(container, processing, data, s).ScansForever?
       <==> ScanTurns(container, processing, data, s, Places(processing, data)).Next?
  {
    hide ScanTurns, ScanChunks, ScanReturns, Places;
    ScanNever(container, processing, data, s);
    if ScanTurns(container, processing, data, s, Places(processing, data)).Next? {
      var i, j := LongWalkReturns(container, processing, data, s);
      ScanHangsExactly(container, processing, data, s);
    }
  }

  // ---------- the second walk ----------

  /** Where a step goes does not depend on what has been parsed. */
  ghost predicate SameMove(p: Parser, q: Parser, a: Step, b: Step) {
    a.pos == b.pos && a.bytesRead == b.bytesRead && a.p.stage == p.stage && b.p.stage == q.stage
  }

  lemma TextSameMove(data: seq<byte>, pos: nat, p: Parser, q: Parser, size: nat, fixed: nat,
                     make: (seq<byte>, seq<byte>) -> Metadata)
    requires pos <= |data| && p.stage == q.stage
    ensures SameMove(p, q, ProcessTextChunk(data, pos, p, size, fixed, make),
                     ProcessTextChunk(data, pos, q, size, fixed, make))
  {
  }

  lemma SubchunkSameMove(data: seq<byte>, pos: nat, p: Parser, q: Parser, id: FourCC, size: nat, listType: Location)
    requires pos <= |data| && p.stage == q.stage
    ensures SameMove(p, q, ProcessSubchunk(data, pos, p, id, size, listType),
                     ProcessSubchunk(data, pos, q, id, size, listType))
  {
    hide ProcessTextChunk, InfoKindOf, MakeLabel, MakeRegion;
    TextSameMove(data, pos, p, q, size, LABEL_OR_NOTE_BYTES, MakeLabel(LabelText));
    TextSameMove(data, pos, p, q, size, LABEL_OR_NOTE_BYTES, MakeLabel(NoteText));
    TextSameMove(data, pos, p, q, size, LABELLED_TEXT_BYTES, MakeRegion());
  }

  lemma TurnSameMove(data: seq<byte>, pos: nat, p: Parser, q: Parser, id: FourCC, subSize: u32, listType: Location)
    requires pos <= |data| && p.stage == q.stage
    ensures var a, b := SubchunkTurn(data, pos, p, id, subSize, listType),
                        SubchunkTurn(data, pos, q, id, subSize, listType);
      a.goOn == b.goOn && a.pos == b.pos && a.bytesRead == b.bytesRead
      && a.p.stage == p.stage && b.p.stage == q.stage
  {
    hide ProcessSubchunk, ToInt32;
    SubchunkSameMove(data, pos, p, q, id, subSize, listType);
  }

  lemma ItemSameMove(data: seq<byte>, pos: nat, p: Parser, q: Parser, listType: Location, bytesRead: nat)
    requires pos <= |data| && p.stage == q.stage
    ensures var a, b := ListItem(data, pos, p, listType, bytesRead), ListItem(data, pos, q, listType, bytesRead);
      a.goOn == b.goOn && a.pos == b.pos && a.listType == b.listType && a.bytesRead == b.bytesRead
      && a.p.stage == p.stage && b.p.stage == q.stage
  {
    hide SubchunkTurn, U32At, ReadAt;
    var idBytes := ReadAt(data, pos, 4);
    if |idBytes| == 4 {
      var sizeBytes := ReadAt(data, pos + 4, 4);
      if |sizeBytes| == 4 {
        TurnSameMove(data, pos + 8, p, q, U32At(idBytes, 0), U32At(sizeBytes, 0), listType);
      }
    }
  }

  lemma {:induction false} ListSameMove(data: seq<byte>, pos: nat, p: Parser, q: Parser, listType: Location,
                                        bytesRead: nat, size: nat)
    requires pos <= |data| && p.stage == q.stage
    ensures SameMove(p, q, ProcessList(data, pos, p, listType, bytesRead, size),
                     ProcessList(data, pos, q, listType, bytesRead, size))
    decreases size - bytesRead
  {
    hide ListItem;
    if bytesRead < size {
      ItemSameMove(data, pos, p, q, listType, bytesRead);
      var a, b := ListItem(data, pos, p, listType, bytesRead), ListItem(data, pos, q, listType, bytesRead);
      if a.goOn {
        ListSameMove(data, a.pos, a.p, b.p, a.listType, a.bytesRead, size);
      }
    }
  }

  lemma SmplSameMove(data: seq<byte>, pos: nat, p: Parser, q: Parser, size: nat)
    requires pos <= |data| && size >= SMPL_BYTES
    ensures SameMove(p, q, CountSmpl(data, pos, p, size), CountSmpl(data, pos, q, size))
    ensures SameMove(p, q, ReadSmpl(data, pos, p, size), ReadSmpl(data, pos, q, size))
  {
    hide U32At, ReadLoops, SmplHeaderFrom;
  }

  lemma CueSameMove(data: seq<byte>, pos: nat, p: Parser, q: Parser, size: nat)
    requires pos <= |data| && size >= CUE_BYTES
    ensures SameMove(p, q, ReadCue(data, pos, p, size), ReadCue(data, pos, q, size))
  {
    hide U32At, ReadPoints;
  }

  lemma ChunkSameMove(data: seq<byte>, pos: nat, p: Parser, q: Parser, id: FourCC, size: nat)
    requires pos <= |data| && p.stage == q.stage
    ensures SameMove(p, q, ProcessChunk(data, pos, p, id, size), ProcessChunk(data, pos, q, id, size))
  {
    hide CountSmpl, ReadSmpl, ReadCue, ProcessList, InstFrom, AcidFrom;
    if size >= SMPL_BYTES {
      SmplSameMove(data, pos, p, q, size);
    }
    if size >= CUE_BYTES {
      CueSameMove(data, pos, p, q, size);
    }
    ListSameMove(data, pos, p, q, InvalidLocation, 0, size);
  }

  lemma ReadTurnFromPlace(container: Container, data: seq<byte>, pos: nat, p: Parser, q: Parser)
    requires pos <= |data| && p.stage == q.stage
    ensures var a, b := ReadTurn(container, data, pos, p), ReadTurn(container, data, pos, q);
      a.Midway? == b.Midway? && (a.Midway? ==> a.pos == b.pos && a.p.stage == p.stage && b.p.stage == p.stage)
  {
    hide ProcessChunk, ReadChunkHeader, ToU64;
    var h := ReadChunkHeader(container, data, pos);
    if h.Header? && h.ident.FourCCId? {
      ChunkSameMove(data, h.next, p, q, h.ident.id, h.size);
    }
  }

  lemma {:induction false} ReadTurnsFromPlace(container: Container, data: seq<byte>, pos: nat, p: Parser, q: Parser,
                                              n: nat)
    requires pos <= |data| && p.stage == q.stage
    ensures ReadTurns(container, data, pos, p, n).Midway? == ReadTurns(container, data, pos, q, n).Midway?
    decreases n
  {
    hide ReadTurn;
    if n > 0 {
      ReadTurnFromPlace(container, data, pos, p, q);
      var a, b := ReadTurn(container, data, pos, p), ReadTurn(container, data, pos, q);
      if a.Midway? {
        ReadTurnsFromPlace(container, data, a.pos, a.p, b.p, n - 1);
      }
    }
  }

  lemma {:induction false} ReadTurnsSplit(container: Container, data: seq<byte>, pos: nat, p: Parser, n: nat, m: nat)
    requires pos <= |data| && ReadTurns(container, data, pos, p, n).Midway?
    ensures var r := ReadTurns(container, data, pos, p, n);
      r.pos <= |data| && r.p.stage == p.stage
      && ReadTurns(container, data, pos, p, n + m) == ReadTurns(container, data, r.pos, r.p, m)
    decreases n
  {
    hide ReadTurn;
    if n > 0 {
      ReadTurnFromPlace(container, data, pos, p, p);
      var r := ReadTurn(container, data, pos, p);
      ReadTurnsSplit(container, data, r.pos, r.p, n - 1, m);
    }
  }

  lemma StillReading(container: Container, data: seq<byte>, pos: nat, p: Parser, n: nat, m: nat)
    requires pos <= |data| && n <= m && ReadTurns(container, data, pos, p, m).Midway?
    ensures ReadTurns(container, data, pos, p, n).Midway?
  {
    hide ReadTurns;
    if !ReadTurns(container, data, pos, p, n).Midway? {
      ReadSettled(container, data, pos, p, n, m);
    }
  }

  ghost predicate ReadReturns(container: Container, data: seq<byte>, pos: nat, p: Parser, i: nat, j: nat)
    requires pos <= |data|
  {
    var a, b := ReadTurns(container, data, pos, p, i), ReadTurns(container, data, pos, p, j);
    i < j && a.Midway? && b.Midway? && a.pos == b.pos
  }

  lemma {:induction false} ReadsAgain(container: Container, data: seq<byte>, pos: nat, p: Parser, i: nat, j: nat,
                                      n: nat)
    requires pos <= |data| && ReadReturns(container, data, pos, p, i, j)
    ensures ReadTurns(container, data, pos, p, n).Midway?
    decreases n
  {
    hide ReadTurns;
    if n <= j {
      StillReading(container, data, pos, p, n, j);
    } else {
      ReadsAgain(container, data, pos, p, i, j, n - (j - i));
      ReadTurnsSplit(container, data, pos, p, j, n - j);
      ReadTurnsSplit(container, data, pos, p, i, n - j);
      assert i + (n - j) == n - (j - i) && j + (n - j) == n;
      var a, b := ReadTurns(container, data, pos, p, i), ReadTurns(container, data, pos, p, j);
      ReadTurnsFromPlace(container, data, a.pos, a.p, b.p, n - j);
    }
  }

  lemma LongReadReturns(container: Container, data: seq<byte>, pos: nat, p: Parser) returns (i: nat, j: nat)
    requires pos <= |data| && ReadTurns(container, data, pos, p, |data| + 1).Midway?
    ensures ReadReturns(container, data, pos, p, i, j)
  {
    hide ReadTurns;
    var b := |data| + 1;
    forall n: nat | n <= b ensures var r := ReadTurns(container, data, pos, p, n); r.Midway? && r.pos < b {
      StillReading(container, data, pos, p, n, b);
      ReadTurnsSplit(container, data, pos, p, n, 0);
    }
    var ks := seq(b + 1, n requires 0 <= n <= b => ReadTurns(container, data, pos, p, n).pos);
    i, j := Pigeonhole.Repeats(ks, b);
  }

  /** The second walk never ends exactly when it comes back to a position. */
  lemma ReadHangsExactly(container: Container, data: seq<byte>, pos: nat, p: Parser)
    requires pos <= |data|
    ensures ReadMetadata(container, data, pos, p).ReadsForever?
       <==> exists i: nat, j: nat :: ReadReturns(container, data, pos, p, i, j)
  {
    hide ReadTurns, ReadMetadata, ReadReturns;
    ReadNever(container, data, pos, p);
    if ReadMetadata(container, data, pos, p).ReadsForever? {
      var i, j := LongReadReturns(container, data, pos, p);
    } else if i: nat, j: nat :| ReadReturns(container, data, pos, p, i, j) {
      forall n: nat ensures ReadTurns(container, data, pos, p, n).Midway? {
        ReadsAgain(container, data, pos, p, i, j, n);
      }
    }
  }

  lemma ReadDecided(container: Container, data: seq<byte>, pos: nat, p: Parser)
    requires pos <= |data|
    ensures ReadMetadata(container, data, pos, p).ReadsForever?
       <==> ReadTurns(container, data, pos, p, |data| + 1).Midway?
  {
    hide ReadTurns, ReadMetadata, ReadReturns;
    ReadNever(container, data, pos, p);
    if ReadTurns(container, data, pos, p, |data| + 1).Midway? {
      var i, j := LongReadReturns(container, data, pos, p);
      ReadHangsExactly(container, data, pos, p);
    }
  }

  // ---------- opening ----------

  /** Opening hangs exactly when so many turns are not enough for both loops. */
  lemma OpenDecided(data: seq<byte>, withMetadata: bool, arena: Arena)
    ensures var o := OpenWithin(data, withMetadata, arena, Places(withMetadata, data));
      Open(data, withMetadata, arena) == if o == CutShort then Hangs else o
  {
    hide ScanTurns, ReadTurns, ScanChunks, ReadMetadata, ReadPrologue, Conclude, StartReading, Places;
    var turns := Places(withMetadata, data);
    if OpenWithin(data, withMetadata, arena, turns) != CutShort {
      OpenedWithin(data, withMetadata, arena, turns);
    } else {
      var pro := ReadPrologue(data);
      var processing, s := withMetadata && pro.container != W64, StartScan(pro, arena);
      PlacesEnough(processing, withMetadata, data);
      ScanDecided(pro.container, processing, data, s);
      var a := ScanTurns(pro.container, processing, data, s, turns);
      if a.Next? {
        StillWalking(pro.container, processing, data, s, Places(processing, data), turns);
      } else {
        ScanEnds(pro.container, processing, data, s, turns);
        var p := StartReading(a.s.parser);
        StillReading(pro.container, data, pro.pos, p, |data| + 1, turns);
        ReadDecided(pro.container, data, pro.pos, p);
      }
    }
  }

  lemma PlacesEnough(processing: bool, withMetadata: bool, data: seq<byte>)
    requires processing ==> withMetadata
    ensures |data| + 1 <= Places(processing, data) <= Places(withMetadata, data)
  {
  }
}
