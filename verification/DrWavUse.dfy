/** What each chunk of an orderly file counts for: how many objects the first walk counts, how many the
    second one fills, and how many slots it needs at once. All of it can be read off the file. */
module DrWavUse {
  import opened Bytes
  import opened DrWavMetadata
  import opened DrWavStreams
  import opened DrWavParserSpec
  import opened DrWavLeafRoundTrip
  import opened DrWavOpenSpec
  import opened DrWavOrderly

  // ---------- what a chunk counts for ----------

  function Max(a: nat, b: nat): nat { if a < b then b else a }

  /** The objects that the first walk counts, those that the second one fills, and the most slots that the
      second one needs at any moment, an object that is begun and given up included. */
  datatype Use = Use(counted: nat, taken: nat, needed: nat) {
    function Then(v: Use): Use {
      Use(counted + v.counted, taken + v.taken, Max(needed, taken + v.needed))
    }
  }

  const NO_USE := Use(0, 0, 0)

  predicate SubchunkCounts(id: FourCC, size: nat, listType: Location) {
    if id == ID_LABL || id == ID_NOTE then size >= LABEL_OR_NOTE_BYTES
    else if id == ID_LTXT then size >= LABELLED_TEXT_BYTES
    else InfoKindOf(id).0
         || (listType != InvalidLocation && id != ID_DATA && id != ID_FMT && id != ID_FACT)
  }

  /** What must be there before the second walk begins an object. */
  function SubchunkFixed(id: FourCC): nat {
    if id == ID_LABL || id == ID_NOTE then LABEL_OR_NOTE_BYTES else if id == ID_LTXT then LABELLED_TEXT_BYTES else 0
  }

  function SubchunkUse(data: seq<byte>, pos: nat, id: FourCC, size: nat, listType: Location): Use {
    if !SubchunkCounts(id, size, listType) then NO_USE
    else Use(1, if pos + size <= |data| then 1 else 0, if pos + SubchunkFixed(id) <= |data| then 1 else 0)
  }

  function ListUse(data: seq<byte>, pos: nat, listType: Location, bytesRead: nat, size: nat): Use
    decreases size - bytesRead
  {
    if bytesRead >= size || pos + 4 > |data| then NO_USE
    else
      var id := U32At(data, pos);
      if id == ID_ADTL then ListUse(data, pos + 4, InsideAdtlList, bytesRead + 4, size)
      else if id == ID_INFO then ListUse(data, pos + 4, InsideInfoList, bytesRead + 4, size)
      else if pos + 8 > |data| then NO_USE
      else
        var sub := U32At(data, pos + 4) as int;
        var skipped := 8 + sub + sub % 2;
        var u := SubchunkUse(data, pos + 8, id, sub, listType);
        if pos + skipped <= |data| then u.Then(ListUse(data, pos + skipped, listType, bytesRead + skipped, size))
        else u
  }

  /** The loops that the size of a sampler chunk has room for. */
  function LoopRoom(size: nat): nat
    requires size >= SMPL_BYTES
  {
    (size - SMPL_BYTES) / SMPL_LOOP_BYTES
  }

  /** A sampler chunk that is counted: its header is there and claims as many loops as there is room for. */
  predicate SmplCounts(data: seq<byte>, pos: nat, size: nat)
    requires size >= SMPL_BYTES && pos + SMPL_BYTES <= |data|
  {
    U32At(data, pos + 28) == LoopRoom(size)
  }

  /** The sampler data it claims, as far as the file goes, fill the rest of it. */
  predicate SmplWhole(data: seq<byte>, pos: nat, size: nat)
    requires size >= SMPL_BYTES && pos + SMPL_BYTES <= |data|
  {
    var left := size - SMPL_BYTES - SMPL_LOOP_BYTES * LoopRoom(size);
    Min(U32At(data, pos + 32), |data| - (pos + size - left)) == left
  }

  /** A cue chunk holds nothing but its count, or as many points as it says. */
  predicate CueWhole(data: seq<byte>, pos: nat, size: nat)
    requires size >= CUE_BYTES && pos + CUE_BYTES <= |data|
  {
    size == CUE_BYTES || size == CUE_BYTES + CUE_POINT_BYTES * U32At(data, pos) as int
  }

  function ChunkUse(data: seq<byte>, pos: nat, id: FourCC, size: nat): Use {
    if id == ID_SMPL then
      if size < SMPL_BYTES || pos + SMPL_BYTES > |data| then NO_USE
      else if SmplCounts(data, pos, size) then Use(1, if SmplWhole(data, pos, size) then 1 else 0, 1)
      else Use(0, if size == SMPL_BYTES then 1 else 0, 1)
    else if id == ID_INST then if size == INST_BYTES then Use(1, 1, 1) else NO_USE
    else if id == ID_ACID then if size == ACID_BYTES then Use(1, 1, 1) else NO_USE
    else if id == ID_CUE then
      if size < CUE_BYTES then NO_USE
      else Use(1, if pos + CUE_BYTES <= |data| && CueWhole(data, pos, size) then 1 else 0, 1)
    else if id == ID_LIST || id == ID_list then ListUse(data, pos, InvalidLocation, 0, size)
    else if id == ID_BEXT || id == ID_DATA || id == ID_FMT || id == ID_FACT then NO_USE
    else Use(1, 1, 1)
  }

  function HeaderUse(data: seq<byte>, h: HeaderRead): Use
    requires h.Header?
  {
    if h.ident.FourCCId? then ChunkUse(data, h.next, h.ident.id, h.size) else NO_USE
  }

  /** All chunks from `pos` on. */
  function FileUse(container: Container, data: seq<byte>, pos: nat): Use
    requires pos <= |data|
    decreases |data| - pos
  {
    var h := ReadChunkHeader(container, data, pos);
    if h.NoHeader? then NO_USE
    else
      var u := HeaderUse(data, h);
      if EndOf(h) <= |data| then u.Then(FileUse(container, data, EndOf(h))) else u
  }

  // ---------- both walks inside one chunk ----------

  /** The counting stage has counted `n` objects on the way from `c` to `c'`. */
  ghost predicate Counts(c: Parser, c': Parser, n: nat) {
    && c'.stage == c.stage && c'.inBounds == c.inBounds
    && c'.metadataCount == c.metadataCount + n && c.extraCapacity <= c'.extraCapacity
  }

  /** The reading stage has filled and needed so many slots, and used no more than `extra` bytes. If there
      are as many, it has stayed in bounds exactly when there are slots enough. */
  ghost predicate Fills(r: Parser, r': Parser, taken: nat, needed: nat, extra: nat) {
    && r'.stage == r.stage && r'.metadataCount == r.metadataCount
    && r'.extraCapacity == r.extraCapacity && r'.arena == r.arena
    && |r'.slots| == |r.slots| + taken && taken <= needed
    && r.dataCursor <= r'.dataCursor <= r.dataCursor + extra
    && (r.dataCursor + extra <= r.arena.start + r.Capacity() ==>
          (r'.inBounds <==> r.inBounds && (needed == 0 || |r.slots| + needed <= r.metadataCount)))
  }

  /** Both stages over the same stretch. */
  ghost predicate Uses(c: Parser, c': Parser, r: Parser, r': Parser, u: Use) {
    Counts(c, c', u.counted) && Fills(r, r', u.taken, u.needed, c'.extraCapacity - c.extraCapacity)
  }

  lemma UsesNothing(c: Parser, r: Parser)
    ensures Uses(c, c, r, r, NO_USE)
  {
  }

  lemma UsesThen(c: Parser, c1: Parser, c2: Parser, r: Parser, r1: Parser, r2: Parser, u: Use, v: Use)
    requires Uses(c, c1, r, r1, u) && Uses(c1, c2, r1, r2, v)
    ensures Uses(c, c2, r, r2, u.Then(v))
  {
    var extra, extra1 := c2.extraCapacity - c.extraCapacity, c1.extraCapacity - c.extraCapacity;
    assert r1.Capacity() == r.Capacity();
    if r.dataCursor + extra <= r.arena.start + r.Capacity() {
      assert r.dataCursor + extra1 <= r.arena.start + r.Capacity();
      assert r1.dataCursor + (extra - extra1) <= r1.arena.start + r1.Capacity();
    }
  }

  /** Both steps begin at `pos`, and each has moved by as much as it says it has read. */
  ghost predicate InStep(pos: nat, a: Step, b: Step) {
    a.pos == pos + a.bytesRead && b.pos == pos + b.bytesRead
  }

  lemma WordInside(data: seq<byte>, pos: nat, n: nat, o: nat)
    requires pos + n <= |data| && o + 4 <= n
    ensures |ReadAt(data, pos, n)| == n && U32At(ReadAt(data, pos, n), o) == U32At(data, pos + o)
  {
  }

  lemma {:induction false} LoopsInside(data: seq<byte>, pos: nat, count: nat)
    requires pos + SMPL_LOOP_BYTES * count <= |data|
    ensures var r := ReadLoops(data, pos, count); |r.0| == count && r.1 == SMPL_LOOP_BYTES * count
    decreases count
  {
    hide LoopFrom;
    if count > 0 {
      LoopsInside(data, pos + SMPL_LOOP_BYTES, count - 1);
    }
  }

  lemma {:induction false} PointsInside(data: seq<byte>, pos: nat, count: nat)
    requires pos + CUE_POINT_BYTES * count <= |data|
    ensures var r := ReadPoints(data, pos, count); |r.0| == count && r.1 == CUE_POINT_BYTES * count
    decreases count
  {
    hide PointFrom;
    if count > 0 {
      PointsInside(data, pos + CUE_POINT_BYTES, count - 1);
    }
  }

  lemma CountSmplMoves(data: seq<byte>, pos: nat, c: Parser, size: nat)
    requires pos <= |data| && size >= SMPL_BYTES
    ensures var a := CountSmpl(data, pos, c, size);
      a.pos == pos + a.bytesRead && Counts(c, a.p, ChunkUse(data, pos, ID_SMPL, size).counted)
      && (ChunkUse(data, pos, ID_SMPL, size).counted == 0 ==> a.p == c)
      && (ChunkUse(data, pos, ID_SMPL, size).counted == 1 ==>
            a.p.extraCapacity == c.extraCapacity + LOOP_OBJECT_BYTES * LoopRoom(size) + 7 + U32At(data, pos + 32))
  {
    hide U32At;
    if pos + SMPL_BYTES <= |data| {
      ReadWord(data, pos + 28);
      ReadWord(data, pos + 32);
    }
  }

  lemma ReadSmplMoves(data: seq<byte>, pos: nat, r: Parser, size: nat)
    requires pos <= |data| && size >= SMPL_BYTES
    ensures var b := ReadSmpl(data, pos, r, size); b.pos == pos + b.bytesRead && b.p.stage == r.stage
  {
    hide U32At, ReadLoops, SmplHeaderFrom;
  }

  lemma SmplFills(data: seq<byte>, pos: nat, r: Parser, size: nat)
    requires size >= SMPL_BYTES && pos + size <= |data|
    ensures var b, u := ReadSmpl(data, pos, r, size), ChunkUse(data, pos, ID_SMPL, size);
      Fills(r, b.p, u.taken, u.needed,
            if u.counted == 0 then 0 else LOOP_OBJECT_BYTES * LoopRoom(size) + 7 + U32At(data, pos + 32))
  {
    hide U32At, ReadLoops, SmplHeaderFrom, ReadAt;
    WordInside(data, pos, SMPL_BYTES, 28);
    WordInside(data, pos, SMPL_BYTES, 32);
    if SmplCounts(data, pos, size) {
      var left := size - SMPL_BYTES - SMPL_LOOP_BYTES * LoopRoom(size);
      LoopsInside(data, pos + SMPL_BYTES, LoopRoom(size));
      ReadLength(data, pos + size - left, U32At(data, pos + 32));
    }
  }

  lemma ReadLength(data: seq<byte>, pos: nat, n: nat)
    requires pos <= |data|
    ensures |ReadAt(data, pos, n)| == Min(n, |data| - pos)
  {
  }

  lemma CueMoves(data: seq<byte>, pos: nat, r: Parser, size: nat)
    requires pos <= |data| && size >= CUE_BYTES
    ensures var b := ReadCue(data, pos, r, size); b.pos == pos + b.bytesRead && b.p.stage == r.stage
  {
    hide U32At, ReadPoints;
  }

  lemma CueUses(data: seq<byte>, pos: nat, c: Parser, r: Parser, size: nat)
    requires size >= CUE_BYTES && pos + size <= |data|
    ensures Uses(c, CountCue(pos, c, size).p, r, ReadCue(data, pos, r, size).p, ChunkUse(data, pos, ID_CUE, size))
  {
    hide U32At, ReadPoints, ReadAt, Parser.Capacity;
    WordInside(data, pos, CUE_BYTES, 0);
    var room := (size - CUE_BYTES) / CUE_POINT_BYTES;
    PointsInside(data, pos + CUE_BYTES, room);
  }

  lemma FixedUses(data: seq<byte>, pos: nat, c: Parser, r: Parser)
    ensures pos + INST_BYTES <= |data| ==> Uses(c, c.Counted(), r, ReadInst(data, pos, r).p, Use(1, 1, 1))
    ensures pos + ACID_BYTES <= |data| ==> Uses(c, c.Counted(), r, ReadAcid(data, pos, r).p, Use(1, 1, 1))
  {
    hide InstFrom, AcidFrom;
  }

  lemma TextUses(data: seq<byte>, pos: nat, c: Parser, r: Parser, size: nat, fixed: nat,
                 make: (seq<byte>, seq<byte>) -> Metadata)
    requires pos <= |data| && c.stage == CountStage && r.stage == ReadStage
    ensures var a, b := ProcessTextChunk(data, pos, c, size, fixed, make),
                        ProcessTextChunk(data, pos, r, size, fixed, make);
      InStep(pos, a, b)
      && Uses(c, a.p, r, b.p,
              if size < fixed then NO_USE
              else Use(1, if pos + size <= |data| then 1 else 0, if pos + fixed <= |data| then 1 else 0))
  {
  }

  lemma InfoUses(data: seq<byte>, pos: nat, c: Parser, r: Parser, size: nat, kind: InfoKind)
    requires pos <= |data| && c.stage == CountStage && r.stage == ReadStage
    ensures var a, b := ProcessInfoText(data, pos, c, size, kind), ProcessInfoText(data, pos, r, size, kind);
      InStep(pos, a, b) && Uses(c, a.p, r, b.p, Use(1, if pos + size <= |data| then 1 else 0, 1))
  {
  }

  lemma UnknownUses(data: seq<byte>, pos: nat, c: Parser, r: Parser, id: FourCC, size: nat, location: Location)
    requires pos <= |data| && c.stage == CountStage && r.stage == ReadStage
    ensures var a, b := ProcessUnknown(data, pos, c, id, size, location),
                        ProcessUnknown(data, pos, r, id, size, location);
      InStep(pos, a, b)
      && Uses(c, a.p, r, b.p,
              if location == InvalidLocation || id == ID_DATA || id == ID_FMT || id == ID_FACT then NO_USE
              else Use(1, if pos + size <= |data| then 1 else 0, 1))
  {
  }

  lemma SubchunkUses(data: seq<byte>, pos: nat, c: Parser, r: Parser, id: FourCC, size: nat, listType: Location)
    requires pos <= |data| && c.stage == CountStage && r.stage == ReadStage
    ensures var a, b := ProcessSubchunk(data, pos, c, id, size, listType),
                        ProcessSubchunk(data, pos, r, id, size, listType);
      InStep(pos, a, b) && Uses(c, a.p, r, b.p, SubchunkUse(data, pos, id, size, listType))
  {
    hide ProcessTextChunk, ProcessInfoText, ProcessUnknown, Counts, Fills, InfoKindOf, MakeLabel, MakeRegion;
    if id == ID_LABL {
      TextUses(data, pos, c, r, size, LABEL_OR_NOTE_BYTES, MakeLabel(LabelText));
    } else if id == ID_NOTE {
      TextUses(data, pos, c, r, size, LABEL_OR_NOTE_BYTES, MakeLabel(NoteText));
    } else if id == ID_LTXT {
      TextUses(data, pos, c, r, size, LABELLED_TEXT_BYTES, MakeRegion());
    } else if InfoKindOf(id).0 {
      InfoUses(data, pos, c, r, size, InfoKindOf(id).1);
    } else {
      UnknownUses(data, pos, c, r, id, size, listType);
    }
  }

  /** A turn has moved by what it says, and one that goes on has passed the whole subchunk. */
  lemma TurnMoves(data: seq<byte>, pos: nat, p: Parser, id: FourCC, subSize: u32, listType: Location)
    requires pos <= |data| && subSize <= INT_MAX
    requires var sub := ProcessSubchunk(data, pos, p, id, subSize, listType); sub.pos == pos + sub.bytesRead
    ensures var t := SubchunkTurn(data, pos, p, id, subSize, listType);
      t.pos == pos + t.bytesRead && t.p == ProcessSubchunk(data, pos, p, id, subSize, listType).p
      && (t.goOn <==> pos + subSize + subSize % 2 <= |data|) && (t.goOn ==> t.bytesRead == subSize + subSize % 2)
  {
    hide ProcessSubchunk;
  }

  /** Where both stages are after one item of a list, what they have used, and what is left. */
  ghost predicate ItemDone(data: seq<byte>, pos: nat, c: Parser, r: Parser, listType: Location, bytesRead: nat,
                           size: nat, a: Item, b: Item, u: Use)
  {
    && Uses(c, a.p, r, b.p, u) && a.goOn == b.goOn
    && a.pos + bytesRead == pos + a.bytesRead && b.pos + bytesRead == pos + b.bytesRead
    && (a.goOn ==> a.pos == b.pos && a.listType == b.listType && a.bytesRead == b.bytesRead
                   && ListOrderly(data, a.pos, a.bytesRead, size))
    && ListUse(data, pos, listType, bytesRead, size)
       == if a.goOn then u.Then(ListUse(data, a.pos, a.listType, a.bytesRead, size)) else u
  }

  predicate IsTag(data: seq<byte>, pos: nat) {
    pos + 4 <= |data| && (U32At(data, pos) == ID_ADTL || U32At(data, pos) == ID_INFO)
  }

  function TagLocation(data: seq<byte>, pos: nat): Location
    requires IsTag(data, pos)
  {
    if U32At(data, pos) == ID_ADTL then InsideAdtlList else InsideInfoList
  }

  lemma TagItem(data: seq<byte>, pos: nat, p: Parser, listType: Location, bytesRead: nat)
    requires pos <= |data| && (IsTag(data, pos) || pos + 8 > |data|)
    ensures var i := ListItem(data, pos, p, listType, bytesRead);
      i.p == p && i.pos + bytesRead == pos + i.bytesRead && (i.goOn <==> IsTag(data, pos))
      && (i.goOn ==> i.pos == pos + 4 && i.listType == TagLocation(data, pos))
  {
    hide U32At, SubchunkTurn;
    if pos + 4 <= |data| {
      ReadWord(data, pos);
    }
  }

  lemma TagListUse(data: seq<byte>, pos: nat, listType: Location, bytesRead: nat, size: nat)
    requires bytesRead < size && IsTag(data, pos)
    ensures ListUse(data, pos, listType, bytesRead, size)
         == ListUse(data, pos + 4, TagLocation(data, pos), bytesRead + 4, size)
    ensures ListOrderly(data, pos, bytesRead, size) == ListOrderly(data, pos + 4, bytesRead + 4, size)
  {
    hide U32At, Use.Then, SubchunkUse;
  }

  lemma ShortListUse(data: seq<byte>, pos: nat, listType: Location, bytesRead: nat, size: nat)
    requires pos + 8 > |data| && !IsTag(data, pos)
    ensures ListUse(data, pos, listType, bytesRead, size) == NO_USE
  {
    hide U32At;
  }

  /** A list tag, or too few bytes for anything. */
  lemma TagUses(data: seq<byte>, pos: nat, c: Parser, r: Parser, listType: Location, bytesRead: nat, size: nat)
    requires pos <= |data| && bytesRead < size && ListOrderly(data, pos, bytesRead, size)
    requires IsTag(data, pos) || pos + 8 > |data|
    ensures ItemDone(data, pos, c, r, listType, bytesRead, size, ListItem(data, pos, c, listType, bytesRead),
                     ListItem(data, pos, r, listType, bytesRead), NO_USE)
  {
    hide IsTag, TagLocation, Uses, ListItem, ListUse, ListOrderly;
    UsesNothing(c, r);
    TagItem(data, pos, c, listType, bytesRead);
    TagItem(data, pos, r, listType, bytesRead);
    if IsTag(data, pos) {
      TagListUse(data, pos, listType, bytesRead, size);
    } else {
      ShortListUse(data, pos, listType, bytesRead, size);
    }
  }

  lemma SubchunkItem(data: seq<byte>, pos: nat, p: Parser, listType: Location, bytesRead: nat)
    requires pos + 8 <= |data| && U32At(data, pos) != ID_ADTL && U32At(data, pos) != ID_INFO
    ensures var t := SubchunkTurn(data, pos + 8, p, U32At(data, pos), U32At(data, pos + 4), listType);
      ListItem(data, pos, p, listType, bytesRead) == Item(t.goOn, t.pos, t.p, listType, bytesRead + 8 + t.bytesRead)
  {
    hide U32At, SubchunkTurn;
    ReadWord(data, pos);
    ReadWord(data, pos + 4);
  }

  lemma SubchunkItemUses(data: seq<byte>, pos: nat, c: Parser, r: Parser, listType: Location, bytesRead: nat,
                         size: nat)
    requires pos + 8 <= |data| && c.stage == CountStage && r.stage == ReadStage
    requires bytesRead < size && ListOrderly(data, pos, bytesRead, size)
    requires U32At(data, pos) != ID_ADTL && U32At(data, pos) != ID_INFO
    ensures ItemDone(data, pos, c, r, listType, bytesRead, size, ListItem(data, pos, c, listType, bytesRead),
                     ListItem(data, pos, r, listType, bytesRead),
                     SubchunkUse(data, pos + 8, U32At(data, pos), U32At(data, pos + 4), listType))
  {
    hide SubchunkTurn, ProcessSubchunk, SubchunkUse, U32At, Uses, ListItem;
    var id, sub := U32At(data, pos), U32At(data, pos + 4);
    SubchunkItem(data, pos, c, listType, bytesRead);
    SubchunkItem(data, pos, r, listType, bytesRead);
    SubchunkUses(data, pos + 8, c, r, id, sub, listType);
    TurnMoves(data, pos + 8, c, id, sub, listType);
    TurnMoves(data, pos + 8, r, id, sub, listType);
  }

  lemma ItemUses(data: seq<byte>, pos: nat, c: Parser, r: Parser, listType: Location, bytesRead: nat, size: nat)
    returns (u: Use)
    requires pos <= |data| && c.stage == CountStage && r.stage == ReadStage
    requires bytesRead < size && ListOrderly(data, pos, bytesRead, size)
    ensures ItemDone(data, pos, c, r, listType, bytesRead, size, ListItem(data, pos, c, listType, bytesRead),
                     ListItem(data, pos, r, listType, bytesRead), u)
  {
    hide U32At, ItemDone, ListItem, ListOrderly;
    if IsTag(data, pos) || pos + 8 > |data| {
      TagUses(data, pos, c, r, listType, bytesRead, size);
      u := NO_USE;
    } else {
      SubchunkItemUses(data, pos, c, r, listType, bytesRead, size);
      u := SubchunkUse(data, pos + 8, U32At(data, pos), U32At(data, pos + 4), listType);
    }
  }

  lemma {:induction false} ListUses(data: seq<byte>, pos: nat, c: Parser, r: Parser, listType: Location,
                                    bytesRead: nat, size: nat)
    requires pos <= |data| && c.stage == CountStage && r.stage == ReadStage
    requires ListOrderly(data, pos, bytesRead, size)
    ensures var a, b := ProcessList(data, pos, c, listType, bytesRead, size),
                        ProcessList(data, pos, r, listType, bytesRead, size);
      Uses(c, a.p, r, b.p, ListUse(data, pos, listType, bytesRead, size))
      && a.pos + bytesRead == pos + a.bytesRead && b.pos + bytesRead == pos + b.bytesRead
    decreases size - bytesRead
  {
    hide ListItem, ListOrderly, Fills, Use.Then;
    if bytesRead < size {
      var u := ItemUses(data, pos, c, r, listType, bytesRead, size);
      var a, b := ListItem(data, pos, c, listType, bytesRead), ListItem(data, pos, r, listType, bytesRead);
      if a.goOn {
        StagesKept(c, a.p, r, b.p, u);
        ListUses(data, a.pos, a.p, b.p, a.listType, a.bytesRead, size);
        var x, y := ProcessList(data, a.pos, a.p, a.listType, a.bytesRead, size),
                    ProcessList(data, a.pos, b.p, a.listType, a.bytesRead, size);
        UsesThen(c, a.p, x.p, r, b.p, y.p, u, ListUse(data, a.pos, a.listType, a.bytesRead, size));
      }
    } else {
      UsesNothing(c, r);
    }
  }

  lemma StagesKept(c: Parser, c': Parser, r: Parser, r': Parser, u: Use)
    requires Uses(c, c', r, r', u)
    ensures c'.stage == c.stage && r'.stage == r.stage
  {
  }

  /** A chunk, as both stages process it. What the reading stage uses of one that reaches past the end is
      left open: the walk fails there. */
  ghost predicate ChunkDone(data: seq<byte>, h: HeaderRead, c: Parser, r: Parser, a: Step, b: Step)
    requires h.Header?
  {
    var u := HeaderUse(data, h);
    InStep(h.next, a, b) && Counts(c, a.p, u.counted) && b.p.stage == r.stage
    && (h.next + h.size <= |data| ==> Uses(c, a.p, r, b.p, u))
  }

  lemma ChunkUses(container: Container, data: seq<byte>, h: HeaderRead, c: Parser, r: Parser)
    requires h.Header? && h.ident.FourCCId? && h.next <= |data| && ChunkOrderly(container, data, h)
    requires c.stage == CountStage && r.stage == ReadStage
    ensures ChunkDone(data, h, c, r, ProcessChunk(data, h.next, c, h.ident.id, h.size),
                      ProcessChunk(data, h.next, r, h.ident.id, h.size))
  {
    hide CountSmpl, ReadSmpl, ReadCue, ReadInst, ReadAcid, ProcessUnknown, ProcessList, ListOrderly, Fills, ListUse,
         SmplCounts, SmplWhole, CueWhole;
    UsesNothing(c, r);
    var id, size, pos := h.ident.id, h.size, h.next;
    if id == ID_SMPL {
      if size >= SMPL_BYTES {
        CountSmplMoves(data, pos, c, size);
        ReadSmplMoves(data, pos, r, size);
        if pos + size <= |data| {
          SmplFills(data, pos, r, size);
        }
      }
    } else if id == ID_INST || id == ID_ACID {
      FixedMoves(data, pos, r);
      FixedUses(data, pos, c, r);
    } else if id == ID_CUE {
      if size >= CUE_BYTES {
        CueMoves(data, pos, r, size);
        if pos + size <= |data| {
          CueUses(data, pos, c, r, size);
        }
      }
    } else if id == ID_LIST || id == ID_list {
      ListUses(data, pos, c, r, InvalidLocation, 0, size);
      StagesKept(c, ProcessList(data, pos, c, InvalidLocation, 0, size).p, r,
                 ProcessList(data, pos, r, InvalidLocation, 0, size).p, ListUse(data, pos, InvalidLocation, 0, size));
    } else if id != ID_BEXT {
      UnknownUses(data, pos, c, r, id, size, TopLevel);
      StagesKept(c, ProcessUnknown(data, pos, c, id, size, TopLevel).p, r,
                 ProcessUnknown(data, pos, r, id, size, TopLevel).p,
                 if id == ID_DATA || id == ID_FMT || id == ID_FACT then NO_USE
                 else Use(1, if pos + size <= |data| then 1 else 0, 1));
    }
  }

  lemma FixedMoves(data: seq<byte>, pos: nat, r: Parser)
    requires pos <= |data|
    ensures var i, a := ReadInst(data, pos, r), ReadAcid(data, pos, r);
      i.pos == pos + i.bytesRead && a.pos == pos + a.bytesRead && i.p.stage == r.stage && a.p.stage == r.stage
  {
    hide InstFrom, AcidFrom;
  }
}
