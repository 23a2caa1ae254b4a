/** What dr_wav's metadata parser does with one chunk, as functions of the stream data, the read
    position and the parser's state. The same walk runs twice: the counting stage adds up objects
    and memory, the reading stage fills slots of the arena that was sized from the sums. */
module DrWavParserSpec {
  import opened Bytes
  import opened DrWavMetadata
  import opened DrWavStreams

  datatype Stage = CountStage | ReadStage

  /** A finished slot of the metadata array. A slot is Incomplete when the parser accepts an object
      whose variable part it never read. */
  datatype Slot = Complete(metadata: Metadata) | Incomplete

  /** Where the arena starts in memory and how large one metadata object is. */
  datatype Arena = Arena(start: nat, objectBytes: nat)

  const METADATA_ALIGNMENT := 8
  const LOOP_OBJECT_BYTES := 24       // sizeof(drwav_smpl_loop)
  const CUE_POINT_OBJECT_BYTES := 24  // sizeof(drwav_cue_point)

  /** drwav__metadata_parser: `slots` are the finished ones, `dataCursor` is the address of the next
      free byte, and `inBounds` says that no allocation and no slot so far left the arena. */
  datatype Parser = Parser(
    stage: Stage, metadataCount: nat, extraCapacity: nat,
    arena: Arena, slots: seq<Slot>, dataCursor: nat, inBounds: bool)
  {
    function Capacity(): nat {
      arena.objectBytes * metadataCount + extraCapacity
    }

    /** drwav__metadata_get_memory. */
    function GetMemory(size: nat, align: nat): Parser {
      var address := AlignUp(dataCursor, align);
      this.(dataCursor := address + size,
            inBounds := inBounds && address + size <= arena.start + Capacity())
    }

    /** drwav__metadata_request_extra_memory_for_stage_2. */
    function RequestExtra(bytes: nat, align: nat): Parser {
      this.(extraCapacity := extraCapacity + bytes + if align > 0 then align - 1 else 0)
    }

    /** A write to pMetadata[metadataCursor]. */
    function TouchSlot(): Parser {
      this.(inBounds := inBounds && |slots| < metadataCount)
    }

    function Counted(): Parser {
      this.(metadataCount := metadataCount + 1)
    }

    function Accept(slot: Slot): Parser {
      this.(slots := slots + [slot])
    }

    function AcceptIf(accepted: bool, slot: Slot): Parser {
      if accepted then Accept(slot) else this
    }
  }

  function AlignUp(address: nat, align: nat): (r: nat)
    ensures address <= r
    ensures align > 0 ==> r < address + align
  {
    if align > 0 && address % align != 0 then address + (align - address % align) else address
  }

  /** The state after some reading: where the stream is, and how much was read. */
  datatype Step = Step(pos: nat, p: Parser, bytesRead: nat)

  // ---------- smpl and cue ----------

  function LoopFrom(b: seq<byte>): SmplLoop
    requires |b| == SMPL_LOOP_BYTES
  {
    SmplLoop(U32At(b, 0), U32At(b, 4), U32At(b, 8), U32At(b, 12), U32At(b, 16), U32At(b, 20))
  }

  function PointFrom(b: seq<byte>): CuePoint
    requires |b| == CUE_POINT_BYTES
  {
    CuePoint(U32At(b, 0), U32At(b, 4), U32At(b, 8), U32At(b, 12), U32At(b, 16), U32At(b, 20))
  }

  /** The loops that could be read in full, and the bytes read for them. */
  function ReadLoops(data: seq<byte>, pos: nat, count: nat): (r: (seq<SmplLoop>, nat))
    requires pos <= |data|
    ensures |r.0| <= count && pos + r.1 <= |data|
    decreases count
  {
    if count == 0 then ([], 0)
    else
      var b := ReadAt(data, pos, SMPL_LOOP_BYTES);
      if |b| < SMPL_LOOP_BYTES then ([], |b|)
      else
        var r := ReadLoops(data, pos + SMPL_LOOP_BYTES, count - 1);
        ([LoopFrom(b)] + r.0, SMPL_LOOP_BYTES + r.1)
  }

  function ReadPoints(data: seq<byte>, pos: nat, count: nat): (r: (seq<CuePoint>, nat))
    requires pos <= |data|
    ensures |r.0| <= count && pos + r.1 <= |data|
    decreases count
  {
    if count == 0 then ([], 0)
    else
      var b := ReadAt(data, pos, CUE_POINT_BYTES);
      if |b| < CUE_POINT_BYTES then ([], |b|)
      else
        var r := ReadPoints(data, pos + CUE_POINT_BYTES, count - 1);
        ([PointFrom(b)] + r.0, CUE_POINT_BYTES + r.1)
  }

  function SmplHeaderFrom(h: seq<byte>): SmplHeader
    requires |h| == SMPL_BYTES
  {
    SmplHeader(U32At(h, 0), U32At(h, 4), U32At(h, 8), U32At(h, 12), U32At(h, 16), U32At(h, 20), U32At(h, 24))
  }

  function CountSmpl(data: seq<byte>, pos: nat, p: Parser, size: nat): (r: Step)
    requires pos <= |data| && SMPL_BYTES <= size
    ensures r.pos <= |data|
  {
    if pos + 28 > |data| then Step(pos, p, 0)
    else
      var b := ReadAt(data, pos + 28, 4);
      if |b| < 4 then Step(pos + 28 + |b|, p, 28 + |b|)
      else
        var loopCount := U32At(b, 0);
        if loopCount != (size - SMPL_BYTES) / SMPL_LOOP_BYTES then Step(pos + 32, p, 32)
        else
          var c := ReadAt(data, pos + 32, 4);
          if |c| < 4 then Step(pos + 32 + |c|, p, 32 + |c|)
          else
            Step(pos + 36,
                 p.Counted()
                  .RequestExtra(LOOP_OBJECT_BYTES * loopCount, METADATA_ALIGNMENT)
                  .RequestExtra(U32At(c, 0), 1),
                 36)
  }

  function ReadSmpl(data: seq<byte>, pos: nat, p: Parser, size: nat): (r: Step)
    requires pos <= |data| && SMPL_BYTES <= size
    ensures r.pos <= |data|
  {
    var h := ReadAt(data, pos, SMPL_BYTES);
    if |h| < SMPL_BYTES then Step(pos + |h|, p, |h|)
    else
      var p1 := p.TouchSlot();
      var loopCount, dataSize := U32At(h, 28), U32At(h, 32);
      if loopCount != (size - SMPL_BYTES) / SMPL_LOOP_BYTES then
        Step(pos + SMPL_BYTES, p1.AcceptIf(SMPL_BYTES == size, Incomplete), SMPL_BYTES)
      else
        var p2 := p1.GetMemory(LOOP_OBJECT_BYTES * loopCount, METADATA_ALIGNMENT);
        var loops := ReadLoops(data, pos + SMPL_BYTES, loopCount);
        var pos2 := pos + SMPL_BYTES + loops.1;
        var p3 := if dataSize > 0 then p2.GetMemory(dataSize, 1) else p2;
        var s := ReadAt(data, pos2, dataSize);
        var total := SMPL_BYTES + loops.1 + |s|;
        var slot := if |loops.0| == loopCount && |s| == dataSize
          then Complete(Smpl(SmplHeaderFrom(h), loops.0, s)) else Incomplete;
        Step(pos2 + |s|, p3.AcceptIf(total == size, slot), total)
  }

  function CountCue(pos: nat, p: Parser, size: nat): Step
    requires CUE_BYTES <= size
  {
    var cueCount := (size - CUE_BYTES) / CUE_POINT_BYTES;
    Step(pos, p.Counted().RequestExtra(CUE_POINT_OBJECT_BYTES * cueCount, METADATA_ALIGNMENT), 0)
  }

  function ReadCue(data: seq<byte>, pos: nat, p: Parser, size: nat): (r: Step)
    requires pos <= |data| && CUE_BYTES <= size
    ensures r.pos <= |data|
  {
    var h := ReadAt(data, pos, CUE_BYTES);
    if |h| < CUE_BYTES then Step(pos + |h|, p, |h|)
    else
      var p1 := p.TouchSlot();
      var count := U32At(h, 0);
      if count != (size - CUE_BYTES) / CUE_POINT_BYTES then
        Step(pos + CUE_BYTES, p1.AcceptIf(CUE_BYTES == size, Incomplete), CUE_BYTES)
      else
        var p2 := p1.GetMemory(CUE_POINT_OBJECT_BYTES * count, METADATA_ALIGNMENT);
        var points := ReadPoints(data, pos + CUE_BYTES, count);
        var total := CUE_BYTES + points.1;
        var slot := if |points.0| == count then Complete(Cue(points.0)) else Incomplete;
        Step(pos + total, p2.AcceptIf(total == size, slot), total)
  }

  // ---------- fixed-size chunks ----------

  function InstFrom(b: seq<byte>): Metadata
    requires |b| == INST_BYTES
  {
    Inst(ToI8(b[0]), ToI8(b[1]), ToI8(b[2]), ToI8(b[3]), ToI8(b[4]), ToI8(b[5]), ToI8(b[6]))
  }

  function AcidFrom(b: seq<byte>): Metadata
    requires |b| == ACID_BYTES
  {
    Acid(U32At(b, 0), U16At(b, 4), U16At(b, 6), U32At(b, 8), U32At(b, 12), U16At(b, 16), U16At(b, 18),
         U32At(b, 20))
  }

  function ReadInst(data: seq<byte>, pos: nat, p: Parser): (r: Step)
    requires pos <= |data|
    ensures r.pos <= |data|
  {
    var b := ReadAt(data, pos, INST_BYTES);
    if |b| < INST_BYTES then Step(pos + |b|, p, |b|)
    else Step(pos + INST_BYTES, p.TouchSlot().Accept(Complete(InstFrom(b))), INST_BYTES)
  }

  function ReadAcid(data: seq<byte>, pos: nat, p: Parser): (r: Step)
    requires pos <= |data|
    ensures r.pos <= |data|
  {
    var b := ReadAt(data, pos, ACID_BYTES);
    if |b| < ACID_BYTES then Step(pos + |b|, p, |b|)
    else Step(pos + ACID_BYTES, p.TouchSlot().Accept(Complete(AcidFrom(b))), ACID_BYTES)
  }

  // ---------- strings and unknown chunks ----------

  /** A fixed part of `fixed` bytes, then a string with its terminator: the shape of labels, notes
      and labelled regions. `make` builds the object from the fixed part and the text. */
  function ReadTextChunk(data: seq<byte>, pos: nat, p: Parser, size: nat, fixed: nat,
                         make: (seq<byte>, seq<byte>) -> Metadata): (r: Step)
    requires pos <= |data| && fixed <= size
    ensures r.pos <= |data| && r.bytesRead <= size
  {
    var b := ReadAt(data, pos, fixed);
    if |b| < fixed then Step(pos + |b|, p, |b|)
    else
      var p1 := p.TouchSlot();
      var n := size - fixed;
      if n == 0 then Step(pos + fixed, p1.Accept(Complete(make(b, []))), fixed)
      else
        var p2 := p1.GetMemory(n, 1);
        var s := ReadAt(data, pos + fixed, n);
        var slot := if |s| == n then Complete(make(b, s[..n - 1])) else Incomplete;
        Step(pos + fixed + |s|, p2.AcceptIf(|s| == n, slot), fixed + |s|)
  }

  function MakeLabel(kind: LabelKind): (seq<byte>, seq<byte>) -> Metadata {
    (b: seq<byte>, text: seq<byte>) =>
      if |b| == LABEL_OR_NOTE_BYTES then LabelOrNote(kind, U32At(b, 0), text) else LabelOrNote(kind, 0, text)
  }

  function MakeRegion(): (seq<byte>, seq<byte>) -> Metadata {
    (b: seq<byte>, text: seq<byte>) =>
      if |b| == LABELLED_TEXT_BYTES then
        LabelledCueRegion(U32At(b, 0), U32At(b, 4), U32At(b, 8), U16At(b, 12), U16At(b, 14), U16At(b, 16),
                          U16At(b, 18), text)
      else LabelledCueRegion(0, 0, 0, 0, 0, 0, 0, text)
  }

  function ProcessTextChunk(data: seq<byte>, pos: nat, p: Parser, size: nat, fixed: nat,
                            make: (seq<byte>, seq<byte>) -> Metadata): (r: Step)
    requires pos <= |data|
    ensures r.pos <= |data| && r.bytesRead <= size
  {
    if size < fixed then Step(pos, p, 0)
    else if p.stage == CountStage then Step(pos, p.Counted().RequestExtra(size - fixed, 1), 0)
    else ReadTextChunk(data, pos, p, size, fixed, make)
  }

  function ProcessInfoText(data: seq<byte>, pos: nat, p: Parser, size: nat, kind: InfoKind): (r: Step)
    requires pos <= |data|
    ensures r.pos <= |data| && r.bytesRead <= size
  {
    if p.stage == CountStage then Step(pos, p.Counted().RequestExtra(size, 1), 0)
    else
      var p1 := p.TouchSlot();
      if size == 0 then Step(pos, p1.Accept(Complete(InfoText(kind, []))), 0)
      else
        var p2 := p1.GetMemory(size, 1);
        var s := ReadAt(data, pos, size);
        var slot := if |s| == size then Complete(InfoText(kind, s[..size - 1])) else Incomplete;
        Step(pos + |s|, p2.AcceptIf(|s| == size, slot), |s|)
  }

  function ProcessUnknown(data: seq<byte>, pos: nat, p: Parser, id: FourCC, size: nat, location: Location)
    : (r: Step)
    requires pos <= |data|
    ensures r.pos <= |data| && r.bytesRead <= size
  {
    if location == InvalidLocation || id == ID_DATA || id == ID_FMT || id == ID_FACT then Step(pos, p, 0)
    else if p.stage == CountStage then Step(pos, p.Counted().RequestExtra(size, 1), 0)
    else
      var p1 := p.TouchSlot().GetMemory(size, 1);
      var s := ReadAt(data, pos, size);
      Step(pos + |s|, p1.AcceptIf(|s| == size, Complete(Unknown(id, location, s))), |s|)
  }

  // ---------- lists ----------

  function InfoKindOf(id: FourCC): (r: (bool, InfoKind)) {
    if id == ID_ISFT then (true, Software)
    else if id == ID_ICOP then (true, Copyright)
    else if id == ID_INAM then (true, Title)
    else if id == ID_IART then (true, Artist)
    else if id == ID_ICMT then (true, Comment)
    else if id == ID_ICRD then (true, Date)
    else if id == ID_IGNR then (true, Genre)
    else if id == ID_IPRD then (true, Album)
    else if id == ID_ITRK then (true, TrackNumber)
    else (false, Software)
  }

  /** One subchunk, after its header. */
  function ProcessSubchunk(data: seq<byte>, pos: nat, p: Parser, id: FourCC, size: nat, listType: Location)
    : (r: Step)
    requires pos <= |data|
    ensures r.pos <= |data| && r.bytesRead <= size
  {
    if id == ID_LABL then ProcessTextChunk(data, pos, p, size, LABEL_OR_NOTE_BYTES, MakeLabel(LabelText))
    else if id == ID_NOTE then ProcessTextChunk(data, pos, p, size, LABEL_OR_NOTE_BYTES, MakeLabel(NoteText))
    else if id == ID_LTXT then ProcessTextChunk(data, pos, p, size, LABELLED_TEXT_BYTES, MakeRegion())
    else if InfoKindOf(id).0 then ProcessInfoText(data, pos, p, size, InfoKindOf(id).1)
    else ProcessUnknown(data, pos, p, id, size, listType)
  }

  /** A 64-bit distance cast to a 32-bit int. */
  function ToInt32(x: nat): int {
    if x % 0x1_0000_0000 <= INT_MAX then x % 0x1_0000_0000 else x % 0x1_0000_0000 - 0x1_0000_0000
  }

  datatype Turn = Turn(goOn: bool, pos: nat, p: Parser, bytesRead: nat)

  /** A subchunk, whatever of it was left unread, and its padding. */
  function SubchunkTurn(data: seq<byte>, pos: nat, p: Parser, id: FourCC, subSize: u32, listType: Location)
    : (t: Turn)
    requires pos <= |data|
    ensures t.pos <= |data|
  {
    var sub := ProcessSubchunk(data, pos, p, id, subSize, listType);
    var unread := subSize - sub.bytesRead;
    var pos1 := sub.pos + ToInt32(unread);
    if unread > 0 && !(0 <= pos1 <= |data|) then Turn(false, sub.pos, sub.p, sub.bytesRead)
    else if subSize % 2 == 1 && pos1 + 1 > |data| then Turn(false, pos1, sub.p, subSize)
    else Turn(true, pos1 + subSize % 2, sub.p, subSize + subSize % 2)
  }

  datatype Item = Item(goOn: bool, pos: nat, p: Parser, listType: Location, bytesRead: nat)

  /** What stands next in a list: one of the two list tags, or a subchunk. */
  function ListItem(data: seq<byte>, pos: nat, p: Parser, listType: Location, bytesRead: nat): (r: Item)
    requires pos <= |data|
    ensures r.pos <= |data| && (r.goOn ==> bytesRead < r.bytesRead)
  {
    var idBytes := ReadAt(data, pos, 4);
    var pos1, read1 := pos + |idBytes|, bytesRead + |idBytes|;
    if |idBytes| < 4 then Item(false, pos1, p, listType, read1)
    else
      var id := U32At(idBytes, 0);
      if id == ID_ADTL then Item(true, pos1, p, InsideAdtlList, read1)
      else if id == ID_INFO then Item(true, pos1, p, InsideInfoList, read1)
      else
        var sizeBytes := ReadAt(data, pos1, 4);
        var pos2, read2 := pos1 + |sizeBytes|, read1 + |sizeBytes|;
        if |sizeBytes| < 4 then Item(false, pos2, p, listType, read2)
        else
          var turn := SubchunkTurn(data, pos2, p, id, U32At(sizeBytes, 0), listType);
          Item(turn.goOn, turn.pos, turn.p, listType, read2 + turn.bytesRead)
  }

  /** The list walk, from `bytesRead` bytes into a list chunk of `size` bytes. */
  function ProcessList(data: seq<byte>, pos: nat, p: Parser, listType: Location, bytesRead: nat, size: nat)
    : (r: Step)
    requires pos <= |data|
    ensures r.pos <= |data|
    decreases size - bytesRead
  {
    if bytesRead >= size then Step(pos, p, bytesRead)
    else
      var i := ListItem(data, pos, p, listType, bytesRead);
      if !i.goOn then Step(i.pos, i.p, i.bytesRead)
      else ProcessList(data, i.pos, i.p, i.listType, i.bytesRead, size)
  }

  /** drwav__metadata_process_chunk, after the chunk's header. */
  function ProcessChunk(data: seq<byte>, pos: nat, p: Parser, id: FourCC, size: nat): (r: Step)
    requires pos <= |data|
    ensures r.pos <= |data|
  {
    if id == ID_SMPL then
      if size < SMPL_BYTES then Step(pos, p, 0)
      else if p.stage == CountStage then CountSmpl(data, pos, p, size)
      else ReadSmpl(data, pos, p, size)
    else if id == ID_INST then
      if size != INST_BYTES then Step(pos, p, 0)
      else if p.stage == CountStage then Step(pos, p.Counted(), 0)
      else ReadInst(data, pos, p)
    else if id == ID_ACID then
      if size != ACID_BYTES then Step(pos, p, 0)
      else if p.stage == CountStage then Step(pos, p.Counted(), 0)
      else ReadAcid(data, pos, p)
    else if id == ID_CUE then
      if size < CUE_BYTES then Step(pos, p, 0)
      else if p.stage == CountStage then CountCue(pos, p, size)
      else ReadCue(data, pos, p, size)
    else if id == ID_BEXT then Step(pos, p, 0)
    else if id == ID_LIST || id == ID_list then ProcessList(data, pos, p, InvalidLocation, 0, size)
    else ProcessUnknown(data, pos, p, id, size, TopLevel)
  }

  /** drwav__metadata_alloc: the arena begins with the array of metadata objects. */
  function StartReading(p: Parser): Parser {
    p.(stage := ReadStage, slots := [], dataCursor := p.arena.start)
     .GetMemory(p.arena.objectBytes * p.metadataCount, 1)
  }

  lemma ReadingStarts(p: Parser)
    ensures var r := StartReading(p);
      r.stage == ReadStage && r.slots == [] && r.metadataCount == p.metadataCount && r.arena == p.arena
      && r.extraCapacity == p.extraCapacity && r.dataCursor + p.extraCapacity == r.arena.start + r.Capacity()
      && r.inBounds == p.inBounds
  {
  }
}
