/** A file whose metadata runs over the arena: a sampler chunk of bare 36 bytes that claims a loop is not
    counted by the first walk, but takes a slot in the second. */
module DrWavOverrun {
  import opened Bytes
  import opened DrWavMetadata
  import opened DrWavStreams
  import opened DrWavParserSpec
  import opened DrWavLeafRoundTrip
  import opened DrWavListRoundTrip
  import opened DrWavOpenSpec
  import opened DrWavWalks
  import opened DrWavFile
  import opened DrWavOpenRoundTrip

  function BareSmpl(h: SmplHeader): (s: seq<byte>)
    ensures |s| == SMPL_BYTES
  {
    Words(SmplWords(h, 1, 0))
  }

  lemma BareWords(data: seq<byte>, pos: nat, h: SmplHeader)
    requires At(data, pos, BareSmpl(h))
    ensures U32At(data, pos + 28) == 1 && U32At(data, pos + 32) == 0
  {
    hide Words, U32At;
    WordAt(data, pos, SmplWords(h, 1, 0), 7);
    WordAt(data, pos, SmplWords(h, 1, 0), 8);
  }

  lemma NotCounted(data: seq<byte>, pos: nat, p: Parser, h: SmplHeader)
    requires At(data, pos, BareSmpl(h)) && p.stage == CountStage
    ensures ProcessChunk(data, pos, p, ID_SMPL, SMPL_BYTES).p == p
  {
    hide BareSmpl, U32At;
    BareWords(data, pos, h);
    ReadWord(data, pos + 28);
  }

  lemma Accepted(data: seq<byte>, pos: nat, p: Parser, h: SmplHeader)
    requires At(data, pos, BareSmpl(h)) && p.stage == ReadStage
    ensures ProcessChunk(data, pos, p, ID_SMPL, SMPL_BYTES)
         == Step(pos + SMPL_BYTES, p.TouchSlot().Accept(Incomplete), SMPL_BYTES)
  {
    hide U32At, BareSmpl, Words, SmplHeaderFrom;
    SmplHeaderBack(data, pos, h, 1, 0) by { assert BareSmpl(h) == Words(SmplWords(h, 1, 0)) by { BareIs(h); } }
  }

  lemma BareIs(h: SmplHeader)
    ensures BareSmpl(h) == Words(SmplWords(h, 1, 0))
  {
  }

  function OverrunFile(fmt: Fmt, riffSize: u64, h: SmplHeader, inst: Metadata, samples: seq<byte>): seq<byte>
    requires inst.Inst? && |samples| <= U32_MAX
  {
    PrologueBytes(Riff, riffSize, |samples|) + FmtChunkBytes(Riff, fmt) + Chunk(ID_SMPL, BareSmpl(h))
    + Piece(Top, inst) + DataHeaderBytes(Riff, |samples|) + samples
  }

  lemma OverrunLayout(data: seq<byte>, fmt: Fmt, riffSize: u64, h: SmplHeader, inst: Metadata, samples: seq<byte>)
    requires inst.Inst? && |samples| <= U32_MAX && data == OverrunFile(fmt, riffSize, h, inst, samples)
    ensures |Chunk(ID_SMPL, BareSmpl(h))| == 44 && |Piece(Top, inst)| == 16
    ensures At(data, 0, PrologueBytes(Riff, riffSize, |samples|)) && At(data, 12, FmtChunkBytes(Riff, fmt))
    ensures At(data, 36, Chunk(ID_SMPL, BareSmpl(h))) && At(data, 80, Piece(Top, inst))
    ensures At(data, 96, DataHeaderBytes(Riff, |samples|)) && |data| == 104 + |samples|
  {
    hide PrologueBytes, FmtChunkBytes, BareSmpl, DataHeaderBytes, Body;
    var a, b, c, d, e := PrologueBytes(Riff, riffSize, |samples|), FmtChunkBytes(Riff, fmt),
                         Chunk(ID_SMPL, BareSmpl(h)), Piece(Top, inst), DataHeaderBytes(Riff, |samples|);
    assert At(data, 0, a + b + c + d + e + samples);
    hide Chunk, Piece;
    AtSplit3(data, 0, a + b + c + d, e, samples);
    AtSplit(data, 0, a + b + c, d);
    AtSplit3(data, 0, a, b, c);
  }

  lemma InstFacts(inst: Metadata)
    requires inst.Inst?
    ensures Belongs(Top, inst) && Printable(inst) && Piece(Top, inst) == Chunk(ID_INST, Body(inst)) && |Body(inst)| == 7
  {
  }

  /** The first walk counts one object. */
  lemma ScanOverrun(data: seq<byte>, s: Scan, fmt: Fmt, h: SmplHeader, inst: Metadata, n: u32)
    requires Plain(fmt) && inst.Inst? && s.pos == 12 && s.drift == 0 && s.parser.stage == CountStage
    requires |Chunk(ID_SMPL, BareSmpl(h))| == 44 && |Piece(Top, inst)| == 16
    requires At(data, 12, FmtChunkBytes(Riff, fmt)) && At(data, 36, Chunk(ID_SMPL, BareSmpl(h)))
    requires At(data, 80, Piece(Top, inst)) && At(data, 96, DataHeaderBytes(Riff, n)) && |data| == 104 + n && n % 2 == 0
    ensures EndsWith(ScanChunks(Riff, true, data, s),
                     s.(fmt := fmt, foundFmt := true, parser := Tally(true, s.parser, [inst])), 104, n)
  {
    hide ScanChunks, FmtChunkBytes, Chunk, BareSmpl, Piece, DataHeaderBytes, Tally, ProcessChunk, Body, Belongs,
         Printable;
    ScanFmtChunk(Riff, true, data, s, fmt);
    var s1 := s.(pos := 36, fmt := fmt, foundFmt := true);
    HeaderOfChunk(Riff, data, 36, ID_SMPL, BareSmpl(h));
    NotCounted(data, 44, s.parser, h);
    ScanOther(Riff, true, data, s1, ID_SMPL, BareSmpl(h));
    InstFacts(inst);
    ScanOneTop(Riff, true, data, s1.(pos := 80), inst);
    ScanDataChunk(Riff, true, data, s1.(pos := 96, parser := Tally(true, s.parser, [inst])), n);
  }

  /** The second one fills two slots. */
  lemma ReadOverrun(data: seq<byte>, p: Parser, fmt: Fmt, h: SmplHeader, inst: Metadata, n: u32)
    requires inst.Inst? && p.stage == ReadStage && p.metadataCount == 1 && p.slots == []
    requires |Chunk(ID_SMPL, BareSmpl(h))| == 44 && |Piece(Top, inst)| == 16
    requires At(data, 12, FmtChunkBytes(Riff, fmt)) && At(data, 36, Chunk(ID_SMPL, BareSmpl(h)))
    requires At(data, 80, Piece(Top, inst)) && At(data, 96, DataHeaderBytes(Riff, n)) && |data| == 104 + n && n % 2 == 0
    ensures ReadMetadata(Riff, data, 12, p)
         == Parsed(p.(slots := [Incomplete, Complete(inst)], inBounds := false))
  {
    hide ReadMetadata, FmtChunkBytes, Chunk, BareSmpl, Piece, DataHeaderBytes, ProcessChunk, Body, U32At, Reading;
    FmtHeaderWords(Riff, data, 12, fmt);
    ReadIgnored(Riff, data, 12, p, ID_FMT, 16);
    HeaderOfChunk(Riff, data, 36, ID_SMPL, BareSmpl(h));
    Accepted(data, 44, p, h);
    ReadOther(Riff, data, 36, p, ID_SMPL, BareSmpl(h));
    var q := p.TouchSlot().Accept(Incomplete);
    InstFacts(inst);
    HeaderOfChunk(Riff, data, 80, ID_INST, Body(inst));
    InstTaken(data, 88, q, inst);
    ReadOther(Riff, data, 80, q, ID_INST, Body(inst));
    var q2 := q.TouchSlot().Accept(Complete(inst));
    assert q2 == p.(slots := [Incomplete, Complete(inst)], inBounds := false);
    DataHeaderWords(Riff, data, 96, n);
    ReadIgnored(Riff, data, 96, q2, ID_DATA, n);
    ReadAtEnd(Riff, data, q2);
  }

  lemma InstTaken(data: seq<byte>, pos: nat, p: Parser, inst: Metadata)
    requires inst.Inst? && p.stage == ReadStage && At(data, pos, Body(inst))
    ensures ProcessChunk(data, pos, p, ID_INST, 7) == Step(pos + 7, p.TouchSlot().Accept(Complete(inst)), 7)
  {
    ReadsPiece(data, pos, Body(inst));
    assert InstFrom(Body(inst)) == inst;
  }

  /** Such a file opens with two objects in an array made for one. */
  lemma Overruns(fmt: Fmt, riffSize: u64, h: SmplHeader, inst: Metadata, samples: seq<byte>, arena: Arena)
    requires Plain(fmt) && ReaderAccepts(fmt) && inst.Inst? && |samples| < U32_MAX && |samples| % 2 == 0
    ensures var o := Open(OverrunFile(fmt, riffSize, h, inst, samples), true, arena);
      o.Opened? && o.metadataCount == 1 && o.metadata == [Incomplete, Complete(inst)] && !o.inBounds
  {
    hide OverrunFile, ReadPrologue, ScanChunks, ReadMetadata, StartReading, BytesPerFrame, TranslatedTag, FrameCount,
         PrologueBytes, FmtChunkBytes, Chunk, BareSmpl, Piece, DataHeaderBytes, Tally;
    var data, n := OverrunFile(fmt, riffSize, h, inst, samples), |samples|;
    OverrunLayout(data, fmt, riffSize, h, inst, samples);
    PrologueBack(Riff, data, riffSize, n);
    var s := StartScan(ReadPrologue(data), arena);
    ScanOverrun(data, s, fmt, h, inst, n);
    var p := Tally(true, s.parser, [inst]);
    TallyCounts(s.parser, [inst]);
    ReadingStarts(p);
    ReadOverrun(data, StartReading(p), fmt, h, inst, n);
  }
}
