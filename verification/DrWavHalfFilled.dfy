/** A file whose reported number of objects is not the number of those filled: a cue chunk with room for a
    point and a count of none is counted, begun and given up. */
module DrWavHalfFilled {
  import opened Bytes
  import opened DrWavMetadata
  import opened DrWavStreams
  import opened DrWavParserSpec
  import opened DrWavLeafRoundTrip
  import opened DrWavOpenSpec
  import opened DrWavWalks
  import opened DrWavFile
  import opened DrWavOpenRoundTrip

  function EmptyCue(): (s: seq<byte>)
    ensures |s| == 28
  {
    LE32(0) + Zeros(24)
  }

  lemma CueCounted(data: seq<byte>, pos: nat, p: Parser)
    requires pos <= |data| && p.stage == CountStage
    ensures var q := ProcessChunk(data, pos, p, ID_CUE, 28).p;
      q.metadataCount == p.metadataCount + 1 && q.stage == p.stage && q.inBounds == p.inBounds
  {
  }

  lemma CueGivenUp(data: seq<byte>, pos: nat, p: Parser)
    requires At(data, pos, EmptyCue()) && p.stage == ReadStage
    ensures ProcessChunk(data, pos, p, ID_CUE, 28) == Step(pos + 4, p.TouchSlot(), 4)
  {
    hide LE32, U32At, Zeros, ReadPoints;
    AtSplit(data, pos, LE32(0), Zeros(24));
    LE32RoundTrip(data, pos, 0);
    ReadWord(data, pos);
  }

  function CueFile(fmt: Fmt, riffSize: u64, samples: seq<byte>): seq<byte>
    requires |samples| <= U32_MAX
  {
    PrologueBytes(Riff, riffSize, |samples|) + FmtChunkBytes(Riff, fmt) + Chunk(ID_CUE, EmptyCue())
    + DataHeaderBytes(Riff, |samples|) + samples
  }

  lemma CueLayout(data: seq<byte>, fmt: Fmt, riffSize: u64, samples: seq<byte>)
    requires |samples| <= U32_MAX && data == CueFile(fmt, riffSize, samples)
    ensures |Chunk(ID_CUE, EmptyCue())| == 36 && At(data, 0, PrologueBytes(Riff, riffSize, |samples|))
    ensures At(data, 12, FmtChunkBytes(Riff, fmt)) && At(data, 36, Chunk(ID_CUE, EmptyCue()))
    ensures At(data, 72, DataHeaderBytes(Riff, |samples|)) && |data| == 80 + |samples|
  {
    hide PrologueBytes, FmtChunkBytes, EmptyCue, DataHeaderBytes;
    var a, b, c, d := PrologueBytes(Riff, riffSize, |samples|), FmtChunkBytes(Riff, fmt), Chunk(ID_CUE, EmptyCue()),
                      DataHeaderBytes(Riff, |samples|);
    assert At(data, 0, a + b + c + d + samples);
    hide Chunk;
    AtSplit3(data, 0, a + b + c, d, samples);
    AtSplit3(data, 0, a, b, c);
  }

  lemma ScanCueFile(data: seq<byte>, s: Scan, fmt: Fmt, n: u32)
    requires Plain(fmt) && s.pos == 12 && s.drift == 0 && s.parser.stage == CountStage
    requires |Chunk(ID_CUE, EmptyCue())| == 36 && At(data, 12, FmtChunkBytes(Riff, fmt))
    requires At(data, 36, Chunk(ID_CUE, EmptyCue())) && At(data, 72, DataHeaderBytes(Riff, n))
    requires |data| == 80 + n && n % 2 == 0
    ensures var p := ProcessChunk(data, 44, s.parser, ID_CUE, 28).p;
      EndsWith(ScanChunks(Riff, true, data, s), s.(fmt := fmt, foundFmt := true, parser := p), 80, n)
  {
    hide ScanChunks, FmtChunkBytes, Chunk, EmptyCue, DataHeaderBytes, ProcessChunk;
    ScanFmtChunk(Riff, true, data, s, fmt);
    var s1 := s.(pos := 36, fmt := fmt, foundFmt := true);
    HeaderOfChunk(Riff, data, 36, ID_CUE, EmptyCue());
    ScanOther(Riff, true, data, s1, ID_CUE, EmptyCue());
    ScanDataChunk(Riff, true, data, s1.(pos := 72, parser := ProcessChunk(data, 44, s.parser, ID_CUE, 28).p), n);
  }

  lemma ReadCueFile(data: seq<byte>, p: Parser, fmt: Fmt, n: u32)
    requires p.stage == ReadStage && |Chunk(ID_CUE, EmptyCue())| == 36 && At(data, 12, FmtChunkBytes(Riff, fmt))
    requires At(data, 36, Chunk(ID_CUE, EmptyCue())) && At(data, 72, DataHeaderBytes(Riff, n))
    requires |data| == 80 + n && n % 2 == 0
    ensures ReadMetadata(Riff, data, 12, p) == Parsed(p.TouchSlot())
  {
    hide ReadMetadata, FmtChunkBytes, Chunk, EmptyCue, DataHeaderBytes, ProcessChunk, U32At;
    FmtHeaderWords(Riff, data, 12, fmt);
    ReadIgnored(Riff, data, 12, p, ID_FMT, 16);
    HeaderOfChunk(Riff, data, 36, ID_CUE, EmptyCue());
    CueGivenUp(data, 44, p);
    ReadOther(Riff, data, 36, p, ID_CUE, EmptyCue());
    DataHeaderWords(Riff, data, 72, n);
    ReadIgnored(Riff, data, 72, p.TouchSlot(), ID_DATA, n);
    ReadAtEnd(Riff, data, p.TouchSlot());
  }

  /** Such a file opens, and reports one object of which nothing has been filled in. */
  lemma HalfFilled(fmt: Fmt, riffSize: u64, samples: seq<byte>, arena: Arena)
    requires Plain(fmt) && ReaderAccepts(fmt) && |samples| < U32_MAX && |samples| % 2 == 0
    ensures var o := Open(CueFile(fmt, riffSize, samples), true, arena);
      o.Opened? && o.metadataCount == 1 && o.metadata == []
  {
    hide CueFile, ReadPrologue, ScanChunks, ReadMetadata, StartReading, BytesPerFrame, TranslatedTag, FrameCount,
         PrologueBytes, FmtChunkBytes, Chunk, EmptyCue, DataHeaderBytes, ProcessChunk;
    var data, n := CueFile(fmt, riffSize, samples), |samples|;
    CueLayout(data, fmt, riffSize, samples);
    PrologueBack(Riff, data, riffSize, n);
    var s := StartScan(ReadPrologue(data), arena);
    ScanCueFile(data, s, fmt, n);
    var p := ProcessChunk(data, 44, s.parser, ID_CUE, 28).p;
    CueCounted(data, 44, s.parser);
    ReadingStarts(p);
    ReadCueFile(data, StartReading(p), fmt, n);
  }
}
