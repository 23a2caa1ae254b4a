/** The whole file round trip: what was asked of the writer against what the reader reports. */
module DrWavRoundTrip {
  import opened Bytes
  import opened DrWavMetadata
  import opened DrWavParserSpec
  import opened DrWavListRoundTrip
  import opened DrWavLeafRoundTrip
  import opened DrWavOpenSpec
  import opened DrWavWalks
  import opened DrWavFile
  import opened DrWavOpenRoundTrip
  import opened DrWavWriter
  import DrWavReader

  /** Opening a finished file, whatever format the writer accepted: it opens exactly when the truncated
      format suits the reader and the metadata can be reached. */
  lemma WriteThenOpen(f: DataFormat, ms: seq<Metadata>, samples: seq<byte>, withMetadata: bool, arena: Arena)
    requires PreinitAccepts(f) && AllPrintable(ms)
    requires |samples| < 0x1_0000_0000_0000_0000 && WithinLimits(f.container, ms, |samples|, withMetadata)
    ensures Open(FinishedFile(f.container, FmtOf(f), ms, samples), withMetadata, arena)
         == Reopened(f.container, FmtOf(f), ms, |samples|, withMetadata)
  {
    hide *;
    PlainFmt(f);
    RiffSizeEnough(f.container, ms, |samples|, withMetadata);
    FinishedIsFile(f.container, FmtOf(f), ms, samples);
    OpenFile(f.container, FmtOf(f), ms, RiffChunkSize(f.container, ms, |samples|), samples, withMetadata, arena);
  }

  lemma PlainFmt(f: DataFormat)
    ensures Plain(FmtOf(f))
  {
  }

  lemma RiffSizeEnough(container: Container, ms: seq<Metadata>, n: u64, withMetadata: bool)
    requires WithinLimits(container, ms, n, withMetadata)
    ensures container == W64 ==> RiffChunkSize(container, ms, n) >= 80
  {
    hide Print;
  }

  /** A format that survives the 16-bit fields and that the reader takes: whole bytes a sample. */
  predicate Portable(f: DataFormat) {
    PreinitAccepts(f) && f.format < 0x1_0000 && 0 < f.sampleRate <= MAX_SAMPLE_RATE && 0 < f.channels <= MAX_CHANNELS
    && 0 < f.bitsPerSample <= MAX_BITS_PER_SAMPLE && f.bitsPerSample % 8 == 0
    && (f.format == FORMAT_ALAW || f.format == FORMAT_MULAW ==> f.bitsPerSample == 8)
  }

  function SampleBytes(f: DataFormat): nat { f.bitsPerSample / 8 }

  lemma PortableFmt(f: DataFormat)
    requires Portable(f)
    ensures var fmt := FmtOf(f);
      ReaderAccepts(fmt) && !IsCompressed(TranslatedTag(fmt))
      && BytesPerFrame(fmt) == f.channels * SampleBytes(f) == fmt.blockAlign
      && fmt.formatTag == f.format && fmt.channels == f.channels && fmt.sampleRate == f.sampleRate
      && fmt.bitsPerSample == f.bitsPerSample
  {
    hide FmtOf;
    var b := SampleBytes(f);
    assert f.bitsPerSample == 8 * b && b <= 8;
    ProductBound(f.channels, b);
    EightTimes(f.channels, b);
    SmallFields(f);
    FrameSize(f.channels * b);
  }

  lemma EightTimes(channels: nat, b: nat)
    ensures channels * (8 * b) == 8 * (channels * b) == (8 * b) * channels
  {
  }

  lemma SmallFields(f: DataFormat)
    requires f.format < 0x1_0000 && f.channels < 0x1_0000 && f.bitsPerSample < 0x1_0000
    ensures var fmt := FmtOf(f);
      fmt.formatTag == f.format && fmt.channels == f.channels && fmt.sampleRate == f.sampleRate
      && fmt.bitsPerSample == f.bitsPerSample
      && fmt.blockAlign == ToU16(ToU32(f.channels * f.bitsPerSample) / 8)
  {
    var bytesPerSec := ToU32(f.bitsPerSample * f.sampleRate * f.channels) / 8;
    var bits := ToU32(f.channels * f.bitsPerSample) / 8;
  }

  lemma FrameSize(bytes: nat)
    requires bytes <= 8 * MAX_CHANNELS
    ensures ToU16(ToU32(8 * bytes) / 8) == bytes && 8 * bytes / 8 == bytes
  {
  }

  lemma ProductBound(channels: nat, b: nat)
    requires 0 < channels <= MAX_CHANNELS && 0 < b <= 8
    ensures 0 < channels * b <= 8 * MAX_CHANNELS
  {
    MulMonotone(channels, 1, b);
    MulMonotone(channels, b, 8);
  }

  /** The round trip a caller sees: a portable format and whole frames come back unchanged, with every
      frame counted, the samples in their place, and a RIFF file's metadata as its stable partition. */
  lemma RoundTrip(f: DataFormat, ms: seq<Metadata>, samples: seq<byte>, frames: nat, withMetadata: bool, arena: Arena)
    requires Portable(f) && AllPrintable(ms) && |samples| == frames * (f.channels * SampleBytes(f))
    requires |samples| < 0x1_0000_0000_0000_0000 && WithinLimits(f.container, ms, |samples|, withMetadata)
    requires !MetadataUnreachable(f.container, ms, withMetadata)
    ensures var data := FinishedFile(f.container, FmtOf(f), ms, samples);
      var o := Open(data, withMetadata, arena);
      o.Opened? && o.container == f.container && o.inBounds
      && o.fmt.formatTag == f.format && o.fmt.channels == f.channels && o.fmt.sampleRate == f.sampleRate
      && o.fmt.bitsPerSample == f.bitsPerSample
      && o.totalPCMFrameCount == frames && o.dataChunkDataSize == |samples|
      && At(data, o.dataChunkDataPos, samples) && o.streamPos == o.dataChunkDataPos
      && (withMetadata && f.container == Riff ==> o.metadata == Completed(Partition(ms)))
  {
    hide *;
    PortableFmt(f);
    FrameBytesPositive(f);
    WriteThenOpen(f, ms, samples, withMetadata, arena) by { PortableAccepted(f); }
    SamplesInPlace(f.container, FmtOf(f), ms, RiffChunkSize(f.container, ms, |samples|), samples);
    FinishedIsFile(f.container, FmtOf(f), ms, samples);
    ReopenedWhole(f.container, FmtOf(f), ms, |samples|, f.channels * SampleBytes(f), frames, withMetadata);
  }

  lemma PortableAccepted(f: DataFormat)
    requires Portable(f)
    ensures PreinitAccepts(f) && f.format < 0x1_0000
  {
  }

  lemma FinishedIsFile(container: Container, fmt: Fmt, ms: seq<Metadata>, samples: seq<byte>)
    requires |samples| < 0x1_0000_0000_0000_0000
    ensures FinishedFile(container, fmt, ms, samples)
         == FileBytes(container, fmt, ms, RiffChunkSize(container, ms, |samples|), |samples|, samples)
  {
    hide FileBytes, RiffChunkSize;
  }

  lemma FrameBytesPositive(f: DataFormat)
    requires Portable(f)
    ensures f.channels * SampleBytes(f) > 0
  {
    ProductBound(f.channels, SampleBytes(f));
  }

  /** What is reported for whole frames. */
  lemma ReopenedWhole(container: Container, fmt: Fmt, ms: seq<Metadata>, n: u64, k: nat, frames: nat,
                      withMetadata: bool)
    requires ReaderAccepts(fmt) && !IsCompressed(TranslatedTag(fmt)) && BytesPerFrame(fmt) == k > 0
    requires n == frames * k
    requires !MetadataUnreachable(container, ms, withMetadata)
    ensures var o := Reopened(container, fmt, ms, n, withMetadata);
      o.Opened? && o.container == container && o.inBounds && o.fmt == fmt
      && o.totalPCMFrameCount == frames && o.dataChunkDataSize == n
      && o.dataChunkDataPos == DataStart(container, ms) == o.streamPos
      && (withMetadata && container == Riff ==> o.metadata == Completed(Partition(ms)))
  {
    hide BytesPerFrame, Partition, Completed, DataStart, MetadataUnreachable;
    WholeFramesOnly(frames, k);
  }

  /** Reading all frames from where opening says the samples are gives the samples back. */
  lemma ReadBack(data: seq<byte>, dataPos: nat, samples: seq<byte>, frames: nat, k: nat)
    requires At(data, dataPos, samples) && |samples| == frames * k
    ensures dataPos + frames * k <= |data| && DrWavReader.FrameBytes(data, dataPos, k, 0, frames) == samples
  {
  }

  /** INFO strings come after top-level chunks, whatever the order in which they were given. */
  lemma TopLevelFirst(title: Metadata, inst: Metadata)
    requires title.InfoText? && inst.Inst?
    ensures Completed(Partition([title, inst])) == [Complete(inst), Complete(title)]
  {
    SelectPair(Top, title, inst);
    SelectPair(Info, title, inst);
    SelectPair(Adtl, title, inst);
    assert Partition([title, inst]) == [inst, title];
  }

  lemma SelectPair(part: Part, a: Metadata, b: Metadata)
    ensures Select(part, [a, b])
         == (if Belongs(part, a) then [a] else []) + (if Belongs(part, b) then [b] else [])
  {
    hide Belongs;
    assert [b][1..] == [];
    assert Select(part, [b]) == if Belongs(part, b) then [b] else [];
    assert [a, b][1..] == [b];
  }

  const SMALL_FORMAT := DataFormat(Riff, 1, 1, 8000, 16)

  function SmallList(): seq<Metadata> { [InfoText(Title, [72, 105]), Inst(60, 0, 0, 0, 127, 1, 127)] }

  /** A file with metadata to which all of this applies. */
  lemma SmallFile(arena: Arena)
    ensures var ms := SmallList();
      var o := Open(FinishedFile(Riff, FmtOf(SMALL_FORMAT), ms, [1, 2, 3, 4]), true, arena);
      o.Opened? && o.totalPCMFrameCount == 2 && o.metadata == [Complete(ms[1]), Complete(ms[0])]
  {
    hide Open, FinishedFile, FmtOf, Completed, Partition, At, AllPrintable, WithinLimits, Print;
    SmallInputs();
    TopLevelFirst(SmallList()[0], SmallList()[1]);
    assert SmallList() == [SmallList()[0], SmallList()[1]];
    RoundTrip(SMALL_FORMAT, SmallList(), [1, 2, 3, 4], 2, true, arena);
  }

  /** The same list in an RF64 file: the file opens without its metadata and is rejected with it. */
  lemma SmallRf64File(arena: Arena)
    ensures var data := FinishedFile(Rf64, FmtOf(SMALL_FORMAT), SmallList(), [1, 2, 3, 4]);
      Open(data, true, arena) == Rejected
      && var o := Open(data, false, arena); o.Opened? && o.totalPCMFrameCount == 2 && o.dataChunkDataSize == 4
  {
    hide Open, FinishedFile, FmtOf, Completed, Partition, At, AllPrintable, WithinLimits, Print;
    var f := SMALL_FORMAT.(container := Rf64);
    assert FmtOf(f) == FmtOf(SMALL_FORMAT) by { SameFmt(f, SMALL_FORMAT); }
    SmallInputs();
    TopLevelFirst(SmallList()[0], SmallList()[1]);
    assert SmallList() == [SmallList()[0], SmallList()[1]];
    assert Partition(SmallList()) != [] by { CompletedNothing(); }
    WriteThenOpen(f, SmallList(), [1, 2, 3, 4], true, arena);
    RoundTrip(f, SmallList(), [1, 2, 3, 4], 2, false, arena);
  }

  lemma SameFmt(f: DataFormat, g: DataFormat)
    requires f.(container := g.container) == g
    ensures FmtOf(f) == FmtOf(g)
  {
  }

  lemma CompletedNothing()
    ensures Completed([]) == []
  {
  }

  lemma SmallInputs()
    ensures AllPrintable(SmallList()) && WithinLimits(Riff, SmallList(), 4, true)
    ensures |Print(SmallList())| <= 100
    ensures WithinLimits(Rf64, SmallList(), 4, true) && WithinLimits(Rf64, SmallList(), 4, false)
  {
    hide Print, Pieces, Piece, Chunk, Body;
    var title, inst := SmallList()[0], SmallList()[1];
    assert SmallList() == [title, inst];
    PiecesPair(Top, title, inst);
    PiecesPair(Info, title, inst);
    PiecesPair(Adtl, title, inst);
    PrintBound(SmallList());
  }

  lemma PiecesPair(part: Part, a: Metadata, b: Metadata)
    ensures Pieces(part, [a, b]) == Piece(part, a) + Piece(part, b)
  {
    hide Piece;
    assert [b][1..] == [];
    assert Pieces(part, [b]) == Piece(part, b);
    assert [a, b][1..] == [b];
  }

  lemma PrintBound(ms: seq<Metadata>)
    ensures |Print(ms)| <= |Pieces(Top, ms)| + |Pieces(Info, ms)| + |Pieces(Adtl, ms)| + 24
  {
    hide Pieces, LE32, Has, DeclaredPieces;
  }

  lemma WholeFramesOnly(frames: nat, k: nat)
    requires k > 0
    ensures (frames * k) / k == frames && (frames * k) % k == 0
  {
    DivUnique(frames * k, k, frames, 0);
  }
}
