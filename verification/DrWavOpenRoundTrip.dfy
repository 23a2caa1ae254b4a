/** Opening a finished file: the format, the frames and the sample bytes come back, and so does the
    metadata of a RIFF file, in the order in which a file holds it. */
module DrWavOpenRoundTrip {
  import opened Bytes
  import opened DrWavMetadata
  import opened DrWavStreams
  import opened DrWavParserSpec
  import opened DrWavLeafRoundTrip
  import opened DrWavListRoundTrip
  import opened DrWavOpenSpec
  import opened DrWavWalks
  import opened DrWavFile

  /** The sizes for which the 32- and 64-bit size fields hold the truth. A RIFF file stays below
      4 GiB; so do the samples of an RF64 file whose metadata is wanted. */
  predicate WithinLimits(container: Container, ms: seq<Metadata>, n: nat, withMetadata: bool) {
    match container
    case Riff => 36 + |Print(ms)| + n + n % 2 <= U32_MAX
    case W64 => 104 + n + n % 8 < 0x1_0000_0000_0000_0000
    case Rf64 =>
      |Print(ms)| <= U32_MAX &&
      if withMetadata then n < U32_MAX else n < 0x1_0000_0000_0000_0000
  }

  /** What the opener checks about a format. */
  predicate ReaderAccepts(fmt: Fmt) {
    BasicallyValid(fmt) && BytesPerFrame(fmt) > 0 && !(IsCompressed(TranslatedTag(fmt)) && fmt.channels > 2)
  }

  /** The metadata of an RF64 file in memory can not be reached: the second walk tries to skip a data
      chunk that claims 0xFFFFFFFF bytes, and the memory stream refuses. */
  predicate MetadataUnreachable(container: Container, ms: seq<Metadata>, withMetadata: bool) {
    withMetadata && container == Rf64 && Partition(ms) != []
  }

  function Reopened(container: Container, fmt: Fmt, ms: seq<Metadata>, n: u64, withMetadata: bool): Opening {
    if !ReaderAccepts(fmt) || MetadataUnreachable(container, ms, withMetadata) then Rejected
    else
      var found := if withMetadata && container == Riff then Partition(ms) else [];
      var compressed := IsCompressed(TranslatedTag(fmt));
      Opened(container, fmt, TranslatedTag(fmt),
             if compressed then FrameCount(fmt, n, 0) else Div(n, BytesPerFrame(fmt)), DataStart(container, ms),
             if compressed then n else RoundDown(n, BytesPerFrame(fmt)), DataStart(container, ms), |found|,
             Completed(found), true)
  }

  // ---------- the end of the first walk ----------

  /** The state in which the first walk leaves its loop. */
  ghost predicate EndsWith(r: After, s: Scan, dataPos: nat, dataSize: u64) {
    r.Stop? && r.s == s.(pos := r.s.pos, foundData := true, dataPos := dataPos, dataSize := dataSize)
  }

  lemma ScanDataChunk(container: Container, processing: bool, data: seq<byte>, s: Scan, n: u64)
    requires s.pos <= |data| && At(data, s.pos, DataHeaderBytes(container, n)) && s.drift == 0
    requires container == Riff ==> n <= U32_MAX
    requires container == W64 ==> 24 + n < 0x1_0000_0000_0000_0000 && !processing
    requires container == Rf64 && processing ==> n < U32_MAX
    requires |data| == s.pos + |DataHeaderBytes(container, n)| + n + PaddingSize(container, n)
    ensures EndsWith(ScanChunks(container, processing, data, s), s,
                     s.pos + |DataHeaderBytes(container, n)|, if container == Rf64 then s.dataSize else n)
  {
    hide DataHeaderBytes, ReadChunkHeader, ScanFmt, ScanFact, ProcessChunk, ScanChunks;
    DataHeader(container, data, s.pos, n);
    ScanOn(container, processing, data, s);
    if processing && container == Riff {
      var r := ScanTurn(container, processing, data, s);
      ScanOn(container, processing, data, r.s);
      NoHeaderAtEnd(container, data);
    }
  }

  lemma NoHeaderAtEnd(container: Container, data: seq<byte>)
    ensures ReadChunkHeader(container, data, |data|) == NoHeader
  {
  }

  /** The first walk over a whole file. */
  lemma ScanFile(container: Container, processing: bool, data: seq<byte>, fmt: Fmt, ms: seq<Metadata>,
                 riffSize: u64, samples: seq<byte>, s: Scan)
    requires Plain(fmt) && AllPrintable(ms) && |samples| < 0x1_0000_0000_0000_0000
    requires WithinLimits(container, ms, |samples|, processing) && (container == W64 ==> !processing)
    requires data == FileBytes(container, fmt, ms, riffSize, |samples|, samples)
    requires s.pos == PrologueSize(container) && s.parser.stage == CountStage && s.drift == 0
    requires s.pos <= |data|
    ensures EndsWith(ScanChunks(container, processing, data, s),
                     s.(fmt := fmt, foundFmt := true, parser := Tally(processing, s.parser, Partition(ms))),
                     DataStart(container, ms), if container == Rf64 then s.dataSize else |samples|)
  {
    hide ScanChunks, AllPrintable, FmtChunkBytes, DataHeaderBytes, FileBytes, Print, Tally, Partition;
    FileLayout(data, container, fmt, ms, riffSize, |samples|, samples);
    ScanFmtChunk(container, processing, data, s, fmt);
    var s1 := s.(pos := s.pos + |FmtChunkBytes(container, fmt)|, fmt := fmt, foundFmt := true);
    if container == W64 {
      assert Tally(processing, s.parser, Partition(ms)) == s.parser by { TallyIdle(s.parser, Partition(ms)); }
      ScanDataChunk(container, processing, data, s1, |samples|);
    } else {
      ScanPrint(container, processing, data, s1, ms);
      var s2 := s1.(pos := s1.pos + |Print(ms)|, parser := Tally(processing, s.parser, Partition(ms)));
      ScanDataChunk(container, processing, data, s2, |samples|);
    }
  }

  lemma TallyIdle(p: Parser, ms: seq<Metadata>)
    ensures Tally(false, p, ms) == p
  {
  }

  // ---------- the second walk over a whole file ----------

  lemma DataHeaderWords(container: Container, data: seq<byte>, pos: nat, n: u64)
    requires container != W64 && At(data, pos, DataHeaderBytes(container, n))
    requires container == Riff ==> n <= U32_MAX
    ensures U32At(data, pos) == ID_DATA
    ensures U32At(data, pos + 4) == if container == Riff then n else U32_MAX
  {
    hide LE32, U32At;
    var size := if container == Riff then n else U32_MAX;
    AtSplit(data, pos, LE32(ID_DATA), LE32(size));
    LE32RoundTrip(data, pos, ID_DATA);
    LE32RoundTrip(data, pos + 4, size);
  }

  lemma FmtHeaderWords(container: Container, data: seq<byte>, pos: nat, fmt: Fmt)
    requires container != W64 && At(data, pos, FmtChunkBytes(container, fmt))
    ensures U32At(data, pos) == ID_FMT && U32At(data, pos + 4) == 16
  {
    hide LE32, U32At, FmtBytes;
    AtSplit3(data, pos, LE32(ID_FMT), LE32(16), FmtBytes(fmt));
    LE32RoundTrip(data, pos, ID_FMT);
    LE32RoundTrip(data, pos + 4, 16);
  }

  lemma RiffLayout(container: Container, data: seq<byte>, fmt: Fmt, ms: seq<Metadata>, riffSize: u64,
                   samples: seq<byte>)
    requires container != W64 && |samples| < U32_MAX
    requires data == FileBytes(container, fmt, ms, riffSize, |samples|, samples)
    ensures var pos := PrologueSize(container);
      At(data, pos, FmtChunkBytes(container, fmt)) && At(data, pos + 24, Print(ms))
      && At(data, pos + 24 + |Print(ms)|, DataHeaderBytes(container, |samples|))
      && |data| == pos + 32 + |Print(ms)| + |samples| + |samples| % 2
  {
    hide FmtChunkBytes, DataHeaderBytes, FileBytes, Print;
    FileLayout(data, container, fmt, ms, riffSize, |samples|, samples);
  }

  /** In a RIFF file the second walk rebuilds every object; in an RF64 file it fails on the data. */
  lemma ReadFile(container: Container, data: seq<byte>, fmt: Fmt, ms: seq<Metadata>, riffSize: u64,
                 samples: seq<byte>, p: Parser) returns (q: Parser)
    requires container != W64 && AllPrintable(ms) && |samples| < U32_MAX
    requires WithinLimits(container, ms, |samples|, true)
    requires data == FileBytes(container, fmt, ms, riffSize, |samples|, samples)
    requires PrologueSize(container) <= |data| && p.stage == ReadStage
    ensures ReadMetadata(container, data, PrologueSize(container), p)
         == if container == Rf64 then Failed else Parsed(q)
    ensures Reading(p, q, Partition(ms), ExtraSum(Partition(ms)))
  {
    hide ReadMetadata, AllPrintable, FmtChunkBytes, DataHeaderBytes, FileBytes, Print, Partition, ExtraSum,
         Reading, U32At, At;
    RiffLayout(container, data, fmt, ms, riffSize, samples);
    var pos := PrologueSize(container);
    FmtHeaderWords(container, data, pos, fmt);
    ReadIgnored(container, data, pos, p, ID_FMT, 16);
    q := ReadPrint(container, data, pos + 24, p, ms);
    var dataHeader := pos + 24 + |Print(ms)|;
    DataHeaderWords(container, data, dataHeader, |samples|);
    ReadIgnored(container, data, dataHeader, q, ID_DATA, if container == Riff then |samples| else U32_MAX);
    ReadAtEnd(container, data, q);
  }

  lemma ReadAtEnd(container: Container, data: seq<byte>, p: Parser)
    ensures ReadMetadata(container, data, |data|, p) == Parsed(p)
  {
    hide ReadMetadata;
    ReadOn(container, data, |data|, p);
  }

  // ---------- opening ----------

  lemma StartReadingRoom(p: Parser, n: nat, extra: nat)
    requires p.inBounds && p.metadataCount == n && p.extraCapacity == extra
    ensures Room(StartReading(p), n, extra) && StartReading(p).stage == ReadStage
    ensures StartReading(p).slots == [] && StartReading(p).metadataCount == n
  {
  }

  lemma FramesOfSamples(n: nat, bpf: nat)
    requires bpf > 0
    ensures (n - n % bpf) / bpf == n / bpf
  {
    assert n - n % bpf == bpf * (n / bpf);
    DivUnique(n - n % bpf, bpf, n / bpf, 0);
  }

  lemma ConcludeFile(container: Container, data: seq<byte>, fmt: Fmt, ms: seq<Metadata>, n: u64,
                     withMetadata: bool, s: Scan, reading: bool, p: Parser)
    requires BasicallyValid(fmt) && WithinLimits(container, ms, n, withMetadata)
    requires !MetadataUnreachable(container, ms, withMetadata)
    requires s.fmt == fmt && s.dataPos == DataStart(container, ms) <= |data| && s.dataSize == n && s.factCount == 0
    requires reading == (withMetadata && container == Riff && Partition(ms) != []) && p.inBounds
    requires reading ==> p.slots == Completed(Partition(ms)) && p.metadataCount == |Partition(ms)|
    ensures Conclude(container, data, s, reading, p) == Reopened(container, fmt, ms, n, withMetadata)
  {
    hide Partition, Completed, DataStart, Print;
    assert Completed([]) == [];
    if BytesPerFrame(fmt) > 0 {
      FramesOfSamples(n, BytesPerFrame(fmt));
    }
  }

  /** The second walk, when there is metadata to read, and what follows it. */
  lemma FinishReading(container: Container, data: seq<byte>, fmt: Fmt, ms: seq<Metadata>,
                      riffSize: u64, samples: seq<byte>, s: Scan)
    requires Plain(fmt) && AllPrintable(ms) && |samples| < U32_MAX
    requires WithinLimits(container, ms, |samples|, true) && BasicallyValid(fmt) && container != W64
    requires data == FileBytes(container, fmt, ms, riffSize, |samples|, samples)
    requires s.parser.metadataCount == |Partition(ms)| > 0 && s.parser.inBounds
    requires s.parser.extraCapacity == ExtraSum(Partition(ms))
    requires s.fmt == fmt && s.foundFmt && s.foundData && s.dataPos == DataStart(container, ms) <= |data|
    requires s.dataSize == |samples| && s.factCount == 0 && PrologueSize(container) <= |data|
    ensures Finish(container, true, data, s, PrologueSize(container))
         == Reopened(container, fmt, ms, |samples|, true)
  {
    hide AllPrintable, FileBytes, Print, ReadMetadata, StartReading, Partition, ExtraSum, Reading, Completed,
         Conclude, DataStart, WithinLimits, BytesPerFrame, Room;
    var p := StartReading(s.parser);
    StartReadingRoom(s.parser, |Partition(ms)|, ExtraSum(Partition(ms)));
    var q := ReadFile(container, data, fmt, ms, riffSize, samples, p);
    ReadingDone(p, q, Partition(ms), ExtraSum(Partition(ms)));
    if container == Riff {
      ConcludeFile(container, data, fmt, ms, |samples|, true, s, true, q);
    }
  }

  /** Everything after the first walk. */
  lemma FinishFile(container: Container, withMetadata: bool, data: seq<byte>, fmt: Fmt, ms: seq<Metadata>,
                   riffSize: u64, samples: seq<byte>, s: Scan, arena: Arena)
    requires Plain(fmt) && AllPrintable(ms) && |samples| < 0x1_0000_0000_0000_0000
    requires WithinLimits(container, ms, |samples|, withMetadata)
    requires data == FileBytes(container, fmt, ms, riffSize, |samples|, samples)
    requires var processing := withMetadata && container != W64;
      s.parser == Tally(processing, Parser(CountStage, 0, 0, arena, [], 0, true), Partition(ms))
    requires s.fmt == fmt && s.foundFmt && s.foundData && s.dataPos == DataStart(container, ms)
    requires s.dataSize == |samples| && s.factCount == 0
    requires PrologueSize(container) <= |data| && DataStart(container, ms) <= |data|
    ensures Finish(container, withMetadata && container != W64, data, s, PrologueSize(container))
         == Reopened(container, fmt, ms, |samples|, withMetadata)
  {
    hide AllPrintable, FileBytes, Print, ReadMetadata, StartReading, Partition, ExtraSum, Completed, Conclude,
         DataStart, BytesPerFrame;
    if BasicallyValid(fmt) {
      if withMetadata && container != W64 && Partition(ms) != [] {
        FinishReading(container, data, fmt, ms, riffSize, samples, s);
      } else {
        ConcludeFile(container, data, fmt, ms, |samples|, withMetadata, s, false, s.parser);
      }
    }
  }

  lemma ReadingDone(p: Parser, q: Parser, ms: seq<Metadata>, extra: nat)
    requires Reading(p, q, ms, extra) && Room(p, |ms|, extra) && p.slots == []
    ensures q.slots == Completed(ms) && q.inBounds && q.metadataCount == p.metadataCount
  {
    assert [] + Completed(ms) == Completed(ms);
  }

  /** The file round trip: whatever plain format the file was written with, opening it succeeds
      exactly when the reader accepts that format and the metadata can be reached, and then gives back the
      format fields, the frame count, where the sample bytes are and how many of them make whole frames, and
      the metadata within the arena sized by the first walk. A format tag that truncation has turned into
      a compressed one is taken for that. */
  lemma OpenFile(container: Container, fmt: Fmt, ms: seq<Metadata>, riffSize: u64, samples: seq<byte>,
                 withMetadata: bool, arena: Arena)
    requires Plain(fmt) && AllPrintable(ms) && |samples| < 0x1_0000_0000_0000_0000
    requires WithinLimits(container, ms, |samples|, withMetadata) && (container == W64 ==> riffSize >= 80)
    ensures Open(FileBytes(container, fmt, ms, riffSize, |samples|, samples), withMetadata, arena)
         == Reopened(container, fmt, ms, |samples|, withMetadata)
  {
    hide AllPrintable, FileBytes, Print, ScanChunks, Finish, FmtChunkBytes, DataHeaderBytes, PrologueBytes,
         ReadPrologue, Reopened, Tally, Partition, DataStart;
    var data := FileBytes(container, fmt, ms, riffSize, |samples|, samples);
    FileLayout(data, container, fmt, ms, riffSize, |samples|, samples);
    PrologueBack(container, data, riffSize, |samples|);
    var processing := withMetadata && container != W64;
    var s := StartScan(ReadPrologue(data), arena);
    ScanFile(container, processing, data, fmt, ms, riffSize, samples, s);
    FinishFile(container, withMetadata, data, fmt, ms, riffSize, samples,
               ScanChunks(container, processing, data, s).s, arena);
  }

  /** The sample bytes stand where opening says they do. */
  lemma SamplesInPlace(container: Container, fmt: Fmt, ms: seq<Metadata>, riffSize: u64, samples: seq<byte>)
    requires |samples| < 0x1_0000_0000_0000_0000
    ensures At(FileBytes(container, fmt, ms, riffSize, |samples|, samples), DataStart(container, ms), samples)
  {
    hide FileBytes, PrologueBytes, FmtChunkBytes, MetadataBytes, DataHeaderBytes;
    FileLayout(FileBytes(container, fmt, ms, riffSize, |samples|, samples), container, fmt, ms, riffSize,
               |samples|, samples);
  }
}
