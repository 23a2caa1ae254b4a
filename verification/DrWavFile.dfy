/** The bytes of a finished WAV file, and what opening them gives back. */
module DrWavFile {
  import opened Bytes
  import opened DrWavMetadata
  import opened DrWavStreams
  import opened DrWavParserSpec
  import opened DrWavLeafRoundTrip
  import opened DrWavListRoundTrip
  import opened DrWavOpenSpec
  import opened DrWavWalks

  // ---------- the bytes ----------

  function GuidBytes(g: Ident): (s: seq<byte>)
    requires g.Guid?
    ensures |s| == 16
  {
    LE64(g.lo) + LE64(g.hi)
  }

  function FmtBytes(fmt: Fmt): (s: seq<byte>)
    ensures |s| == 16
  {
    Halves([fmt.formatTag, fmt.channels]) + Words([fmt.sampleRate, fmt.avgBytesPerSec])
    + Halves([fmt.blockAlign, fmt.bitsPerSample])
  }

  function PrologueSize(container: Container): nat {
    match container case Riff => 12 case W64 => 40 case Rf64 => 48
  }

  function PrologueBytes(container: Container, riffSize: u64, dataSize: u64): (s: seq<byte>)
    ensures |s| == PrologueSize(container)
  {
    match container
    case Riff => LE32(ID_RIFF) + LE32(ToU32(riffSize)) + LE32(ID_WAVE)
    case W64 => GuidBytes(W64_RIFF) + LE64(riffSize) + GuidBytes(W64_WAVE)
    case Rf64 =>
      LE32(ID_RF64) + LE32(U32_MAX) + LE32(ID_WAVE) + LE32(ID_DS64) + LE32(28)
      + LE64(riffSize) + LE64(dataSize) + LE64(0) + LE32(0)
  }

  function FmtChunkBytes(container: Container, fmt: Fmt): (s: seq<byte>)
    ensures |s| == if container == W64 then 40 else 24
  {
    if container == W64 then GuidBytes(W64_FMT) + LE64(40) + FmtBytes(fmt)
    else LE32(ID_FMT) + LE32(16) + FmtBytes(fmt)
  }

  function DataHeaderBytes(container: Container, dataSize: u64): (s: seq<byte>)
    ensures |s| == if container == W64 then 24 else 8
  {
    match container
    case Riff => LE32(ID_DATA) + LE32(Clamp32(dataSize))
    case W64 => GuidBytes(W64_DATA) + LE64(ToU64(24 + dataSize))
    case Rf64 => LE32(ID_DATA) + LE32(U32_MAX)
  }

  /** Metadata is written to RIFF and RF64 files only. */
  function MetadataBytes(container: Container, ms: seq<Metadata>): seq<byte> {
    if container == W64 then [] else Print(ms)
  }

  function HeaderBytes(container: Container, fmt: Fmt, ms: seq<Metadata>, riffSize: u64, dataSize: u64)
    : (s: seq<byte>)
    ensures |s| == DataStart(container, ms)
  {
    PrologueBytes(container, riffSize, dataSize) + FmtChunkBytes(container, fmt)
    + MetadataBytes(container, ms) + DataHeaderBytes(container, dataSize)
  }

  function DataStart(container: Container, ms: seq<Metadata>): nat {
    PrologueSize(container) + (if container == W64 then 40 + 24 else 24 + 8) + |MetadataBytes(container, ms)|
  }

  function PaddingSize(container: Container, n: nat): nat {
    if container == W64 then n % 8 else n % 2
  }

  /** drwav__riff_chunk_size_riff, _w64 and _rf64. */
  function RiffChunkSize(container: Container, ms: seq<Metadata>, n: u64): u64 {
    match container
    case Riff => Clamp32(4 + 24 + |Print(ms)| + 8 + n + n % 2)
    case W64 => ToU64(80 + 24 + n + n % 8)
    case Rf64 => Clamp32(4 + 36 + 24 + |Print(ms)| + 8 + n + n % 2)
  }

  function Clamp32(n: nat): u32 {
    if n > U32_MAX then U32_MAX else n
  }

  function FileBytes(container: Container, fmt: Fmt, ms: seq<Metadata>, riffSize: u64, dataSize: u64,
                     samples: seq<byte>): seq<byte>
  {
    HeaderBytes(container, fmt, ms, riffSize, dataSize) + samples + Zeros(PaddingSize(container, |samples|))
  }

  /** The file that the writer leaves behind: every size field patched. */
  function FinishedFile(container: Container, fmt: Fmt, ms: seq<Metadata>, samples: seq<byte>): seq<byte>
    requires |samples| < 0x1_0000_0000_0000_0000
  {
    FileBytes(container, fmt, ms, RiffChunkSize(container, ms, |samples|), |samples|, samples)
  }

  // ---------- where things stand in a file ----------

  lemma FileLayout(data: seq<byte>, container: Container, fmt: Fmt, ms: seq<Metadata>, riffSize: u64,
                   dataSize: u64, samples: seq<byte>)
    requires data == FileBytes(container, fmt, ms, riffSize, dataSize, samples)
    ensures var p := PrologueSize(container);
      var f := p + |FmtChunkBytes(container, fmt)|;
      var m := f + |MetadataBytes(container, ms)|;
      At(data, 0, PrologueBytes(container, riffSize, dataSize))
      && At(data, p, FmtChunkBytes(container, fmt))
      && At(data, f, MetadataBytes(container, ms))
      && At(data, m, DataHeaderBytes(container, dataSize))
      && At(data, DataStart(container, ms), samples)
      && |data| == DataStart(container, ms) + |samples| + PaddingSize(container, |samples|)
  {
    hide PrologueBytes, FmtChunkBytes, MetadataBytes, DataHeaderBytes, Zeros;
    var a, b, c, d := PrologueBytes(container, riffSize, dataSize), FmtChunkBytes(container, fmt),
                      MetadataBytes(container, ms), DataHeaderBytes(container, dataSize);
    assert At(data, 0, data);
    AtSplit3(data, 0, a + b + c + d, samples, Zeros(PaddingSize(container, |samples|)));
    AtSplit(data, 0, a + b + c, d);
    AtSplit3(data, 0, a, b, c);
  }

  lemma GuidBack(data: seq<byte>, pos: nat, g: Ident)
    requires g.Guid? && At(data, pos, GuidBytes(g))
    ensures Guid(U64At(data, pos), U64At(data, pos + 8)) == g
  {
    hide LE64, U64At;
    AtSplit(data, pos, LE64(g.lo), LE64(g.hi));
    LE64RoundTrip(data, pos, g.lo);
    LE64RoundTrip(data, pos + 8, g.hi);
  }

  lemma RiffPrologue(data: seq<byte>, riffSize: u64, dataSize: u64)
    requires At(data, 0, PrologueBytes(Riff, riffSize, dataSize))
    ensures ReadPrologue(data) == Prologue(Riff, 12, 0, 0)
  {
    hide LE32, U32At, U64At, ToU32;
    AtSplit3(data, 0, LE32(ID_RIFF), LE32(ToU32(riffSize)), LE32(ID_WAVE));
    LE32RoundTrip(data, 0, ID_RIFF);
    LE32RoundTrip(data, 8, ID_WAVE);
  }

  lemma W64Prologue(data: seq<byte>, riffSize: u64, dataSize: u64)
    requires riffSize >= 80 && At(data, 0, PrologueBytes(W64, riffSize, dataSize))
    ensures ReadPrologue(data) == Prologue(W64, 40, 0, 0)
  {
    hide LE64, U64At, U32At, GuidBytes;
    AtSplit3(data, 0, GuidBytes(W64_RIFF), LE64(riffSize), GuidBytes(W64_WAVE));
    GuidBack(data, 0, W64_RIFF);
    LE64RoundTrip(data, 16, riffSize);
    GuidBack(data, 24, W64_WAVE);
    LowWord(data, 0);
  }

  lemma LowWord(data: seq<byte>, pos: nat)
    requires pos + 8 <= |data|
    ensures U32At(data, pos) == U64At(data, pos) % 0x1_0000_0000
  {
    hide U32At;
  }

  lemma Rf64Prologue(data: seq<byte>, riffSize: u64, dataSize: u64)
    requires At(data, 0, PrologueBytes(Rf64, riffSize, dataSize))
    ensures ReadPrologue(data) == Prologue(Rf64, 48, dataSize, 0)
  {
    hide LE32, LE64, U32At, U64At, ReadDs64;
    var a := LE32(ID_RF64) + LE32(U32_MAX) + LE32(ID_WAVE);
    var b := LE32(ID_DS64) + LE32(28);
    var c := LE64(riffSize) + LE64(dataSize) + LE64(0);
    assert PrologueBytes(Rf64, riffSize, dataSize) == a + b + c + LE32(0);
    AtSplit(data, 0, a + b + c, LE32(0));
    AtSplit3(data, 0, a, b, c);
    AtSplit3(data, 0, LE32(ID_RF64), LE32(U32_MAX), LE32(ID_WAVE));
    LE32RoundTrip(data, 0, ID_RF64);
    LE32RoundTrip(data, 4, U32_MAX);
    LE32RoundTrip(data, 8, ID_WAVE);
    Ds64Back(data, 12, riffSize, dataSize);
  }

  lemma Ds64Back(data: seq<byte>, pos: nat, riffSize: u64, dataSize: u64)
    requires At(data, pos, LE32(ID_DS64) + LE32(28))
    requires At(data, pos + 8, LE64(riffSize) + LE64(dataSize) + LE64(0)) && pos + 36 <= |data|
    ensures ReadDs64(data, pos) == Prologue(Rf64, pos + 36, dataSize, 0)
  {
    hide LE32, LE64, U32At, U64At;
    AtSplit(data, pos, LE32(ID_DS64), LE32(28));
    LE32RoundTrip(data, pos, ID_DS64);
    LE32RoundTrip(data, pos + 4, 28);
    AtSplit3(data, pos + 8, LE64(riffSize), LE64(dataSize), LE64(0));
    LE64RoundTrip(data, pos + 16, dataSize);
    LE64RoundTrip(data, pos + 24, 0);
    assert ReadChunkHeader(Rf64, data, pos) == Header(FourCCId(ID_DS64), 28, 0, pos + 8);
  }

  lemma PrologueBack(container: Container, data: seq<byte>, riffSize: u64, dataSize: u64)
    requires At(data, 0, PrologueBytes(container, riffSize, dataSize)) && (container == W64 ==> riffSize >= 80)
    ensures ReadPrologue(data)
         == Prologue(container, PrologueSize(container), if container == Rf64 then dataSize else 0, 0)
  {
    hide PrologueBytes, ReadPrologue;
    match container {
      case Riff => RiffPrologue(data, riffSize, dataSize);
      case W64 => W64Prologue(data, riffSize, dataSize);
      case Rf64 => Rf64Prologue(data, riffSize, dataSize);
    }
  }

  // ---------- the first walk over a file ----------

  /** A format without the extension that the writer never emits. */
  predicate Plain(fmt: Fmt) {
    fmt.extendedSize == 0 && fmt.validBitsPerSample == 0 && fmt.channelMask == 0 &&
    fmt.subFormatLo == 0 && fmt.subFormatHi == 0
  }

  lemma FmtBack(data: seq<byte>, pos: nat, fmt: Fmt)
    requires Plain(fmt) && At(data, pos, FmtBytes(fmt))
    ensures FmtFrom(data, pos) == fmt
  {
    hide Halves, Words, U16At, U32At;
    var h, w, g := [fmt.formatTag, fmt.channels], [fmt.sampleRate, fmt.avgBytesPerSec],
                   [fmt.blockAlign, fmt.bitsPerSample];
    AtSplit3(data, pos, Halves(h), Words(w), Halves(g));
    HalfAt(data, pos, h, 0);
    HalfAt(data, pos, h, 1);
    WordAt(data, pos + 4, w, 0);
    WordAt(data, pos + 4, w, 1);
    HalfAt(data, pos + 12, g, 0);
    HalfAt(data, pos + 12, g, 1);
  }

  lemma FmtHeader(container: Container, data: seq<byte>, pos: nat, fmt: Fmt)
    requires At(data, pos, FmtChunkBytes(container, fmt))
    ensures var start := pos + if container == W64 then 24 else 8;
      var ident := if container == W64 then W64_FMT else FourCCId(ID_FMT);
      ReadChunkHeader(container, data, pos) == Header(ident, 16, 0, start) && At(data, start, FmtBytes(fmt))
  {
    hide FmtBytes, LE32, LE64, GuidBytes, U32At, U64At;
    if container == W64 {
      AtSplit3(data, pos, GuidBytes(W64_FMT), LE64(40), FmtBytes(fmt));
      GuidBack(data, pos, W64_FMT);
      LE64RoundTrip(data, pos + 16, 40);
    } else {
      AtSplit3(data, pos, LE32(ID_FMT), LE32(16), FmtBytes(fmt));
      LE32RoundTrip(data, pos, ID_FMT);
      LE32RoundTrip(data, pos + 4, 16);
    }
  }

  lemma ScanFmtChunk(container: Container, processing: bool, data: seq<byte>, s: Scan, fmt: Fmt)
    requires Plain(fmt) && s.pos <= |data| && At(data, s.pos, FmtChunkBytes(container, fmt))
    ensures ScanChunks(container, processing, data, s)
         == ScanChunks(container, processing, data,
              s.(pos := s.pos + |FmtChunkBytes(container, fmt)|, fmt := fmt, foundFmt := true))
  {
    hide FmtChunkBytes, FmtBytes, ReadChunkHeader, FmtFrom, ScanData, ScanFact, ProcessChunk, ScanChunks;
    ScanOn(container, processing, data, s);
    FmtHeader(container, data, s.pos, fmt);
    var start := s.pos + if container == W64 then 24 else 8;
    FmtBack(data, start, fmt);
  }

  lemma DataHeader(container: Container, data: seq<byte>, pos: nat, dataSize: u64)
    requires At(data, pos, DataHeaderBytes(container, dataSize))
    requires container == Riff ==> dataSize <= U32_MAX
    requires container == W64 ==> 24 + dataSize < 0x1_0000_0000_0000_0000
    ensures var size := if container == Rf64 then U32_MAX else dataSize;
      ReadChunkHeader(container, data, pos)
      == Header(if container == W64 then W64_DATA else FourCCId(ID_DATA), size,
                if container == W64 then size % 8 else size % 2, pos + if container == W64 then 24 else 8)
  {
    hide LE32, LE64, GuidBytes, U32At, U64At;
    match container {
      case W64 =>
        AtSplit(data, pos, GuidBytes(W64_DATA), LE64(24 + dataSize));
        GuidBack(data, pos, W64_DATA);
        LE64RoundTrip(data, pos + 16, 24 + dataSize);
      case Riff =>
        AtSplit(data, pos, LE32(ID_DATA), LE32(dataSize));
        LE32RoundTrip(data, pos, ID_DATA);
        LE32RoundTrip(data, pos + 4, dataSize);
      case Rf64 =>
        AtSplit(data, pos, LE32(ID_DATA), LE32(U32_MAX));
        LE32RoundTrip(data, pos, ID_DATA);
        LE32RoundTrip(data, pos + 4, U32_MAX);
    }
  }
}
