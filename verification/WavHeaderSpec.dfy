/** WebRTC's WAV header: what its writer puts into a file and what its reader makes of one, with the
    16- and 32-bit truncations of the fields written out. */
module WavHeaderSpec {
  import opened Bytes

  datatype WavFormat = Pcm | IeeeFloat | ALaw | MuLaw

  const PCM_HEADER_SIZE: nat := 44
  const FLOAT_HEADER_SIZE: nat := 58
  const CHUNK_HEADER_SIZE: nat := 8
  const FMT_PCM_SIZE: u32 := 16
  const FMT_FLOAT_SIZE: u32 := 18

  // ---------- four-character codes ----------

  type Char8 = c: char | c as int < 0x100 witness 'a'

  function PackFourCC(a: Char8, b: Char8, c: Char8, d: Char8): u32 {
    a as int + b as int * 0x100 + c as int * 0x1_0000 + d as int * 0x100_0000
  }

  function CharOf(b: byte): Char8 { b as char }

  function ReadFourCC(x: u32): (s: seq<Char8>)
    ensures |s| == 4
  {
    [CharOf(x % 0x100), CharOf(x / 0x100 % 0x100), CharOf(x / 0x1_0000 % 0x100), CharOf(x / 0x100_0000)]
  }

  lemma Digits(a: byte, b: byte, c: byte, d: byte)
    ensures var x := a as int + b as int * 0x100 + c as int * 0x1_0000 + d as int * 0x100_0000;
      x % 0x100 == a && x / 0x100 % 0x100 == b && x / 0x1_0000 % 0x100 == c && x / 0x100_0000 == d
  {
    var x1, x2 := b as int + c as int * 0x100 + d as int * 0x1_0000, c as int + d as int * 0x100;
    var x := a as int + x1 * 0x100;
    DivUnique(x, 0x100, x1, a);
    DivUnique(x1, 0x100, x2, b);
    DivUnique(x, 0x1_0000, x2, a as int + b as int * 0x100);
    DivUnique(x2, 0x100, d, c);
    DivUnique(x, 0x100_0000, d, a as int + b as int * 0x100 + c as int * 0x1_0000);
  }

  lemma FromDigits(x: u32)
    ensures x == x % 0x100 + x / 0x100 % 0x100 * 0x100 + x / 0x1_0000 % 0x100 * 0x1_0000 + x / 0x100_0000 * 0x100_0000
  {
    var x0, q1 := x % 0x100, x / 0x100;
    var x1, q2 := q1 % 0x100, q1 / 0x100;
    var x2, q3 := q2 % 0x100, q2 / 0x100;
    assert x == 0x100 * q1 + x0 && q1 == 0x100 * q2 + x1 && q2 == 0x100 * q3 + x2;
    DivUnique(x, 0x1_0000, q2, 0x100 * x1 + x0);
    DivUnique(x, 0x100_0000, q3, 0x1_0000 * x2 + 0x100 * x1 + x0);
  }

  lemma CharOfInt(b: byte, c: Char8)
    ensures CharOf(b) == c <==> b == c as int
  {
  }

  /** Comparing codes as text is comparing them as numbers. */
  lemma FourCCText(x: u32, a: Char8, b: Char8, c: Char8, d: Char8)
    ensures ReadFourCC(x) == [a, b, c, d] <==> x == PackFourCC(a, b, c, d)
  {
    var x0, x1, x2, x3 := x % 0x100, x / 0x100 % 0x100, x / 0x1_0000 % 0x100, x / 0x100_0000;
    FromDigits(x);
    Digits(a as int, b as int, c as int, d as int);
    CharOfInt(x0, a);
    CharOfInt(x1, b);
    CharOfInt(x2, c);
    CharOfInt(x3, d);
    hide CharOf;
    assert ReadFourCC(x) == [a, b, c, d] <==> x0 == a as int && x1 == b as int && x2 == c as int && x3 == d as int;
  }

  const RIFF: u32 := PackFourCC('R', 'I', 'F', 'F')
  const WAVE: u32 := PackFourCC('W', 'A', 'V', 'E')
  const FMT: u32 := PackFourCC('f', 'm', 't', ' ')
  const FACT: u32 := PackFourCC('f', 'a', 'c', 't')
  const DATA: u32 := PackFourCC('d', 'a', 't', 'a')

  // ---------- parameters ----------

  type int32 = x: int | -0x8000_0000 <= x < 0x8000_0000

  datatype Params = Params(numChannels: nat, sampleRate: int32, format: WavFormat, bytesPerSample: nat, numSamples: nat)

  function FormatBytesPerSample(format: WavFormat): nat {
    match format case Pcm => 2 case IeeeFloat => 4 case _ => 1
  }

  predicate SampleSizeFits(format: WavFormat, bytesPerSample: nat) {
    match format
    case Pcm => bytesPerSample == 1 || bytesPerSample == 2
    case IeeeFloat => bytesPerSample == 4
    case _ => bytesPerSample == 1
  }

  /** CheckWavParameters. */
  predicate ParametersOk(p: Params) {
    p.numChannels != 0 && p.sampleRate > 0 && p.bytesPerSample != 0
    && p.sampleRate <= U32_MAX && p.numChannels <= 0xFFFF && p.bytesPerSample * 8 <= 0xFFFF
    && p.sampleRate * p.numChannels * p.bytesPerSample <= U32_MAX
    && SampleSizeFits(p.format, p.bytesPerSample)
    && p.numSamples <= (U32_MAX - (PCM_HEADER_SIZE - CHUNK_HEADER_SIZE)) / p.bytesPerSample
    && p.numSamples % p.numChannels == 0
  }

  function HeaderSize(format: WavFormat): nat { if format == Pcm then PCM_HEADER_SIZE else FLOAT_HEADER_SIZE }

  function RiffChunkSize(payload: nat, headerSize: nat): u32 { ToU32(payload + headerSize - CHUNK_HEADER_SIZE) }

  function ByteRate(numChannels: nat, sampleRate: int, bytesPerSample: nat): u32 {
    ToU32(numChannels * sampleRate * bytesPerSample)
  }

  function BlockAlign(numChannels: nat, bytesPerSample: nat): u16 { ToU16(numChannels * bytesPerSample) }

  /** The header field, and back: other values stop the program. */
  function FormatField(format: WavFormat): u16 {
    match format case Pcm => 1 case IeeeFloat => 3 case ALaw => 6 case MuLaw => 7
  }

  datatype Option<T> = None | Some(value: T)

  function FormatOfField(x: u16): Option<WavFormat> {
    if x == 1 then Some(Pcm) else if x == 3 then Some(IeeeFloat) else None
  }

  // ---------- the bytes of a file ----------

  function ChunkBytes(id: u32, body: seq<byte>): seq<byte>
    requires |body| <= U32_MAX
  {
    LE32(id) + LE32(|body|) + body
  }

  function FmtBody(p: Params): (s: seq<byte>)
    ensures |s| == 16
  {
    LE16(FormatField(p.format)) + LE16(ToU16(p.numChannels)) + LE32(ToU32(p.sampleRate))
    + LE32(ByteRate(p.numChannels, p.sampleRate, p.bytesPerSample))
    + LE16(BlockAlign(p.numChannels, p.bytesPerSample)) + LE16(ToU16(8 * p.bytesPerSample))
  }

  /** The float header has an empty extension and a fact chunk. */
  function FmtChunk(p: Params): seq<byte> {
    ChunkBytes(FMT, if p.format == Pcm then FmtBody(p) else FmtBody(p) + LE16(0))
  }

  function Payload(p: Params): nat { p.bytesPerSample * p.numSamples }

  function RiffHeader(riffSize: u32): seq<byte> { LE32(RIFF) + LE32(riffSize) + LE32(WAVE) }

  function DataHeader(p: Params): seq<byte> { LE32(DATA) + LE32(ToU32(Payload(p))) }

  function FactChunk(p: Params): seq<byte> {
    if p.format == Pcm then [] else ChunkBytes(FACT, LE32(ToU32(p.numChannels * p.numSamples)))
  }

  function HeaderBytes(p: Params): seq<byte> {
    RiffHeader(RiffChunkSize(Payload(p), HeaderSize(p.format))) + FmtChunk(p) + FactChunk(p) + DataHeader(p)
  }

  lemma HeaderLength(p: Params)
    requires p.format == Pcm || p.format == IeeeFloat
    ensures |HeaderBytes(p)| == HeaderSize(p.format)
  {
    hide FmtBody;
  }

  // ---------- reading ----------

  /** The sought chunk's size and where its data begins. */
  datatype Found = Found(size: u32, pos: nat) | NotFound

  /** Chunk after chunk from `pos` on. A seek may go past the end, where the next read fails. */
  function FindChunk(data: seq<byte>, pos: nat, id: u32): (r: Found)
    ensures r.Found? ==> pos + 8 <= r.pos <= |data|
    decreases |data| - pos
  {
    if pos + 8 > |data| then NotFound
    else if U32At(data, pos) == id then Found(U32At(data, pos + 4), pos + 8)
    else FindChunk(data, pos + 8 + U32At(data, pos + 4), id)
  }

  /** Where reading a fmt chunk of `size` leaves the reader, if it succeeds. */
  function ReadFmt(data: seq<byte>, pos: nat, size: u32): (r: Option<nat>)
    ensures r.Some? ==> pos + 16 <= r.value <= |data|
  {
    if pos + 16 > |data| then None
    else if size == FMT_PCM_SIZE then Some(pos + 16)
    else if size != FMT_FLOAT_SIZE || pos + 18 > |data| || U16At(data, pos + 16) != 0 then None
    else Some(pos + 18)
  }

  datatype Outcome = Refused | Stopped | Accepted(params: Params, dataStartPos: nat)

  /** An unsigned 32-bit value stored into an `int`. */
  function ToInt32(x: u32): int32 { if x <= INT_MAX then x else x - 0x1_0000_0000 }

  /** The fields of a fmt chunk at `fmt` and a data chunk of `payload` bytes that starts at `start`. */
  function Judge(data: seq<byte>, fmt: nat, riffSize: u32, payload: u32, start: nat): Outcome
    requires fmt + 16 <= |data|
  {
    match FormatOfField(U16At(data, fmt))
    case None => Stopped
    case Some(format) =>
      var numChannels, sampleRate := U16At(data, fmt + 2), ToInt32(U32At(data, fmt + 4));
      var bytesPerSample := U16At(data, fmt + 14) / 8;
      if bytesPerSample == 0 then Refused
      else
        var p := Params(numChannels, sampleRate, format, bytesPerSample, payload / bytesPerSample);
        if riffSize < RiffChunkSize(payload, HeaderSize(format))
           || U32At(data, fmt + 8) != ByteRate(numChannels, sampleRate, bytesPerSample)
           || U16At(data, fmt + 12) != BlockAlign(numChannels, bytesPerSample)
           || !ParametersOk(p) then Refused
        else Accepted(p, start)
  }

  function ReadHeader(data: seq<byte>): Outcome {
    if |data| < 12 || U32At(data, 0) != RIFF || U32At(data, 8) != WAVE then Refused
    else
      match FindChunk(data, 12, FMT)
      case NotFound => Refused
      case Found(fmtSize, fmt) =>
        match ReadFmt(data, fmt, fmtSize)
        case None => Refused
        case Some(next) =>
          match FindChunk(data, next, DATA)
          case NotFound => Refused
          case Found(payload, start) => Judge(data, fmt, U32At(data, 4), payload, start)
  }
}
