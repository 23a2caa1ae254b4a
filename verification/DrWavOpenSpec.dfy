/** What drwav_init__internal makes of a block of memory, as a function: container header, first walk
    over the chunks, second walk for the metadata, and the figures derived from the fmt chunk. */
module DrWavOpenSpec {
  import opened Bytes
  import opened DrWavMetadata
  import opened DrWavStreams
  import opened DrWavParserSpec

  datatype Container = Riff | W64 | Rf64

  const FORMAT_ADPCM: u16 := 0x2
  const FORMAT_ALAW: u16 := 0x6
  const FORMAT_MULAW: u16 := 0x7
  const FORMAT_DVI_ADPCM: u16 := 0x11
  const FORMAT_EXTENSIBLE: u16 := 0xFFFE

  const MAX_SAMPLE_RATE := 384000
  const MAX_CHANNELS := 256
  const MAX_BITS_PER_SAMPLE := 64

  const ID_RIFF: FourCC := 0x4646_4952  // "RIFF"
  const ID_riff: FourCC := 0x6666_6972  // "riff"
  const ID_RF64: FourCC := 0x3436_4652  // "RF64"
  const ID_RIFX: FourCC := 0x5846_4952  // "RIFX"
  const ID_FORM: FourCC := 0x4D52_4F46  // "FORM"
  const ID_WAVE: FourCC := 0x4556_4157  // "WAVE"
  const ID_DS64: FourCC := 0x3436_7364  // "ds64"

  /** What a chunk is called: by four characters, or by sixteen bytes in Wave64. */
  datatype Ident = FourCCId(id: FourCC) | Guid(lo: u64, hi: u64)

  const W64_RIFF := Guid(0x11CF_912E_6666_6972, 0x0000_C104_DB28_D6A5)
  const W64_WAVE := Guid(0x11D3_ACF3_6576_6177, 0x8ADB_8E4F_C000_D18C)
  const W64_FMT := Guid(0x11D3_ACF3_2074_6D66, 0x8ADB_8E4F_C000_D18C)
  const W64_FACT := Guid(0x11D3_ACF3_7463_6166, 0x8ADB_8E4F_C000_D18C)
  const W64_DATA := Guid(0x11D3_ACF3_6174_6164, 0x8ADB_8E4F_C000_D18C)

  datatype Fmt = Fmt(
    formatTag: u16, channels: u16, sampleRate: u32, avgBytesPerSec: u32, blockAlign: u16,
    bitsPerSample: u16, extendedSize: u16, validBitsPerSample: u16, channelMask: u32,
    subFormatLo: u64, subFormatHi: u64)

  const ZERO_FMT := Fmt(0, 0, 0, 0, 0, 0, 0, 0, 0, 0, 0)

  predicate IsFmt(i: Ident) { i == FourCCId(ID_FMT) || i == W64_FMT }
  predicate IsData(i: Ident) { i == FourCCId(ID_DATA) || i == W64_DATA }
  predicate IsFact(i: Ident) { i == FourCCId(ID_FACT) || i == W64_FACT }

  /** A chunk header: `next` is where the body starts. */
  datatype HeaderRead = NoHeader | Header(ident: Ident, size: u64, padding: nat, next: nat)

  function ReadChunkHeader(container: Container, data: seq<byte>, pos: nat): (h: HeaderRead)
    requires pos <= |data|
    ensures h.Header? ==> pos + 8 <= h.next <= |data|
  {
    if container == W64 then
      if pos + 24 > |data| then NoHeader
      else
        var size := ToU64(U64At(data, pos + 16) - 24);
        Header(Guid(U64At(data, pos), U64At(data, pos + 8)), size, size % 8, pos + 24)
    else
      if pos + 8 > |data| then NoHeader
      else
        var size := U32At(data, pos + 4);
        Header(FourCCId(U32At(data, pos)), size, size % 2, pos + 8)
  }

  // ---------- the first walk ----------

  /** The walk's variables; `factCount` is the sample count taken from a ds64 or fact chunk. The code keeps
      its own count of the bytes it has passed, which a cast can leave `drift` bytes ahead of the stream. */
  datatype Scan = Scan(
    pos: nat, drift: u64, fmt: Fmt, foundFmt: bool, foundData: bool, dataPos: nat, dataSize: u64,
    factCount: u64, parser: Parser)

  /** That count, in 64 bits, when the stream is at `pos`. */
  function Cursor(pos: nat, drift: u64): nat {
    if drift == 0 then pos else ToU64(pos + drift)
  }

  /** How a chunk leaves the walk: on to the next, out of the loop, or out of the function; or the loop is
      never left. */
  datatype After = Next(s: Scan) | Stop(s: Scan) | Reject | OutsideModel | ScansForever

  function FmtFrom(data: seq<byte>, pos: nat): Fmt
    requires pos + 16 <= |data|
  {
    Fmt(U16At(data, pos), U16At(data, pos + 2), U32At(data, pos + 4), U32At(data, pos + 8),
        U16At(data, pos + 12), U16At(data, pos + 14), 0, 0, 0, 0, 0)
  }

  function AfterPadding(s: Scan, size: nat, padding: nat): After {
    if padding == 0 then Next(s)
    else if s.pos + padding > size then Stop(s)
    else Next(s.(pos := s.pos + padding))
  }

  /** The last seek over a fmt chunk: its distance is cast to an `int`. */
  function SkipLeftover(data: seq<byte>, s: Scan, leftover: u64, padding: nat): (r: After)
    ensures r.Next? ==> r.s.pos <= |data|
  {
    var end := s.pos + ToInt32(leftover);
    if !(0 <= end <= |data|) then Reject
    else
      AfterPadding(s.(pos := end, drift := ToU64(s.drift + leftover - ToInt32(leftover))), |data|, padding)
  }

  function ScanFmt(data: seq<byte>, s: Scan, h: HeaderRead): (r: After)
    requires h.Header? && h.next <= |data|
    ensures r.Next? ==> r.s.pos <= |data|
  {
    var pos := h.next;
    if pos + 16 > |data| then Reject
    else
      var fmt := FmtFrom(data, pos);
      if h.size <= 16 then
        AfterPadding(s.(pos := pos + 16, fmt := fmt, foundFmt := true), |data|, h.padding)
      else if pos + 18 > |data| then Reject
      else
        var ext := U16At(data, pos + 16);
        var extensible := fmt.formatTag == FORMAT_EXTENSIBLE;
        if ext > 0 && extensible && ext != 22 then Reject
        else if pos + 18 + ext > |data| then Reject
        else
          var fmt' := if ext > 0 && extensible then
              fmt.(extendedSize := ext, validBitsPerSample := U16At(data, pos + 18),
                   channelMask := U32At(data, pos + 20), subFormatLo := U64At(data, pos + 24),
                   subFormatHi := U64At(data, pos + 32))
            else fmt.(extendedSize := ext);
          SkipLeftover(data, s.(pos := pos + 18 + ext, fmt := fmt', foundFmt := true),
                       ToU64(h.size - (18 + ext)), h.padding)
  }

  /** Skips the rest of a chunk and its padding. */
  function SkipBody(data: seq<byte>, s: Scan, pos: nat, chunkSize: u64, padding: nat): (r: After)
    ensures r.Next? ==> pos <= r.s.pos <= |data|
  {
    var distance := ToU64(chunkSize + padding);
    if pos + distance > |data| then Stop(s) else Next(s.(pos := pos + distance))
  }

  function ScanData(container: Container, processing: bool, data: seq<byte>, s: Scan, h: HeaderRead): (r: After)
    requires h.Header? && h.next <= |data|
    ensures r.Next? ==> h.next <= r.s.pos <= |data|
  {
    var s1 := s.(foundData := true, dataPos := Cursor(h.next, s.drift),
                 dataSize := if container == Rf64 then s.dataSize else h.size);
    if !processing then Stop(s1) else SkipBody(data, s1, h.next, h.size, h.padding)
  }

  function ScanFact(container: Container, data: seq<byte>, s: Scan, h: HeaderRead): (r: After)
    requires h.Header? && h.next <= |data|
    ensures r.Next? ==> h.next <= r.s.pos <= |data|
  {
    match container
    case Riff =>
      if h.next + 4 > |data| then Reject
      else SkipBody(data, s.(factCount := 0), h.next + 4, ToU64(h.size - 4), h.padding)
    case W64 =>
      if h.next + 8 > |data| then Reject
      else SkipBody(data, s.(factCount := U64At(data, h.next)), h.next + 8, ToU64(h.size - 8), h.padding)
    case Rf64 => SkipBody(data, s, h.next, h.size, h.padding)
  }

  /** A chunk for the metadata parser, after which the code seeks back to where it believes it was. */
  function ScanMetadata(data: seq<byte>, s: Scan, h: HeaderRead): (r: After)
    requires h.Header? && h.next <= |data| && h.ident.FourCCId?
    ensures r.Next? ==> r.s.pos <= |data|
  {
    var p := ProcessChunk(data, h.next, s.parser, h.ident.id, h.size).p;
    var cursor := Cursor(h.next, s.drift);
    if cursor > |data| then Stop(s.(parser := p))
    else SkipBody(data, s.(parser := p, drift := 0), cursor, h.size, h.padding)
  }

  function ScanChunk(container: Container, processing: bool, data: seq<byte>, s: Scan, h: HeaderRead): (r: After)
    requires h.Header? && h.next <= |data|
    ensures r.Next? ==> r.s.pos <= |data|
    ensures !r.ScansForever?
  {
    if IsFmt(h.ident) then ScanFmt(data, s, h)
    else if IsData(h.ident) then ScanData(container, processing, data, s, h)
    else if IsFact(h.ident) then ScanFact(container, data, s, h)
    else if processing && h.ident.FourCCId? then
      if h.ident.id == ID_BEXT then OutsideModel else ScanMetadata(data, s, h)
    else SkipBody(data, s, h.next, h.size, h.padding)
  }

  /** One turn of the loop. */
  function ScanTurn(container: Container, processing: bool, data: seq<byte>, s: Scan): (r: After)
    requires s.pos <= |data|
    ensures (r.Next? ==> r.s.pos <= |data|) && !r.ScansForever?
  {
    var h := ReadChunkHeader(container, data, s.pos);
    if h.NoHeader? then Stop(s) else ScanChunk(container, processing, data, s, h)
  }

  /** At most so many turns: still `Next` when the loop has not been left by then. */
  function ScanTurns(container: Container, processing: bool, data: seq<byte>, s: Scan, turns: nat): (r: After)
    requires s.pos <= |data|
    ensures !r.ScansForever?
    decreases turns
  {
    if turns == 0 then Next(s)
    else
      var r := ScanTurn(container, processing, data, s);
      if r.Next? then ScanTurns(container, processing, data, r.s, turns - 1) else r
  }

  /** The whole loop. A cast can move the stream backwards, so that it need not end. */
  ghost function ScanChunks(container: Container, processing: bool, data: seq<byte>, s: Scan): (r: After)
    requires s.pos <= |data|
    ensures !r.Next?
  {
    if turns: nat :| !ScanTurns(container, processing, data, s, turns).Next? then
      ScanTurns(container, processing, data, s, turns)
    else ScansForever
  }

  /** Once the loop has been left, further turns change nothing. */
  lemma {:induction false} ScanSettled(container: Container, processing: bool, data: seq<byte>, s: Scan, n: nat, m: nat)
    requires s.pos <= |data| && n <= m && !ScanTurns(container, processing, data, s, n).Next?
    ensures ScanTurns(container, processing, data, s, n) == ScanTurns(container, processing, data, s, m)
    decreases n
  {
    hide ScanTurn;
    var r := ScanTurn(container, processing, data, s);
    if r.Next? {
      ScanSettled(container, processing, data, r.s, n - 1, m - 1);
    }
  }

  /** The loop is what so many turns of it are, once they leave it. */
  lemma ScanEnds(container: Container, processing: bool, data: seq<byte>, s: Scan, n: nat)
    requires s.pos <= |data| && !ScanTurns(container, processing, data, s, n).Next?
    ensures ScanChunks(container, processing, data, s) == ScanTurns(container, processing, data, s, n)
  {
    hide ScanTurns;
    forall m: nat | !ScanTurns(container, processing, data, s, m).Next?
      ensures ScanTurns(container, processing, data, s, m) == ScanTurns(container, processing, data, s, n)
    {
      if n <= m {
        ScanSettled(container, processing, data, s, n, m);
      } else {
        ScanSettled(container, processing, data, s, m, n);
      }
    }
  }

  /** The loop is one turn and then the loop. */
  lemma ScanOn(container: Container, processing: bool, data: seq<byte>, s: Scan)
    requires s.pos <= |data|
    ensures ScanChunks(container, processing, data, s)
         == var r := ScanTurn(container, processing, data, s);
            if r.Next? then ScanChunks(container, processing, data, r.s) else r
  {
    hide ScanTurn, ScanChunks;
    var r := ScanTurn(container, processing, data, s);
    if !r.Next? {
      ScanEnds(container, processing, data, s, 1);
    } else if n: nat :| !ScanTurns(container, processing, data, r.s, n).Next? {
      ScanEnds(container, processing, data, r.s, n);
      ScanEnds(container, processing, data, s, n + 1);
    } else {
      ScanNever(container, processing, data, r.s);
      forall n: nat ensures ScanTurns(container, processing, data, s, n).Next? {
        if n > 0 {
          assert ScanTurns(container, processing, data, r.s, n - 1).Next?;
        }
      }
      ScanNever(container, processing, data, s);
    }
  }

  lemma ScanNever(container: Container, processing: bool, data: seq<byte>, s: Scan)
    requires s.pos <= |data|
    ensures ScanChunks(container, processing, data, s).ScansForever?
       <==> forall n: nat :: ScanTurns(container, processing, data, s, n).Next?
  {
    hide ScanTurns;
    if n: nat :| !ScanTurns(container, processing, data, s, n).Next? {
      ScanEnds(container, processing, data, s, n);
    }
  }

  // ---------- the second walk ----------

  /** How the walk over the metadata ends, or where it is; or it never ends. */
  datatype SecondPass = Parsed(parser: Parser) | Failed | Outside | Midway(pos: nat, p: Parser) | ReadsForever

  /** One turn of the loop. */
  function ReadTurn(container: Container, data: seq<byte>, pos: nat, p: Parser): (r: SecondPass)
    requires pos <= |data|
    ensures (r.Midway? ==> r.pos <= |data|) && !r.ReadsForever?
  {
    match ReadChunkHeader(container, data, pos)
    case NoHeader => Parsed(p)
    case Header(ident, size, padding, next) =>
      if !ident.FourCCId? || ident.id == ID_BEXT then Outside
      else
        var r := ProcessChunk(data, next, p, ident.id, size);
        var distance := ToU64(ToU64(size + padding) - r.bytesRead);
        if r.pos + distance > |data| then Failed else Midway(r.pos + distance, r.p)
  }

  /** At most so many turns: still `Midway` when the loop has not been left by then. */
  function ReadTurns(container: Container, data: seq<byte>, pos: nat, p: Parser, turns: nat): (r: SecondPass)
    requires pos <= |data|
    ensures !r.ReadsForever?
    decreases turns
  {
    if turns == 0 then Midway(pos, p)
    else
      var r := ReadTurn(container, data, pos, p);
      if r.Midway? then ReadTurns(container, data, r.pos, r.p, turns - 1) else r
  }

  /** The whole loop, which need not end either. */
  ghost function ReadMetadata(container: Container, data: seq<byte>, pos: nat, p: Parser): (r: SecondPass)
    requires pos <= |data|
    ensures !r.Midway?
  {
    if turns: nat :| !ReadTurns(container, data, pos, p, turns).Midway? then
      ReadTurns(container, data, pos, p, turns)
    else ReadsForever
  }

  lemma {:induction false} ReadSettled(container: Container, data: seq<byte>, pos: nat, p: Parser, n: nat, m: nat)
    requires pos <= |data| && n <= m && !ReadTurns(container, data, pos, p, n).Midway?
    ensures ReadTurns(container, data, pos, p, n) == ReadTurns(container, data, pos, p, m)
    decreases n
  {
    hide ReadTurn;
    var r := ReadTurn(container, data, pos, p);
    if r.Midway? {
      ReadSettled(container, data, r.pos, r.p, n - 1, m - 1);
    }
  }

  lemma ReadEnds(container: Container, data: seq<byte>, pos: nat, p: Parser, n: nat)
    requires pos <= |data| && !ReadTurns(container, data, pos, p, n).Midway?
    ensures ReadMetadata(container, data, pos, p) == ReadTurns(container, data, pos, p, n)
  {
    hide ReadTurns;
    forall m: nat | !ReadTurns(container, data, pos, p, m).Midway?
      ensures ReadTurns(container, data, pos, p, m) == ReadTurns(container, data, pos, p, n)
    {
      if n <= m {
        ReadSettled(container, data, pos, p, n, m);
      } else {
        ReadSettled(container, data, pos, p, m, n);
      }
    }
  }

  lemma ReadOn(container: Container, data: seq<byte>, pos: nat, p: Parser)
    requires pos <= |data|
    ensures ReadMetadata(container, data, pos, p)
         == var r := ReadTurn(container, data, pos, p);
            if r.Midway? then ReadMetadata(container, data, r.pos, r.p) else r
  {
    hide ReadTurn, ReadMetadata;
    var r := ReadTurn(container, data, pos, p);
    if !r.Midway? {
      ReadEnds(container, data, pos, p, 1);
    } else if n: nat :| !ReadTurns(container, data, r.pos, r.p, n).Midway? {
      ReadEnds(container, data, r.pos, r.p, n);
      ReadEnds(container, data, pos, p, n + 1);
    } else {
      ReadNever(container, data, r.pos, r.p);
      forall n: nat ensures ReadTurns(container, data, pos, p, n).Midway? {
        if n > 0 {
          assert ReadTurns(container, data, r.pos, r.p, n - 1).Midway?;
        }
      }
      ReadNever(container, data, pos, p);
    }
  }

  lemma ReadNever(container: Container, data: seq<byte>, pos: nat, p: Parser)
    requires pos <= |data|
    ensures ReadMetadata(container, data, pos, p).ReadsForever?
       <==> forall n: nat :: ReadTurns(container, data, pos, p, n).Midway?
  {
    hide ReadTurns;
    if n: nat :| !ReadTurns(container, data, pos, p, n).Midway? {
      ReadEnds(container, data, pos, p, n);
    }
  }

  // ---------- opening ----------

  /** What opening comes to: refused, not modelled, never finished, not finished in the turns allowed, or the
      opened file with its figures. */
  datatype Opening =
    | Rejected
    | Unmodelled
    | Hangs
    | CutShort
    | Opened(container: Container, fmt: Fmt, translatedFormatTag: u16, totalPCMFrameCount: u64,
             dataChunkDataPos: nat, dataChunkDataSize: u64, streamPos: nat, metadataCount: nat, metadata: seq<Slot>,
             inBounds: bool)

  predicate IsCompressed(tag: u16) { tag == FORMAT_ADPCM || tag == FORMAT_DVI_ADPCM }

  function TranslatedTag(fmt: Fmt): u16 {
    if fmt.formatTag == FORMAT_EXTENSIBLE then ToU16(fmt.subFormatLo) else fmt.formatTag
  }

  /** drwav_get_bytes_per_pcm_frame. */
  function BytesPerFrame(fmt: Fmt): nat {
    var tag := TranslatedTag(fmt);
    var n := if fmt.bitsPerSample % 8 == 0 then fmt.bitsPerSample * fmt.channels / 8 else fmt.blockAlign;
    if (tag == FORMAT_ALAW || tag == FORMAT_MULAW) && n != fmt.channels then 0 else n
  }

  predicate BasicallyValid(fmt: Fmt) {
    0 < fmt.sampleRate <= MAX_SAMPLE_RATE && 0 < fmt.channels <= MAX_CHANNELS &&
    0 < fmt.bitsPerSample <= MAX_BITS_PER_SAMPLE && fmt.blockAlign != 0
  }

  function Div(a: u64, b: nat): (q: u64)
    requires b > 0
  {
    DivShrinks(a, b);
    a / b
  }

  lemma DivShrinks(a: nat, b: nat)
    requires b > 0
    ensures 0 <= a / b <= a
  {
    var q := a / b;
    assert a == b * q + a % b;
    MulAtLeast(b, q);
  }

  lemma MulAtLeast(b: nat, q: nat)
    requires b > 0
    ensures b * q >= q
  {
  }

  function RoundDown(a: u64, b: nat): (r: u64)
    requires b > 0
    ensures r <= a
  {
    RoundDownShrinks(a, b);
    a - a % b
  }

  lemma RoundDownShrinks(a: nat, b: nat)
    requires b > 0
    ensures 0 <= a - a % b <= a
  {
    if a < b {
      assert a % b == a;
    }
  }

  function BlockCount(size: u64, blockAlign: u16): u64
    requires blockAlign > 0
  {
    var whole := Div(size, blockAlign);
    if whole * blockAlign < size then ToU64(whole + 1) else whole
  }

  /** Samples past the block headers, two a byte, divided over the channels. */
  function BlockFrames(size: u64, fmt: Fmt, headerBytes: nat): u64
    requires fmt.blockAlign > 0 && fmt.channels > 0
  {
    var headers := ToU64(BlockCount(size, fmt.blockAlign) * headerBytes);
    Div(ToU64(ToU64(size - headers) * 2), fmt.channels)
  }

  function FrameCount(fmt: Fmt, size: u64, factCount: u64): u64
    requires BasicallyValid(fmt) && BytesPerFrame(fmt) > 0
  {
    if factCount != 0 then factCount
    else if TranslatedTag(fmt) == FORMAT_ADPCM then BlockFrames(size, fmt, 6 * fmt.channels)
    else if TranslatedTag(fmt) == FORMAT_DVI_ADPCM then
      ToU64(BlockFrames(size, fmt, 4 * fmt.channels) + BlockCount(size, fmt.blockAlign))
    else Div(size, BytesPerFrame(fmt))
  }

  /** The figures of the opened file, once the metadata has been dealt with. A RIFF data chunk that
      claims 0xFFFFFFFF bytes is measured by reading to the end of the stream, and the stream is left
      there: although a comment promises it, nothing seeks back. */
  function Conclude(container: Container, data: seq<byte>, s: Scan, reading: bool, p: Parser): (o: Opening)
    requires BasicallyValid(s.fmt) && s.dataPos <= |data|
    ensures o.Opened? || o.Rejected?
    ensures o.Opened? ==> o.dataChunkDataPos <= o.streamPos <= |data|
  {
    var unsized := s.dataSize == U32_MAX && container == Riff;
    var size0 := if unsized then ToU64(|data| - s.dataPos) else s.dataSize;
    var bpf := BytesPerFrame(s.fmt);
    var tag := TranslatedTag(s.fmt);
    if bpf == 0 || (IsCompressed(tag) && s.fmt.channels > 2) then Rejected
    else
      var size := if IsCompressed(tag) then size0 else RoundDown(size0, bpf);
      Opened(container, s.fmt, tag, FrameCount(s.fmt, size, s.factCount), s.dataPos, size,
             if unsized then |data| else s.dataPos,
             if reading then p.metadataCount else 0, if reading then p.slots else [], p.inBounds)
  }

  /** Everything after the first walk has ended normally; `second` is what the second one comes to. */
  function FinishWith(container: Container, processing: bool, data: seq<byte>, s: Scan, second: SecondPass): Opening
  {
    if !s.foundFmt || !s.foundData || !BasicallyValid(s.fmt) || s.dataPos > |data| then Rejected
    else if processing && s.parser.metadataCount > 0 then
      match second
      case Failed => Rejected
      case Outside => Unmodelled
      case ReadsForever => Hangs
      case Midway(_, _) => CutShort
      case Parsed(p) => Conclude(container, data, s, true, p)
    else Conclude(container, data, s, false, s.parser)
  }

  ghost function Finish(container: Container, processing: bool, data: seq<byte>, s: Scan, metadataStart: nat): Opening
    requires metadataStart <= |data|
  {
    FinishWith(container, processing, data, s, ReadMetadata(container, data, metadataStart, StartReading(s.parser)))
  }

  datatype Prologue =
    | BadPrologue
    | OtherPrologue
    | Prologue(container: Container, pos: nat, dataSize: u64, factCount: u64)

  function ReadDs64(data: seq<byte>, pos: nat): (r: Prologue)
    requires pos <= |data|
    ensures r.Prologue? ==> r.pos <= |data|
  {
    match ReadChunkHeader(Rf64, data, pos)
    case NoHeader => BadPrologue
    case Header(ident, size, padding, next) =>
      if ident != FourCCId(ID_DS64) || next + 24 > |data| then BadPrologue
      else
        var left := ToU64(size + padding - 24);
        if next + 24 + left > |data| then BadPrologue
        else Prologue(Rf64, next + 24 + left, U64At(data, next + 8), U64At(data, next + 16))
  }

  /** The container's own header, and the ds64 chunk of RF64. */
  function ReadPrologue(data: seq<byte>): (r: Prologue)
    ensures r.Prologue? ==> r.pos <= |data|
  {
    if |data| < 4 then BadPrologue
    else
      var riff := U32At(data, 0);
      if riff == ID_RIFX || riff == ID_FORM then OtherPrologue
      else if riff == ID_RIFF || riff == ID_RF64 then
        if |data| < 12 || U32At(data, 8) != ID_WAVE then BadPrologue
        else if riff == ID_RIFF then Prologue(Riff, 12, 0, 0)
        else if U32At(data, 4) != U32_MAX then BadPrologue
        else ReadDs64(data, 12)
      else if riff == ID_riff then
        if |data| < 40 || Guid(U64At(data, 0), U64At(data, 8)) != W64_RIFF || U64At(data, 16) < 80
           || Guid(U64At(data, 24), U64At(data, 32)) != W64_WAVE then BadPrologue
        else Prologue(W64, 40, 0, 0)
      else BadPrologue
  }

  function StartScan(pro: Prologue, arena: Arena): Scan
    requires pro.Prologue?
  {
    Scan(pro.pos, 0, ZERO_FMT, false, false, 0, pro.dataSize, pro.factCount,
         Parser(CountStage, 0, 0, arena, [], 0, true))
  }

  /** Both walks once the prologue has been read. */
  ghost function OpenFrom(pro: Prologue, data: seq<byte>, withMetadata: bool, arena: Arena): Opening
    requires pro.Prologue? && pro.pos <= |data|
  {
    var processing := withMetadata && pro.container != W64;
    match ScanChunks(pro.container, processing, data, StartScan(pro, arena))
    case Reject => Rejected
    case OutsideModel => Unmodelled
    case ScansForever => Hangs
    case Stop(s) => Finish(pro.container, processing, data, s, pro.pos)
  }

  /** drwav_init__internal, not sequential, without a chunk callback. */
  ghost function Open(data: seq<byte>, withMetadata: bool, arena: Arena): Opening {
    match ReadPrologue(data)
    case BadPrologue => Rejected
    case OtherPrologue => Unmodelled
    case Prologue(container, pos, dataSize, factCount) =>
      OpenFrom(Prologue(container, pos, dataSize, factCount), data, withMetadata, arena)
  }

  // ---------- opening, with both loops cut off after so many turns ----------

  function OpenFromWithin(pro: Prologue, data: seq<byte>, withMetadata: bool, arena: Arena, turns: nat): Opening
    requires pro.Prologue? && pro.pos <= |data|
  {
    var processing := withMetadata && pro.container != W64;
    match ScanTurns(pro.container, processing, data, StartScan(pro, arena), turns)
    case Reject => Rejected
    case OutsideModel => Unmodelled
    case ScansForever => Hangs
    case Next(_) => CutShort
    case Stop(s) =>
      FinishWith(pro.container, processing, data, s,
                 ReadTurns(pro.container, data, pro.pos, StartReading(s.parser), turns))
  }

  function OpenWithin(data: seq<byte>, withMetadata: bool, arena: Arena, turns: nat): Opening {
    match ReadPrologue(data)
    case BadPrologue => Rejected
    case OtherPrologue => Unmodelled
    case Prologue(container, pos, dataSize, factCount) =>
      OpenFromWithin(Prologue(container, pos, dataSize, factCount), data, withMetadata, arena, turns)
  }

  /** What is not cut off is what the loops themselves come to. */
  lemma OpenedWithin(data: seq<byte>, withMetadata: bool, arena: Arena, turns: nat)
    requires OpenWithin(data, withMetadata, arena, turns) != CutShort
    ensures Open(data, withMetadata, arena) == OpenWithin(data, withMetadata, arena, turns)
  {
    hide ScanTurns, ReadTurns, ScanChunks, ReadMetadata, ReadPrologue, Conclude, StartReading;
    var pro := ReadPrologue(data);
    if pro.Prologue? {
      var processing := withMetadata && pro.container != W64;
      var s := StartScan(pro, arena);
      ScanEnds(pro.container, processing, data, s, turns);
      var r := ScanTurns(pro.container, processing, data, s, turns);
      if r.Stop? {
        var p := StartReading(r.s.parser);
        if !ReadTurns(pro.container, data, pro.pos, p, turns).Midway? {
          ReadEnds(pro.container, data, pro.pos, p, turns);
        }
      }
    }
  }

  /** Opening hangs exactly when no number of turns is enough. */
  lemma HangsExactly(data: seq<byte>, withMetadata: bool, arena: Arena)
    ensures Open(data, withMetadata, arena) == Hangs
       <==> forall turns: nat :: OpenWithin(data, withMetadata, arena, turns) == CutShort
  {
    hide Open, OpenWithin;
    if Open(data, withMetadata, arena) == Hangs {
      forall turns: nat ensures OpenWithin(data, withMetadata, arena, turns) == CutShort {
        if OpenWithin(data, withMetadata, arena, turns) != CutShort {
          OpenedWithin(data, withMetadata, arena, turns);
          WithinNeverHangs(data, withMetadata, arena, turns);
        }
      }
    } else {
      var turns := EnoughTurns(data, withMetadata, arena);
    }
  }

  lemma WithinNeverHangs(data: seq<byte>, withMetadata: bool, arena: Arena, turns: nat)
    ensures OpenWithin(data, withMetadata, arena, turns) != Hangs
  {
    hide ScanTurns, ReadTurns, ReadPrologue, Conclude, StartReading;
  }

  lemma EnoughTurns(data: seq<byte>, withMetadata: bool, arena: Arena) returns (turns: nat)
    requires Open(data, withMetadata, arena) != Hangs
    ensures OpenWithin(data, withMetadata, arena, turns) != CutShort
  {
    hide ScanTurns, ReadTurns, ScanChunks, ReadMetadata, ReadPrologue, Conclude, StartReading;
    turns := 0;
    var pro := ReadPrologue(data);
    if pro.Prologue? {
      var processing := withMetadata && pro.container != W64;
      var s := StartScan(pro, arena);
      ScanNever(pro.container, processing, data, s);
      var n: nat :| !ScanTurns(pro.container, processing, data, s, n).Next?;
      ScanEnds(pro.container, processing, data, s, n);
      turns := n;
      var r := ScanTurns(pro.container, processing, data, s, n);
      if r.Stop? {
        var p := StartReading(r.s.parser);
        ReadNever(pro.container, data, pro.pos, p);
        if m: nat :| !ReadTurns(pro.container, data, pro.pos, p, m).Midway? {
          turns := if n <= m then m else n;
          ScanSettled(pro.container, processing, data, s, n, turns);
          ReadSettled(pro.container, data, pro.pos, p, m, turns);
        }
      }
    }
  }
}
