/** The WAV header writer and reader, and the round trip between them. */
module WavHeader {
  import opened Bytes
  import opened WavHeaderSpec

  // ---------- chunks that the reader passes over ----------

  type ChunkBody = s: seq<byte> | |s| <= U32_MAX

  datatype Foreign = Foreign(id: u32, body: ChunkBody)

  predicate NoneIs(fs: seq<Foreign>, id: u32) {
    forall i :: 0 <= i < |fs| ==> fs[i].id != id
  }

  function ForeignBytes(fs: seq<Foreign>): seq<byte> {
    if fs == [] then [] else ChunkBytes(fs[0].id, fs[0].body) + ForeignBytes(fs[1..])
  }

  lemma FindHere(data: seq<byte>, pos: nat, id: u32, size: u32)
    requires At(data, pos, LE32(id) + LE32(size))
    ensures FindChunk(data, pos, id) == Found(size, pos + 8)
  {
    hide LE32, U32At;
    AtSplit(data, pos, LE32(id), LE32(size));
    LE32RoundTrip(data, pos, id);
    LE32RoundTrip(data, pos + 4, size);
  }

  lemma {:induction false} FindPast(data: seq<byte>, pos: nat, fs: seq<Foreign>, id: u32)
    requires NoneIs(fs, id) && At(data, pos, ForeignBytes(fs))
    ensures FindChunk(data, pos, id) == FindChunk(data, pos + |ForeignBytes(fs)|, id)
    decreases |fs|
  {
    hide LE32, U32At;
    if fs != [] {
      var f := fs[0];
      AtSplit(data, pos, ChunkBytes(f.id, f.body), ForeignBytes(fs[1..]));
      AtSplit3(data, pos, LE32(f.id), LE32(|f.body|), f.body);
      LE32RoundTrip(data, pos, f.id);
      LE32RoundTrip(data, pos + 4, |f.body|);
      FindPast(data, pos + |ChunkBytes(f.id, f.body)|, fs[1..], id);
    }
  }

  // ---------- the round trip ----------

  /** A file with other chunks before and after the fmt chunk, and any RIFF size. */
  function FileBytes(p: Params, riffSize: u32, before: seq<Foreign>, between: seq<Foreign>, rest: seq<byte>)
    : seq<byte>
  {
    RiffHeader(riffSize) + ForeignBytes(before) + FmtChunk(p) + ForeignBytes(between) + DataHeader(p) + rest
  }

  function DataStart(p: Params, before: seq<Foreign>, between: seq<Foreign>): nat {
    12 + |ForeignBytes(before)| + |FmtChunk(p)| + |ForeignBytes(between)| + 8
  }

  predicate Writable(p: Params) { ParametersOk(p) && (p.format == Pcm || p.format == IeeeFloat) }

  lemma RiffBack(data: seq<byte>, riffSize: u32)
    requires At(data, 0, RiffHeader(riffSize))
    ensures |data| >= 12 && U32At(data, 0) == RIFF && U32At(data, 4) == riffSize && U32At(data, 8) == WAVE
  {
    hide LE32, U32At;
    AtSplit3(data, 0, LE32(RIFF), LE32(riffSize), LE32(WAVE));
    LE32RoundTrip(data, 0, RIFF);
    LE32RoundTrip(data, 4, riffSize);
    LE32RoundTrip(data, 8, WAVE);
  }

  lemma FmtFields(data: seq<byte>, fmt: nat, p: Params)
    requires At(data, fmt, FmtBody(p))
    ensures fmt + 16 <= |data| && U16At(data, fmt) == FormatField(p.format)
    ensures U16At(data, fmt + 2) == ToU16(p.numChannels) && U32At(data, fmt + 4) == ToU32(p.sampleRate)
    ensures U32At(data, fmt + 8) == ByteRate(p.numChannels, p.sampleRate, p.bytesPerSample)
    ensures U16At(data, fmt + 12) == BlockAlign(p.numChannels, p.bytesPerSample)
    ensures U16At(data, fmt + 14) == ToU16(8 * p.bytesPerSample)
  {
    hide LE16, LE32, U16At, U32At, ByteRate, BlockAlign, FormatField, ToU16, ToU32;
    var a, b, c := LE16(FormatField(p.format)), LE16(ToU16(p.numChannels)), LE32(ToU32(p.sampleRate));
    var d := LE32(ByteRate(p.numChannels, p.sampleRate, p.bytesPerSample));
    var e, f := LE16(BlockAlign(p.numChannels, p.bytesPerSample)), LE16(ToU16(8 * p.bytesPerSample));
    AtSplit3(data, fmt, a + b + c + d, e, f);
    AtSplit(data, fmt, a + b + c, d);
    AtSplit3(data, fmt, a, b, c);
    LE16RoundTrip(data, fmt, FormatField(p.format));
    LE16RoundTrip(data, fmt + 2, ToU16(p.numChannels));
    LE32RoundTrip(data, fmt + 4, ToU32(p.sampleRate));
    LE32RoundTrip(data, fmt + 8, ByteRate(p.numChannels, p.sampleRate, p.bytesPerSample));
    LE16RoundTrip(data, fmt + 12, BlockAlign(p.numChannels, p.bytesPerSample));
    LE16RoundTrip(data, fmt + 14, ToU16(8 * p.bytesPerSample));
  }

  /** A fmt chunk is found and read whole. */
  lemma FmtBack(data: seq<byte>, pos: nat, p: Params)
    requires At(data, pos, FmtChunk(p))
    ensures At(data, pos + 8, FmtBody(p))
    ensures FindChunk(data, pos, FMT) == Found(if p.format == Pcm then 16 else 18, pos + 8)
    ensures ReadFmt(data, pos + 8, if p.format == Pcm then 16 else 18) == Some(pos + |FmtChunk(p)|)
  {
    hide FmtBody, LE32, LE16, U16At, FindChunk;
    if p.format == Pcm {
      AtSplit(data, pos, LE32(FMT) + LE32(16), FmtBody(p));
      FindHere(data, pos, FMT, 16);
    } else {
      AtSplit(data, pos, LE32(FMT) + LE32(18), FmtBody(p) + LE16(0));
      AtSplit(data, pos + 8, FmtBody(p), LE16(0));
      LE16RoundTrip(data, pos + 24, 0);
      FindHere(data, pos, FMT, 18);
    }
  }

  /** Accepted parameters fit every field they are stored in. */
  lemma FieldsHold(p: Params)
    requires ParametersOk(p)
    ensures ToU16(p.numChannels) == p.numChannels && ToInt32(ToU32(p.sampleRate)) == p.sampleRate
    ensures ToU16(8 * p.bytesPerSample) / 8 == p.bytesPerSample
    ensures Payload(p) <= U32_MAX - 36 && Payload(p) / p.bytesPerSample == p.numSamples
  {
    var limit := U32_MAX - 36;
    assert PCM_HEADER_SIZE - CHUNK_HEADER_SIZE == 36;
    QuotientTimes(limit, p.bytesPerSample, p.numSamples);
    DivUnique(Payload(p), p.bytesPerSample, p.numSamples, 0);
  }

  lemma QuotientTimes(limit: nat, b: nat, n: nat)
    requires b > 0 && n <= limit / b
    ensures b * n <= limit
  {
    MulMonotone(b, n, limit / b);
  }

  lemma JudgeBack(data: seq<byte>, fmt: nat, p: Params, riffSize: u32, start: nat)
    requires Writable(p) && At(data, fmt, FmtBody(p))
    requires riffSize >= RiffChunkSize(Payload(p), HeaderSize(p.format))
    ensures fmt + 16 <= |data| && Judge(data, fmt, riffSize, ToU32(Payload(p)), start) == Accepted(p, start)
  {
    hide U16At, U32At, FmtBody, ByteRate, BlockAlign, RiffChunkSize, Payload, ParametersOk, ToInt32;
    FmtFields(data, fmt, p);
    FieldsHold(p);
    BytesPositive(p);
  }

  lemma BytesPositive(p: Params)
    requires ParametersOk(p)
    ensures p.bytesPerSample > 0
  {
  }

  /** The round trip: whatever the writer accepts comes back unchanged, past any well-sized foreign chunks
      and with any RIFF size that is no smaller; they change only where the data begins. */
  lemma RoundTrip(p: Params, riffSize: u32, before: seq<Foreign>, between: seq<Foreign>, rest: seq<byte>)
    requires Writable(p) && NoneIs(before, FMT) && NoneIs(between, DATA)
    requires riffSize >= RiffChunkSize(Payload(p), HeaderSize(p.format))
    ensures ReadHeader(FileBytes(p, riffSize, before, between, rest)) == Accepted(p, DataStart(p, before, between))
  {
    hide RiffHeader, ForeignBytes, FmtChunk, DataHeader, U32At, FindChunk, ReadFmt, Judge, FmtBody, Writable,
         RiffChunkSize, Payload, NoneIs, FileBytes, At;
    var data := FileBytes(p, riffSize, before, between, rest);
    FilePieces(p, riffSize, before, between, rest);
    RiffBack(data, riffSize);
    FindPast(data, 12, before, FMT);
    var fmt := 12 + |ForeignBytes(before)|;
    FmtBack(data, fmt, p);
    var next := fmt + |FmtChunk(p)|;
    FindPast(data, next, between, DATA);
    var dataHeader := next + |ForeignBytes(between)|;
    DataBack(data, dataHeader, p);
    JudgeBack(data, fmt + 8, p, riffSize, dataHeader + 8);
  }

  /** Where the pieces of a file stand. */
  lemma FilePieces(p: Params, riffSize: u32, before: seq<Foreign>, between: seq<Foreign>, rest: seq<byte>)
    ensures var data := FileBytes(p, riffSize, before, between, rest);
      var fmt := 12 + |ForeignBytes(before)|;
      var next := fmt + |FmtChunk(p)|;
      At(data, 0, RiffHeader(riffSize)) && At(data, 12, ForeignBytes(before)) && At(data, fmt, FmtChunk(p))
      && At(data, next, ForeignBytes(between)) && At(data, next + |ForeignBytes(between)|, DataHeader(p))
  {
    hide RiffHeader, ForeignBytes, FmtChunk, DataHeader;
    var data := FileBytes(p, riffSize, before, between, rest);
    var a, b, c, d, e := RiffHeader(riffSize), ForeignBytes(before), FmtChunk(p), ForeignBytes(between), DataHeader(p);
    RiffLength(riffSize);
    AtWhole(data, [], a + b + c + d + e, rest);
    AtSplit3(data, 0, a + b + c, d, e);
    AtSplit3(data, 0, a, b, c);
  }

  lemma RiffLength(riffSize: u32)
    ensures |RiffHeader(riffSize)| == 12
  {
  }

  lemma DataBack(data: seq<byte>, pos: nat, p: Params)
    requires At(data, pos, DataHeader(p))
    ensures FindChunk(data, pos, DATA) == Found(ToU32(Payload(p)), pos + 8)
  {
    FindHere(data, pos, DATA, ToU32(Payload(p)));
  }

  /** The written header is the case of a fact chunk at most, and the data begins right behind it. */
  lemma HeaderRoundTrip(p: Params, samples: seq<byte>)
    requires Writable(p)
    ensures ReadHeader(HeaderBytes(p) + samples) == Accepted(p, HeaderSize(p.format))
  {
    hide RiffHeader, FmtChunk, DataHeader, ReadHeader, RiffChunkSize, Payload, Writable, FmtBody;
    var riffSize := RiffChunkSize(Payload(p), HeaderSize(p.format));
    var fact := LE32(ToU32(p.numChannels * p.numSamples));
    var between := if p.format == Pcm then [] else [Foreign(FACT, fact)];
    assert FactChunk(p) == ForeignBytes(between) by {
      if p.format != Pcm {
        assert between[1..] == [];
        assert ForeignBytes(between) == ChunkBytes(FACT, fact) + [] == ChunkBytes(FACT, fact);
      }
    }
    FormatWritable(p);
    assert FACT != DATA;
    assert HeaderBytes(p) + samples == FileBytes(p, riffSize, [], between, samples);
    RoundTrip(p, riffSize, [], between, samples);
    HeaderLength(p);
    RiffLength(riffSize);
    assert |DataHeader(p)| == 8 by { DataHeaderLength(p); }
  }

  lemma FormatWritable(p: Params)
    requires Writable(p)
    ensures p.format == Pcm || p.format == IeeeFloat
  {
  }

  lemma DataHeaderLength(p: Params)
    ensures |DataHeader(p)| == 8
  {
  }

  /** What the reader accepts is a set of parameters that its own check accepts: writing them again gives
      a header that reads the same. */
  lemma ReadWriteRead(data: seq<byte>, p: Params, start: nat, samples: seq<byte>)
    requires ReadHeader(data) == Accepted(p, start)
    ensures Writable(p) && start <= |data|
    ensures ReadHeader(HeaderBytes(p) + samples) == Accepted(p, HeaderSize(p.format))
  {
    hide HeaderBytes, FindChunk, U16At, U32At;
    HeaderRoundTrip(p, samples);
  }

  // ---------- where the fields stop telling the truth ----------

  /** The RIFF size is that of the file exactly when it fits: the parameter check allows for the PCM header
      only, so a float file within fourteen bytes of the limit gets a size that has wrapped around. */
  lemma RiffSizeExact(p: Params)
    requires Writable(p)
    ensures RiffChunkSize(Payload(p), HeaderSize(p.format)) == |HeaderBytes(p)| + Payload(p) - CHUNK_HEADER_SIZE
       <==> p.format == Pcm || Payload(p) <= U32_MAX - 50
  {
    hide HeaderBytes, Payload, ParametersOk;
    HeaderLength(p);
    FieldsHold(p);
  }

  /** Accepted parameters for which it has wrapped. */
  lemma RiffSizeWraps()
    ensures var p := Params(1, 8000, IeeeFloat, 4, 1073741814);
      Writable(p) && Payload(p) > U32_MAX - 50 && RiffChunkSize(Payload(p), HeaderSize(IeeeFloat)) == 10
  {
  }

  /** The other derived fields: the byte rate always fits, the block align exactly when a frame does. */
  lemma DerivedFieldsExact(p: Params)
    requires ParametersOk(p)
    ensures ByteRate(p.numChannels, p.sampleRate, p.bytesPerSample) == p.numChannels * p.sampleRate * p.bytesPerSample
    ensures BlockAlign(p.numChannels, p.bytesPerSample) == p.numChannels * p.bytesPerSample
       <==> p.numChannels * p.bytesPerSample <= 0xFFFF
  {
    var rate, frame := p.numChannels * p.sampleRate * p.bytesPerSample, p.numChannels * p.bytesPerSample;
    assert rate == p.sampleRate * p.numChannels * p.bytesPerSample && 0 <= frame;
    Fits(rate, frame);
    hide ToU16, ToU32, ParametersOk;
  }

  /** Accepted parameters for which the block align has wrapped. */
  lemma BlockAlignWraps()
    ensures var p := Params(0x4001, 8000, IeeeFloat, 4, 0);
      Writable(p) && p.numChannels * p.bytesPerSample == 0x1_0004 && BlockAlign(p.numChannels, p.bytesPerSample) == 4
  {
  }

  lemma Fits(rate: int, frame: int)
    requires 0 <= frame
    ensures 0 <= rate <= U32_MAX ==> ToU32(rate) == rate
    ensures ToU16(frame) == frame <==> frame <= 0xFFFF
  {
  }

  // ---------- the padding byte ----------

  /** A chunk as RIFF has it: a body of odd size is followed by a padding byte. */
  function PaddedChunk(f: Foreign): (s: seq<byte>)
    ensures |s| == 8 + |f.body| + |f.body| % 2
  {
    ChunkBytes(f.id, f.body) + if |f.body| % 2 == 1 then [0] else []
  }

  /** The reader skips exactly the size a chunk declares. It finds what stands behind a padded chunk exactly
      when that size is even; otherwise it reads on one byte early, and whatever it then finds lies behind. */
  lemma FoundBehindPadded(data: seq<byte>, pos: nat, f: Foreign, id: u32, size: u32)
    requires f.id != id && id % 0x100 != 0 && At(data, pos, PaddedChunk(f) + (LE32(id) + LE32(size)))
    ensures var r, start := FindChunk(data, pos, id), pos + |PaddedChunk(f)| + 8;
      (r.Found? && r.pos == start <==> |f.body| % 2 == 0)
      && (|f.body| % 2 == 0 ==> r == Found(size, start)) && (r.Found? ==> start <= r.pos)
  {
    hide LE32, U32At, FindChunk;
    AtSplit(data, pos, PaddedChunk(f), LE32(id) + LE32(size));
    var m := pos + 8 + |f.body|;
    HeaderOf(data, pos, f);
    FindNext(data, pos, id);
    if |f.body| % 2 == 0 {
      FindHere(data, m, id, size);
    } else {
      AtSplit(data, pos, ChunkBytes(f.id, f.body), [0]);
      ZeroByte(data, m);
      FindNext(data, m, id);
    }
  }

  lemma HeaderOf(data: seq<byte>, pos: nat, f: Foreign)
    requires At(data, pos, PaddedChunk(f))
    ensures pos + 8 <= |data| && U32At(data, pos) == f.id && U32At(data, pos + 4) == |f.body|
  {
    hide LE32, U32At;
    if |f.body| % 2 == 1 {
      AtSplit(data, pos, ChunkBytes(f.id, f.body), [0]);
    } else {
      assert PaddedChunk(f) == ChunkBytes(f.id, f.body);
    }
    AtSplit3(data, pos, LE32(f.id), LE32(|f.body|), f.body);
    LE32RoundTrip(data, pos, f.id);
    LE32RoundTrip(data, pos + 4, |f.body|);
  }

  lemma ZeroByte(data: seq<byte>, m: nat)
    requires At(data, m, [0]) && m + 4 <= |data|
    ensures U32At(data, m) % 0x100 == 0
  {
    assert data[m] == data[m..m + 1][0] == 0;
  }

  /** A fmt chunk behind a padded chunk, in either format. */
  lemma FmtBehindPadded(data: seq<byte>, pos: nat, f: Foreign, p: Params)
    requires f.id != FMT && At(data, pos, PaddedChunk(f) + FmtChunk(p))
    ensures var r := FindChunk(data, pos, FMT);
      r.Found? && r.pos == pos + 8 + |f.body| + |f.body| % 2 + 8 <==> |f.body| % 2 == 0
  {
    hide LE32, FmtBody, FindChunk, PaddedChunk;
    var size: u32 := if p.format == Pcm then 16 else 18;
    var body := if p.format == Pcm then FmtBody(p) else FmtBody(p) + LE16(0);
    assert PaddedChunk(f) + FmtChunk(p) == PaddedChunk(f) + (LE32(FMT) + LE32(size)) + body;
    AtSplit(data, pos, PaddedChunk(f) + (LE32(FMT) + LE32(size)), body);
    FoundBehindPadded(data, pos, f, FMT, size);
  }

  /** A file with a padded chunk right before the data chunk. */
  function PaddedFile(p: Params, riffSize: u32, before: seq<Foreign>, between: seq<Foreign>, f: Foreign,
                      rest: seq<byte>): seq<byte>
  {
    RiffHeader(riffSize) + ForeignBytes(before) + FmtChunk(p) + ForeignBytes(between)
    + (PaddedChunk(f) + DataHeader(p)) + rest
  }

  /** Such a file comes back as what was written exactly when the padded chunk needs no padding. */
  lemma PaddingBeforeData(p: Params, riffSize: u32, before: seq<Foreign>, between: seq<Foreign>, f: Foreign,
                          rest: seq<byte>)
    requires Writable(p) && NoneIs(before, FMT) && NoneIs(between, DATA) && f.id != DATA
    requires riffSize >= RiffChunkSize(Payload(p), HeaderSize(p.format))
    ensures var start := DataStart(p, before, between) + |PaddedChunk(f)|;
      ReadHeader(PaddedFile(p, riffSize, before, between, f, rest)) == Accepted(p, start) <==> |f.body| % 2 == 0
  {
    hide RiffHeader, ForeignBytes, FmtChunk, U32At, FindChunk, ReadFmt, FmtBody, Writable, RiffChunkSize, Payload,
         NoneIs, PaddedFile, At, PaddedChunk, U16At, LE32, ParametersOk, ByteRate, BlockAlign, ToInt32;
    var data := PaddedFile(p, riffSize, before, between, f, rest);
    PaddedPieces(p, riffSize, before, between, f, rest);
    RiffBack(data, riffSize);
    FindPast(data, 12, before, FMT);
    var fmt := 12 + |ForeignBytes(before)|;
    FmtBack(data, fmt, p);
    var next := fmt + |FmtChunk(p)|;
    FindPast(data, next, between, DATA);
    FoundBehindPadded(data, next + |ForeignBytes(between)|, f, DATA, ToU32(Payload(p)));
    JudgeBack(data, fmt + 8, p, riffSize, DataStart(p, before, between) + |PaddedChunk(f)|);
  }

  lemma PaddedPieces(p: Params, riffSize: u32, before: seq<Foreign>, between: seq<Foreign>, f: Foreign,
                     rest: seq<byte>)
    ensures var data := PaddedFile(p, riffSize, before, between, f, rest);
      var fmt := 12 + |ForeignBytes(before)|;
      var next := fmt + |FmtChunk(p)|;
      At(data, 0, RiffHeader(riffSize)) && At(data, 12, ForeignBytes(before)) && At(data, fmt, FmtChunk(p))
      && At(data, next, ForeignBytes(between))
      && At(data, next + |ForeignBytes(between)|, PaddedChunk(f) + DataHeader(p))
  {
    hide RiffHeader, ForeignBytes, FmtChunk, DataHeader, PaddedChunk;
    var data := PaddedFile(p, riffSize, before, between, f, rest);
    var a, b, c, d, e := RiffHeader(riffSize), ForeignBytes(before), FmtChunk(p), ForeignBytes(between),
                         PaddedChunk(f) + DataHeader(p);
    RiffLength(riffSize);
    AtWhole(data, [], a + b + c + d + e, rest);
    AtSplit3(data, 0, a + b + c, d, e);
    AtSplit3(data, 0, a, b, c);
  }

  // ---------- a file that is refused for it ----------

  const JUNK: u32 := PackFourCC('J', 'U', 'N', 'K')
  const TWO_SAMPLES := Params(1, 8000, Pcm, 2, 2)

  /** Two samples behind a JUNK chunk. */
  function JunkFile(body: ChunkBody): seq<byte> {
    RiffHeader(100) + PaddedChunk(Foreign(JUNK, body)) + FmtChunk(TWO_SAMPLES) + DataHeader(TWO_SAMPLES) + [1, 2, 3, 4]
  }

  /** With one byte of junk and its padding the file is refused; with the padding taken for junk, the same
      number of bytes is accepted. */
  lemma RefusedForPadding()
    ensures ReadHeader(JunkFile([7])) == Refused
    ensures ReadHeader(JunkFile([7, 0])) == Accepted(TWO_SAMPLES, 54)
    ensures |JunkFile([7])| == |JunkFile([7, 0])|
  {
    hide FmtBody, LE32, U32At, RiffHeader, DataHeader, PaddedChunk, FmtChunk, ReadHeader, ForeignBytes, DataStart;
    RiffLength(100);
    DataHeaderLength(TWO_SAMPLES);
    assert |FmtChunk(TWO_SAMPLES)| == 24 by { FmtChunkLength(TWO_SAMPLES); }
    JunkLost();
    var f := Foreign(JUNK, [7, 0]);
    OneForeign(f);
    assert ForeignBytes([]) == [] by { NoForeign(); }
    assert JunkFile([7, 0]) == FileBytes(TWO_SAMPLES, 100, [f], [], [1, 2, 3, 4]);
    TwoSamplesWritable();
    RoundTrip(TWO_SAMPLES, 100, [f], [], [1, 2, 3, 4]);
    assert DataStart(TWO_SAMPLES, [f], []) == 54 by { JunkStart(f); }
  }

  lemma JunkStart(f: Foreign)
    requires |f.body| == 2
    ensures DataStart(TWO_SAMPLES, [f], []) == 54
  {
    hide FmtBody, LE32, ForeignBytes, PaddedChunk, FmtChunk;
    OneForeign(f);
    NoForeign();
    FmtChunkLength(TWO_SAMPLES);
  }

  lemma NoForeign()
    ensures ForeignBytes([]) == []
  {
  }

  lemma OneForeign(f: Foreign)
    ensures |f.body| % 2 == 0 ==> ForeignBytes([f]) == PaddedChunk(f)
  {
    assert [f][1..] == [];
    assert ForeignBytes([f]) == ChunkBytes(f.id, f.body) + ForeignBytes([f][1..]);
  }

  lemma FmtChunkLength(p: Params)
    ensures p.format == Pcm ==> |FmtChunk(p)| == 24
  {
    hide FmtBody;
  }

  lemma TwoSamplesWritable()
    ensures Writable(TWO_SAMPLES) && 100 >= RiffChunkSize(Payload(TWO_SAMPLES), HeaderSize(Pcm))
  {
  }

  /** The search for the fmt chunk runs off the end. */
  lemma JunkLost()
    ensures ReadHeader(JunkFile([7])) == Refused
  {
    hide FmtBody, LE32, U32At, RiffHeader, DataHeader, PaddedChunk, FmtChunk, FindChunk;
    var data, f := JunkFile([7]), Foreign(JUNK, [7]);
    var rest := DataHeader(TWO_SAMPLES) + [1, 2, 3, 4];
    RiffLength(100);
    DataHeaderLength(TWO_SAMPLES);
    FmtChunkLength(TWO_SAMPLES);
    assert data == RiffHeader(100) + (PaddedChunk(f) + FmtChunk(TWO_SAMPLES)) + rest;
    AtWhole(data, [], RiffHeader(100), PaddedChunk(f) + FmtChunk(TWO_SAMPLES) + rest);
    RiffBack(data, 100);
    AtWhole(data, RiffHeader(100), PaddedChunk(f) + FmtChunk(TWO_SAMPLES), rest);
    assert PaddedChunk(f) == ChunkBytes(JUNK, [7]) + [0] by { OddPadded(f); }
    PaddingMisread(data, 12, f, TWO_SAMPLES);
  }

  lemma OddPadded(f: Foreign)
    requires |f.body| % 2 == 1
    ensures PaddedChunk(f) == ChunkBytes(f.id, f.body) + [0]
  {
  }

  /** The misread header of a PCM fmt chunk declares 4128 bytes, and few files have as many left. */
  lemma PaddingMisread(data: seq<byte>, pos: nat, f: Foreign, p: Params)
    requires f.id != FMT && p.format == Pcm && At(data, pos, ChunkBytes(f.id, f.body) + [0] + FmtChunk(p))
    requires |data| < pos + |f.body| + 4152
    ensures FindChunk(data, pos, FMT) == NotFound
  {
    hide FmtBody, LE32, U32At, FindChunk;
    AtSplit3(data, pos, ChunkBytes(f.id, f.body), [0], FmtChunk(p));
    AtSplit3(data, pos, LE32(f.id), LE32(|f.body|), f.body);
    LE32RoundTrip(data, pos, f.id);
    LE32RoundTrip(data, pos + 4, |f.body|);
    var next := pos + 8 + |f.body|;
    AtSplit3(data, next + 1, LE32(FMT), LE32(16), FmtBody(p));
    ShiftedHeader(data, next);
    FindNext(data, pos, FMT);
    FindNext(data, next, FMT);
    FindNone(data, next + 8 + 4128, FMT);
  }

  lemma FindNext(data: seq<byte>, pos: nat, id: u32)
    requires pos + 8 <= |data| && U32At(data, pos) != id
    ensures FindChunk(data, pos, id) == FindChunk(data, pos + 8 + U32At(data, pos + 4), id)
  {
    hide U32At;
  }

  lemma FindNone(data: seq<byte>, pos: nat, id: u32)
    requires pos + 8 > |data|
    ensures FindChunk(data, pos, id) == NotFound
  {
  }

  lemma ShiftedHeader(data: seq<byte>, next: nat)
    requires At(data, next, [0]) && At(data, next + 1, LE32(FMT)) && At(data, next + 5, LE32(16))
    ensures next + 8 <= |data| && U32At(data, next) != FMT && U32At(data, next + 4) == 4128
  {
    LE32RoundTrip(data, next + 1, FMT);
    LE32RoundTrip(data, next + 5, 16);
    assert data[next] == data[next..next + 1][0] == 0;
    assert data[next + 5..next + 9] == LE32(16) && data[next + 1..next + 5] == LE32(FMT);
    assert data[next + 4] == data[next + 1..next + 5][3] == LE32(FMT)[3];
    assert data[next + 5] == data[next + 5..next + 9][0] == 16;
    assert data[next + 6] == data[next + 5..next + 9][1] == 0;
    assert data[next + 7] == data[next + 5..next + 9][2] == 0;
  }
}
