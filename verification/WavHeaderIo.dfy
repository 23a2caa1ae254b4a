/** The header writer filling a buffer and the header reader advancing through a file. */
module WavHeaderIo {
  import opened Bytes
  import opened WavHeaderSpec

  /** WavHeaderReader over a file or a buffer: a seek past the end succeeds, and reads there deliver nothing,
      or it is refused. */
  class WavHeaderReader {
    const data: seq<byte>
    const seeksPastEnd: bool
    var pos: nat

    constructor (data: seq<byte>, seeksPastEnd: bool)
      ensures this.data == data && this.seeksPastEnd == seeksPastEnd && pos == 0
    {
      this.data, this.seeksPastEnd := data, seeksPastEnd;
      pos := 0;
    }

    method Read(numBytes: nat) returns (buf: seq<byte>)
      modifies this
      ensures |buf| == if pos <= |data| then pos - old(pos) else 0
      ensures pos == if old(pos) <= |data| then Min(old(pos) + numBytes, |data|) else old(pos)
      ensures old(pos) <= |data| ==> At(data, old(pos), buf)
    {
      buf := [];
      if pos <= |data| {
        buf := data[pos..Min(pos + numBytes, |data|)];
        pos := pos + |buf|;
      }
    }

    method SeekForward(numBytes: u32) returns (ok: bool)
      modifies this
      ensures ok == (seeksPastEnd || old(pos) + numBytes <= |data|)
      ensures pos == if ok then old(pos) + numBytes else old(pos)
    {
      ok := seeksPastEnd || pos + numBytes <= |data|;
      if ok {
        pos := pos + numBytes;
      }
    }

    method GetPosition() returns (p: nat)
      ensures p == pos
    {
      p := pos;
    }
  }

  lemma WordsOfHeader(data: seq<byte>, pos: nat, header: seq<byte>)
    requires At(data, pos, header)
    ensures forall o :: 0 <= o && o + 4 <= |header| ==> U32At(header, o) == U32At(data, pos + o)
    ensures forall o :: 0 <= o && o + 2 <= |header| ==> U16At(header, o) == U16At(data, pos + o)
  {
    assert forall i :: 0 <= i < |header| ==> header[i] == data[pos..pos + |header|][i] == data[pos + i];
  }

  /** FindWaveChunk: every turn reads a header, so the unread bytes decrease. */
  method FindWaveChunk(readable: WavHeaderReader, soughtChunkId: u32) returns (found: bool, size: u32)
    modifies readable
    ensures var r := FindChunk(readable.data, old(readable.pos), soughtChunkId);
      found == r.Found? && (found ==> size == r.size && readable.pos == r.pos)
  {
    ghost var outcome := FindChunk(readable.data, readable.pos, soughtChunkId);
    size := 0;
    while true
      invariant FindChunk(readable.data, readable.pos, soughtChunkId) == outcome
      decreases |readable.data| - readable.pos
    {
      ghost var pos := readable.pos;
      var chunkHeader := readable.Read(8);
      if |chunkHeader| != 8 {
        return false, 0;
      }
      WordsOfHeader(readable.data, pos, chunkHeader);
      size := U32At(chunkHeader, 4);
      if U32At(chunkHeader, 0) == soughtChunkId {
        return true, size;
      }
      var ok := readable.SeekForward(size);
      if !ok {
        return false, 0;
      }
    }
  }

  method ReadFmtChunkData(readable: WavHeaderReader, fmtSize: u32) returns (ok: bool, fmt: seq<byte>)
    requires readable.pos <= |readable.data|
    modifies readable
    ensures var r := ReadFmt(readable.data, old(readable.pos), fmtSize);
      ok == r.Some? && (ok ==> readable.pos == r.value && |fmt| == 16 && At(readable.data, old(readable.pos), fmt))
  {
    fmt := readable.Read(16);
    if |fmt| != 16 {
      return false, [];
    }
    if fmtSize != FMT_PCM_SIZE {
      if FMT_PCM_SIZE + 2 != fmtSize {
        return false, [];
      }
      ghost var pos := readable.pos;
      var extSize := readable.Read(2);
      if |extSize| != 2 {
        return false, [];
      }
      WordsOfHeader(readable.data, pos, extSize);
      if U16At(extSize, 0) != 0 {
        return false, [];
      }
    }
    ok := true;
  }

  method ReadWavHeader(readable: WavHeaderReader) returns (outcome: Outcome)
    requires readable.pos == 0
    modifies readable
    ensures outcome == ReadHeader(readable.data)
  {
    hide FindChunk, Judge, U16At, U32At;
    var riff := readable.Read(12);
    if |riff| != 12 {
      return Refused;
    }
    WordsOfHeader(readable.data, 0, riff);
    if U32At(riff, 0) != RIFF {
      return Refused;
    }
    if U32At(riff, 8) != WAVE {
      return Refused;
    }
    var found, fmtSize := FindWaveChunk(readable, FMT);
    if !found {
      return Refused;
    }
    ghost var fmtPos := readable.pos;
    var ok, fmt := ReadFmtChunkData(readable, fmtSize);
    if !ok {
      return Refused;
    }
    var foundData, bytesInPayload := FindWaveChunk(readable, DATA);
    if !foundData {
      return Refused;
    }
    var start := readable.GetPosition();
    outcome := ParseFields(readable.data, fmtPos, fmt, U32At(riff, 4), bytesInPayload, start);
  }

  /** The needed fields, checked against one another. */
  method ParseFields(ghost data: seq<byte>, ghost fmtPos: nat, fmt: seq<byte>, riffSize: u32, bytesInPayload: u32,
                     start: nat)
    returns (outcome: Outcome)
    requires |fmt| == 16 && At(data, fmtPos, fmt)
    ensures outcome == Judge(data, fmtPos, riffSize, bytesInPayload, start)
  {
    hide U16At, U32At, ByteRate, BlockAlign, RiffChunkSize, ParametersOk, ToInt32;
    WordsOfHeader(data, fmtPos, fmt);
    var format := FormatOfField(U16At(fmt, 0));
    if format == None {
      return Stopped;
    }
    var numChannels := U16At(fmt, 2);
    var sampleRate := ToInt32(U32At(fmt, 4));
    var bytesPerSample := U16At(fmt, 14) / 8;
    if bytesPerSample == 0 {
      return Refused;
    }
    var numSamples := bytesInPayload / bytesPerSample;
    if riffSize < RiffChunkSize(bytesInPayload, HeaderSize(format.value)) {
      return Refused;
    }
    if U32At(fmt, 8) != ByteRate(numChannels, sampleRate, bytesPerSample) {
      return Refused;
    }
    if U16At(fmt, 12) != BlockAlign(numChannels, bytesPerSample) {
      return Refused;
    }
    var p := Params(numChannels, sampleRate, format.value, bytesPerSample, numSamples);
    if !ParametersOk(p) {
      return Refused;
    }
    outcome := Accepted(p, start);
  }

  // ---------- the writer ----------

  /** A header assembled field by field and copied into the caller's buffer; a failed check stops the
      program before anything is copied. */
  method WriteWavHeader(numChannels: nat, sampleRate: int32, format: WavFormat, numSamples: nat, buf: array<byte>)
    returns (ok: bool, headerSize: nat)
    requires FLOAT_HEADER_SIZE <= buf.Length
    modifies buf
    ensures var p := Params(numChannels, sampleRate, format, FormatBytesPerSample(format), numSamples);
      ok == (ParametersOk(p) && (format == Pcm || format == IeeeFloat))
      && (ok ==> headerSize == HeaderSize(format)
                 && buf[..] == HeaderBytes(p) + old(buf[..])[headerSize..])
      && (!ok ==> buf[..] == old(buf[..]))
  {
    hide ParametersOk;
    headerSize := 0;
    var bytesPerSample := FormatBytesPerSample(format);
    var p := Params(numChannels, sampleRate, format, bytesPerSample, numSamples);
    if !ParametersOk(p) {
      return false, 0;
    }
    if format == Pcm {
      headerSize := WritePcmWavHeader(p, buf);
    } else {
      if format != IeeeFloat {
        return false, 0;
      }
      headerSize := WriteIeeeFloatWavHeader(p, buf);
    }
    ok := true;
  }

  method CopyHeader(header: seq<byte>, buf: array<byte>)
    requires |header| <= buf.Length
    modifies buf
    ensures buf[..] == header + old(buf[..])[|header|..]
  {
    forall i | 0 <= i < |header| { buf[i] := header[i]; }
  }

  method WritePcmWavHeader(p: Params, buf: array<byte>) returns (headerSize: nat)
    requires p.format == Pcm && PCM_HEADER_SIZE <= buf.Length
    modifies buf
    ensures headerSize == PCM_HEADER_SIZE && buf[..] == HeaderBytes(p) + old(buf[..])[headerSize..]
  {
    hide LE16, LE32;
    headerSize := PCM_HEADER_SIZE;
    var bytesInPayload := p.bytesPerSample * p.numSamples;
    var riff := LE32(RIFF) + LE32(RiffChunkSize(bytesInPayload, headerSize)) + LE32(WAVE);
    var fmt := LE32(FMT) + LE32(FMT_PCM_SIZE)
      + (LE16(1) + LE16(ToU16(p.numChannels)) + LE32(ToU32(p.sampleRate))
         + LE32(ByteRate(p.numChannels, p.sampleRate, p.bytesPerSample))
         + LE16(BlockAlign(p.numChannels, p.bytesPerSample)) + LE16(ToU16(8 * p.bytesPerSample)));
    var data := LE32(DATA) + LE32(ToU32(bytesInPayload));
    HeaderLength(p);
    assert riff + fmt + data == HeaderBytes(p);
    CopyHeader(riff + fmt + data, buf);
  }

  method WriteIeeeFloatWavHeader(p: Params, buf: array<byte>) returns (headerSize: nat)
    requires p.format == IeeeFloat && FLOAT_HEADER_SIZE <= buf.Length
    modifies buf
    ensures headerSize == FLOAT_HEADER_SIZE && buf[..] == HeaderBytes(p) + old(buf[..])[headerSize..]
  {
    hide LE16, LE32;
    headerSize := FLOAT_HEADER_SIZE;
    var bytesInPayload := p.bytesPerSample * p.numSamples;
    var riff := LE32(RIFF) + LE32(RiffChunkSize(bytesInPayload, headerSize)) + LE32(WAVE);
    var fmt := LE32(FMT) + LE32(FMT_FLOAT_SIZE)
      + (LE16(3) + LE16(ToU16(p.numChannels)) + LE32(ToU32(p.sampleRate))
         + LE32(ByteRate(p.numChannels, p.sampleRate, p.bytesPerSample))
         + LE16(BlockAlign(p.numChannels, p.bytesPerSample)) + LE16(ToU16(8 * p.bytesPerSample)) + LE16(0));
    var fact := LE32(FACT) + LE32(4) + LE32(ToU32(p.numChannels * p.numSamples));
    var data := LE32(DATA) + LE32(ToU32(bytesInPayload));
    HeaderLength(p);
    assert riff + fmt + fact + data == HeaderBytes(p);
    CopyHeader(riff + fmt + fact + data, buf);
  }
}
