/** Writing a WAV file in non-sequential mode: placeholder sizes first, then the samples in any number
    of writes, then padding and two patches made by seeking back. */
module DrWavWriter {
  import opened Bytes
  import opened DrWavMetadata
  import opened DrWavStreams
  import opened DrWavMetadataWriter
  import opened DrWavOpenSpec
  import opened DrWavFile

  datatype DataFormat = DataFormat(
    container: Container, format: u32, channels: u32, sampleRate: u32, bitsPerSample: u32)

  /** drwav_preinit_write refuses the formats that would need a fact chunk. */
  predicate PreinitAccepts(f: DataFormat) {
    f.format != FORMAT_EXTENSIBLE && f.format != FORMAT_ADPCM && f.format != FORMAT_DVI_ADPCM
  }

  function FmtOf(f: DataFormat): Fmt {
    Fmt(ToU16(f.format), ToU16(f.channels), f.sampleRate,
        ToU32(f.bitsPerSample * f.sampleRate * f.channels) / 8,
        ToU16(ToU32(f.channels * f.bitsPerSample) / 8), ToU16(f.bitsPerSample), 0, 0, 0, 0, 0)
  }

  /** The size first written into the RIFF (or ds64) field, to be patched later. */
  function InitialRiffSize(container: Container): u64 {
    match container case Riff => 28 case W64 => 80 + 24 case Rf64 => 8 + 28
  }

  // ---------- the two patches ----------

  function RiffSizeOffset(container: Container): nat {
    match container case Riff => 4 case W64 => 16 case Rf64 => 12 + 8
  }

  function RiffSizeField(container: Container, size: u64): seq<byte> {
    if container == Riff then LE32(ToU32(size)) else LE64(size)
  }

  function DataSizeOffset(container: Container, dataPos: nat): int {
    match container case Riff => dataPos - 4 case W64 => dataPos - 8 case Rf64 => 12 + 8 + 8
  }

  function DataSizeField(container: Container, size: u64): seq<byte> {
    match container
    case Riff => LE32(Clamp32(size))
    case W64 => LE64(ToU64(24 + size))
    case Rf64 => LE64(size)
  }

  /** A prologue around its size field. */
  lemma PatchPrologue(container: Container, r0: u64, r1: u64, d: u64, post: seq<byte>)
    ensures Overwrite(PrologueBytes(container, r0, d) + post, RiffSizeOffset(container), RiffSizeField(container, r1))
         == PrologueBytes(container, r1, d) + post
  {
    hide LE32, LE64, GuidBytes, ToU32;
    match container {
      case Riff =>
        PatchBetween(LE32(ID_RIFF), LE32(ToU32(r0)), LE32(ToU32(r1)), LE32(ID_WAVE), post);
      case W64 =>
        PatchBetween(GuidBytes(W64_RIFF), LE64(r0), LE64(r1), GuidBytes(W64_WAVE), post);
      case Rf64 =>
        var pre := LE32(ID_RF64) + LE32(U32_MAX) + LE32(ID_WAVE) + LE32(ID_DS64) + LE32(28);
        var rest := LE64(d) + LE64(0) + LE32(0);
        assert PrologueBytes(Rf64, r0, d) == pre + LE64(r0) + rest;
        assert PrologueBytes(Rf64, r1, d) == pre + LE64(r1) + rest;
        PatchBetween(pre, LE64(r0), LE64(r1), rest, post);
    }
  }

  lemma PatchBetween(pre: seq<byte>, field: seq<byte>, s: seq<byte>, mid: seq<byte>, post: seq<byte>)
    requires |s| == |field|
    ensures Overwrite(pre + field + mid + post, |pre|, s) == pre + s + mid + post
  {
    assert pre + field + mid + post == pre + field + (mid + post);
    assert pre + s + mid + post == pre + s + (mid + post);
    OverwriteField(pre, field, mid + post, s);
  }

  lemma PatchRiffSize(container: Container, fmt: Fmt, ms: seq<Metadata>, r0: u64, r1: u64, d: u64, samples: seq<byte>)
    ensures Overwrite(FileBytes(container, fmt, ms, r0, d, samples), RiffSizeOffset(container),
                      RiffSizeField(container, r1))
         == FileBytes(container, fmt, ms, r1, d, samples)
  {
    hide PrologueBytes, FmtChunkBytes, MetadataBytes, DataHeaderBytes, Zeros, Overwrite, RiffSizeField;
    var post := FmtChunkBytes(container, fmt) + MetadataBytes(container, ms) + DataHeaderBytes(container, d)
      + samples + Zeros(PaddingSize(container, |samples|));
    FileTail(container, fmt, ms, r0, d, samples);
    FileTail(container, fmt, ms, r1, d, samples);
    PatchPrologue(container, r0, r1, d, post);
  }

  lemma PatchDs64(fmt: Fmt, ms: seq<Metadata>, r: u64, d0: u64, d1: u64, samples: seq<byte>)
    ensures Overwrite(FileBytes(Rf64, fmt, ms, r, d0, samples), 12 + 8 + 8, LE64(d1))
         == FileBytes(Rf64, fmt, ms, r, d1, samples)
  {
    hide FmtChunkBytes, MetadataBytes, Zeros, LE32, LE64, DataHeaderBytes, Overwrite;
    var pre := LE32(ID_RF64) + LE32(U32_MAX) + LE32(ID_WAVE) + LE32(ID_DS64) + LE32(28) + LE64(r);
    var mid := LE64(0) + LE32(0);
    assert PrologueBytes(Rf64, r, d0) == pre + LE64(d0) + mid;
    assert PrologueBytes(Rf64, r, d1) == pre + LE64(d1) + mid;
    SameDataHeader(d0, d1);
    var post := FmtChunkBytes(Rf64, fmt) + MetadataBytes(Rf64, ms) + DataHeaderBytes(Rf64, d0)
      + samples + Zeros(PaddingSize(Rf64, |samples|));
    FileTail(Rf64, fmt, ms, r, d0, samples);
    FileTail(Rf64, fmt, ms, r, d1, samples);
    PatchBetween(pre, LE64(d0), LE64(d1), mid, post);
  }

  lemma SameDataHeader(d0: u64, d1: u64)
    ensures DataHeaderBytes(Rf64, d0) == DataHeaderBytes(Rf64, d1)
  {
  }

  /** A file as its prologue and the rest. */
  lemma FileTail(container: Container, fmt: Fmt, ms: seq<Metadata>, r: u64, d: u64, samples: seq<byte>)
    ensures FileBytes(container, fmt, ms, r, d, samples)
         == PrologueBytes(container, r, d)
            + (FmtChunkBytes(container, fmt) + MetadataBytes(container, ms) + DataHeaderBytes(container, d)
               + samples + Zeros(PaddingSize(container, |samples|)))
  {
    hide PrologueBytes, FmtChunkBytes, MetadataBytes, DataHeaderBytes, Zeros;
  }

  lemma PatchDataSize(container: Container, fmt: Fmt, ms: seq<Metadata>, r: u64, d0: u64, d1: u64, samples: seq<byte>)
    ensures 0 <= DataSizeOffset(container, DataStart(container, ms))
    ensures Overwrite(FileBytes(container, fmt, ms, r, d0, samples),
                      DataSizeOffset(container, DataStart(container, ms)), DataSizeField(container, d1))
         == FileBytes(container, fmt, ms, r, d1, samples)
  {
    hide FmtChunkBytes, MetadataBytes, DataHeaderBytes, PrologueBytes, Zeros, LE32, LE64, ToU32, ToU64, Overwrite,
         FileBytes;
    if container == Rf64 {
      PatchDs64(fmt, ms, r, d0, d1, samples);
    } else {
      var pre := PrologueBytes(container, r, 0) + FmtChunkBytes(container, fmt) + MetadataBytes(container, ms);
      var tail := samples + Zeros(PaddingSize(container, |samples|));
      PatchDataHeader(container, pre, d0, d1, tail);
      FileAround(container, fmt, ms, r, d0, samples);
      FileAround(container, fmt, ms, r, d1, samples);
    }
  }

  /** A RIFF or Wave64 file around its data header. */
  lemma FileAround(container: Container, fmt: Fmt, ms: seq<Metadata>, r: u64, d: u64, samples: seq<byte>)
    requires container != Rf64
    ensures FileBytes(container, fmt, ms, r, d, samples)
         == PrologueBytes(container, r, 0) + FmtChunkBytes(container, fmt) + MetadataBytes(container, ms)
            + DataHeaderBytes(container, d) + (samples + Zeros(PaddingSize(container, |samples|)))
  {
    PrologueNoData(container, r, d);
    hide PrologueBytes, FmtChunkBytes, MetadataBytes, DataHeaderBytes, Zeros;
  }

  lemma PrologueNoData(container: Container, r: u64, d: u64)
    requires container != Rf64
    ensures PrologueBytes(container, r, d) == PrologueBytes(container, r, 0)
  {
  }

  lemma PatchDataHeader(container: Container, pre: seq<byte>, d0: u64, d1: u64, post: seq<byte>)
    requires container != Rf64
    ensures var at := |pre| + |DataHeaderBytes(container, d0)| - if container == Riff then 4 else 8;
      Overwrite(pre + DataHeaderBytes(container, d0) + post, at, DataSizeField(container, d1))
      == pre + DataHeaderBytes(container, d1) + post
  {
    hide LE32, LE64, GuidBytes, Clamp32, ToU64;
    if container == Riff {
      assert pre + DataHeaderBytes(container, d0) + post == (pre + LE32(ID_DATA)) + LE32(Clamp32(d0)) + post;
      assert pre + DataHeaderBytes(container, d1) + post == (pre + LE32(ID_DATA)) + LE32(Clamp32(d1)) + post;
      OverwriteField(pre + LE32(ID_DATA), LE32(Clamp32(d0)), post, LE32(Clamp32(d1)));
    } else {
      var id := GuidBytes(W64_DATA);
      assert pre + DataHeaderBytes(container, d0) + post == (pre + id) + LE64(ToU64(24 + d0)) + post;
      assert pre + DataHeaderBytes(container, d1) + post == (pre + id) + LE64(ToU64(24 + d1)) + post;
      OverwriteField(pre + id, LE64(ToU64(24 + d0)), post, LE64(ToU64(24 + d1)));
    }
  }

  function FrameBytes(frames: nat, fmt: Fmt): nat {
    frames * fmt.channels * fmt.bitsPerSample / 8
  }

  function FramesIn(bytes: nat, fmt: Fmt): int
    requires fmt.channels > 0 && fmt.bitsPerSample > 0
  {
    bytes * 8 / fmt.bitsPerSample / fmt.channels
  }

  // ---------- the writer ----------

  class DrwavWriter {
    const stream: MemoryWriteStream
    const container: Container
    const fmt: Fmt
    const metadata: seq<Metadata>
    var dataChunkDataPos: nat
    var dataChunkDataSize: nat
    ghost var samples: seq<byte>  // everything written so far

    /** Between opening and closing: a header with placeholder sizes, then the samples. */
    ghost predicate Valid()
      reads this, stream
    {
      stream.Valid() && stream.currentWritePos == |stream.data|
      && dataChunkDataSize == |samples| && dataChunkDataPos == DataStart(container, metadata)
      && stream.data == HeaderBytes(container, fmt, metadata, InitialRiffSize(container), 0) + samples
    }

    constructor (stream: MemoryWriteStream, format: DataFormat, ms: seq<Metadata>)
      requires PreinitAccepts(format) && stream.Valid() && stream.data == []
      modifies stream
      ensures Valid() && samples == []
      ensures this.stream == stream && container == format.container && fmt == FmtOf(format) && metadata == ms
    {
      this.stream := stream;
      container := format.container;
      fmt := FmtOf(format);
      metadata := ms;
      samples := [];
      dataChunkDataSize := 0;
      new;
      dataChunkDataPos := WriteHeader();
      assert stream.data + [] == stream.data;
    }

    method Append(piece: seq<byte>) returns (n: nat)
      requires stream.Valid() && stream.currentWritePos == |stream.data|
      modifies stream
      ensures stream.Valid() && stream.currentWritePos == |stream.data|
      ensures n == |piece| && stream.data == old(stream.data) + piece
    {
      OverwriteEnd(stream.data, piece);
      n := stream.Write(piece);
    }

    /** Metadata, unless there is none or the container cannot hold it. */
    method AppendMetadata() returns (n: nat)
      requires stream.Valid() && stream.currentWritePos == |stream.data|
      modifies stream
      ensures stream.Valid() && stream.currentWritePos == |stream.data|
      ensures n == |MetadataBytes(container, metadata)|
      ensures stream.data == old(stream.data) + MetadataBytes(container, metadata)
    {
      hide Pieces, ListChunk;
      n := 0;
      PrintNil();
      if |metadata| > 0 && (container == Riff || container == Rf64) {
        OverwriteEnd(stream.data, Print(metadata));
        n := WriteOrCountMetadata(stream, metadata);
      } else {
        assert stream.data + [] == stream.data;
      }
    }

    /** drwav_init_write__internal. */
    method WriteHeader() returns (runningPos: nat)
      requires stream.Valid() && stream.data == []
      modifies stream
      ensures stream.Valid() && stream.currentWritePos == |stream.data|
      ensures stream.data == HeaderBytes(container, fmt, metadata, InitialRiffSize(container), 0)
      ensures runningPos == DataStart(container, metadata)
    {
      hide PrologueBytes, FmtChunkBytes, MetadataBytes, DataHeaderBytes;
      var n := Append(PrologueBytes(container, InitialRiffSize(container), 0));
      runningPos := n;
      n := Append(FmtChunkBytes(container, fmt));
      runningPos := runningPos + n;
      n := AppendMetadata();
      runningPos := runningPos + n;
      n := Append(DataHeaderBytes(container, 0));
      runningPos := runningPos + n;
    }

    /** drwav_write_raw. */
    method WriteRaw(data: seq<byte>) returns (bytesWritten: nat)
      requires Valid()
      modifies this`dataChunkDataSize, this`samples, stream
      ensures Valid() && samples == old(samples) + data && bytesWritten == |data|
    {
      hide HeaderBytes, Overwrite, DataStart;
      if |data| == 0 {
        assert samples + data == samples;
        return 0;
      }
      OverwriteEnd(stream.data, data);
      AppendAssoc(HeaderBytes(container, fmt, metadata, InitialRiffSize(container), 0), samples, data);
      bytesWritten := stream.Write(data);
      dataChunkDataSize := dataChunkDataSize + bytesWritten;
      samples := samples + data;
    }

    lemma AppendAssoc(a: seq<byte>, b: seq<byte>, c: seq<byte>)
      ensures a + b + c == a + (b + c)
    {
    }

    /** drwav_write_pcm_frames_le. */
    method WritePcmFrames(framesToWrite: nat, data: seq<byte>) returns (framesWritten: int)
      requires Valid() && fmt.channels > 0 && fmt.bitsPerSample > 0
      requires FrameBytes(framesToWrite, fmt) <= |data|
      modifies this`dataChunkDataSize, this`samples, stream
      ensures Valid()
      ensures samples == old(samples) + data[..FrameBytes(framesToWrite, fmt)]
      ensures framesWritten == FramesIn(FrameBytes(framesToWrite, fmt), fmt)
    {
      hide *;
      ghost var total := FrameBytes(framesToWrite, fmt);
      var bytesToWrite := FrameBytes(framesToWrite, fmt);
      var bytesWritten := 0;
      assert samples + data[..0] == samples;
      while bytesToWrite > 0
        invariant Valid() && bytesWritten + bytesToWrite == total <= |data|
        invariant samples == old(samples) + data[..bytesWritten]
        decreases bytesToWrite
      {
        var piece := data[bytesWritten..bytesWritten + bytesToWrite];
        var bytesJustWritten := WriteRaw(piece);
        assert old(samples) + data[..bytesWritten] + piece == old(samples) + data[..bytesWritten + bytesToWrite];
        if bytesJustWritten == 0 { break; }
        bytesToWrite := bytesToWrite - bytesJustWritten;
        bytesWritten := bytesWritten + bytesJustWritten;
      }
      framesWritten := FramesIn(bytesWritten, fmt);
    }

    /** drwav_uninit. The `int` casts of the positions it seeks to want the header below 2 GiB. */
    method Uninit()
      requires Valid()
      requires dataChunkDataPos <= INT_MAX && |samples| + 128 < 0x1_0000_0000_0000_0000
      modifies stream
      ensures stream.data == FinishedFile(container, fmt, metadata, samples)
    {
      hide FileBytes, HeaderBytes, RiffSizeField, DataSizeField, RiffChunkSize, Zeros;
      var paddingSize := PaddingSize(container, dataChunkDataSize);
      FileOfParts();
      OverwriteEnd(stream.data, Zeros(paddingSize));
      if paddingSize > 0 {
        var _ := stream.Write(Zeros(paddingSize));
      } else {
        assert stream.data + Zeros(0) == stream.data;
      }
      ghost var r0, d0 := InitialRiffSize(container), 0;
      assert stream.data == FileBytes(container, fmt, metadata, r0, d0, samples);
      FileLength(container, fmt, metadata, r0, d0, samples);
      var metadataSize := WriteOrCountMetadata(null, metadata);
      var riffSize := RiffSizeFrom(metadataSize);
      stream.Seek(RiffSizeOffset(container), FromStart);
      PatchRiffSize(container, fmt, metadata, r0, riffSize, d0, samples);
      var _ := stream.Write(RiffSizeField(container, riffSize));
      FileLength(container, fmt, metadata, riffSize, d0, samples);
      PatchDataSize(container, fmt, metadata, riffSize, d0, dataChunkDataSize, samples);
      stream.Seek(DataSizeOffset(container, dataChunkDataPos), FromStart);
      var _ := stream.Write(DataSizeField(container, dataChunkDataSize));
    }

    lemma FileOfParts()
      ensures HeaderBytes(container, fmt, metadata, InitialRiffSize(container), 0) + samples
              + Zeros(PaddingSize(container, |samples|))
           == FileBytes(container, fmt, metadata, InitialRiffSize(container), 0, samples)
    {
      hide HeaderBytes;
    }

    /** The RIFF size, from the counted size of the metadata. */
    method RiffSizeFrom(metadataSize: nat) returns (size: u64)
      requires metadataSize == |Print(metadata)| && dataChunkDataSize == |samples| < 0x1_0000_0000_0000_0000
      ensures size == RiffChunkSize(container, metadata, |samples|)
    {
      hide Print;
      match container {
        case Riff =>
          size := Clamp32(4 + 24 + metadataSize + 8 + dataChunkDataSize + dataChunkDataSize % 2);
        case W64 =>
          size := ToU64(80 + 24 + dataChunkDataSize + dataChunkDataSize % 8);
        case Rf64 =>
          size := Clamp32(4 + 36 + 24 + metadataSize + 8 + dataChunkDataSize + dataChunkDataSize % 2);
      }
    }
  }

  lemma FileLength(container: Container, fmt: Fmt, ms: seq<Metadata>, r: u64, d: u64, samples: seq<byte>)
    ensures |FileBytes(container, fmt, ms, r, d, samples)|
         == DataStart(container, ms) + |samples| + PaddingSize(container, |samples|)
  {
    hide HeaderBytes, DataStart, Zeros;
  }

  // ---------- the predicted size ----------

  /** The bytes of so many frames. */
  function TargetDataSize(f: DataFormat, totalFrameCount: nat): nat {
    totalFrameCount * f.channels * f.bitsPerSample / 8
  }

  /** drwav_target_write_size_bytes, for sizes that a double holds exactly. */
  method TargetWriteSizeBytes(f: DataFormat, totalFrameCount: nat, ms: seq<Metadata>) returns (size: nat)
    requires TargetDataSize(f, totalFrameCount) < 0x1_0000_0000_0000_0000
    ensures size == TargetSize(f.container, ms, TargetDataSize(f, totalFrameCount))
  {
    hide Print, TargetDataSize;
    var targetDataSizeBytes := TargetDataSize(f, totalFrameCount);
    var metadataSize := WriteOrCountMetadata(null, ms);
    match f.container {
      case Riff =>
        size := 8 + Clamp32(4 + 24 + metadataSize + 8 + targetDataSizeBytes + targetDataSizeBytes % 2);
      case W64 =>
        size := ToU64(80 + 24 + targetDataSizeBytes + targetDataSizeBytes % 8);
      case Rf64 =>
        size := 8 + Clamp32(4 + 36 + 24 + metadataSize + 8 + targetDataSizeBytes + targetDataSizeBytes % 2);
    }
  }

  function TargetSize(container: Container, ms: seq<Metadata>, n: u64): nat {
    (if container == W64 then 0 else 8) + RiffChunkSize(container, ms, n)
  }

  /** The finished file has the predicted size exactly when its RIFF chunk fits a 32-bit size (for
      Wave64: when the size does not wrap). RF64 predictions are clamped like RIFF ones. */
  lemma PredictedSize(container: Container, fmt: Fmt, ms: seq<Metadata>, samples: seq<byte>)
    requires |samples| < 0x1_0000_0000_0000_0000
    ensures |FinishedFile(container, fmt, ms, samples)| == TargetSize(container, ms, |samples|)
       <==> match container
            case Riff => 36 + |Print(ms)| + |samples| + |samples| % 2 <= U32_MAX
            case W64 => 104 + |samples| + |samples| % 8 < 0x1_0000_0000_0000_0000
            case Rf64 => 72 + |Print(ms)| + |samples| + |samples| % 2 <= U32_MAX
  {
    hide FileBytes, Print;
    FileLength(container, fmt, ms, RiffChunkSize(container, ms, |samples|), |samples|, samples);
  }

  /** 4 GiB of samples in an RF64 file, whose 64-bit sizes exist to hold them: the file is larger than
      predicted by all that the clamp has cut off. */
  lemma PredictedTooSmall(fmt: Fmt, samples: seq<byte>)
    requires |samples| == 0x1_0000_0000
    ensures |FinishedFile(Rf64, fmt, [], samples)| == 0x1_0000_0000 + 80
    ensures TargetSize(Rf64, [], |samples|) == 0x1_0000_0000 + 7
  {
    hide FileBytes, Print;
    PrintNil();
    FileLength(Rf64, fmt, [], RiffChunkSize(Rf64, [], |samples|), |samples|, samples);
  }
}
