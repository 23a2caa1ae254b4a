/** A RIFF data chunk that claims 0xFFFFFFFF bytes: its size is found by reading to the end of the stream,
    and although a comment promises it, nothing seeks back. */
module DrWavUnsized {
  import opened Bytes
  import opened DrWavMetadata
  import opened DrWavMetadataWriter
  import opened DrWavStreams
  import opened DrWavParserSpec
  import opened DrWavListRoundTrip
  import opened DrWavOpenSpec
  import opened DrWavWalks
  import opened DrWavFile
  import opened DrWavOpenRoundTrip
  import opened DrWavOpener
  import opened DrWavReader

  // ---------- where the first walk takes the data size from ----------

  /** The drift is a whole number of 2^32; and where the data are said to be inside a file of less than 4 GiB,
      their size stands right in front. */
  predicate SizeInFront(data: seq<byte>, s: Scan) {
    s.pos <= |data| && s.drift % 0x1_0000_0000 == 0
    && (s.foundData && s.dataPos <= U32_MAX ==>
          8 <= s.dataPos <= |data| && s.dataSize == U32At(data, s.dataPos - 4))
  }

  lemma DriftStaysWhole(drift: u64, leftover: u64)
    requires drift % 0x1_0000_0000 == 0
    ensures ToU64(drift + leftover - ToInt32(leftover)) % 0x1_0000_0000 == 0
  {
    var q, k := drift / 0x1_0000_0000, leftover / 0x1_0000_0000;
    var wraps := if leftover % 0x1_0000_0000 <= INT_MAX then 0 else 1;
    var sum := q + k + wraps;
    assert drift + leftover - ToInt32(leftover) == 0x1_0000_0000 * sum;
    DivUnique(0x1_0000_0000 * sum, 0x1_0000_0000_0000_0000, sum / 0x1_0000_0000, sum % 0x1_0000_0000 * 0x1_0000_0000);
  }

  lemma CursorOutside(pos: nat, drift: u64)
    requires pos <= U32_MAX && drift % 0x1_0000_0000 == 0 && drift != 0
    ensures Cursor(pos, drift) > U32_MAX
  {
    assert drift <= 0x1_0000_0000_0000_0000 - 0x1_0000_0000;
    assert pos + drift < 0x1_0000_0000_0000_0000;
  }

  lemma FmtKeepsSize(data: seq<byte>, s: Scan, h: HeaderRead)
    requires h.Header? && h.next <= |data| && SizeInFront(data, s)
    ensures var r := ScanFmt(data, s, h);
      (r.Next? ==> SizeInFront(data, r.s)) && (r.Stop? ==> SizeInFront(data, r.s.(pos := 0)))
  {
    hide FmtFrom, U16At, U32At, U64At, ToInt32;
    if h.next + 18 <= |data| {
      var leftover := ToU64(h.size - (18 + U16At(data, h.next + 16)));
      DriftStaysWhole(s.drift, leftover);
    }
  }

  lemma DataKeepsSize(processing: bool, data: seq<byte>, s: Scan, h: HeaderRead)
    requires |data| <= U32_MAX && s.pos <= |data| && SizeInFront(data, s)
    requires h == ReadChunkHeader(Riff, data, s.pos) && h.Header?
    ensures var r := ScanData(Riff, processing, data, s, h);
      (r.Next? ==> SizeInFront(data, r.s)) && (r.Stop? ==> SizeInFront(data, r.s.(pos := 0)))
  {
    hide U32At;
    if s.drift != 0 {
      CursorOutside(h.next, s.drift);
    }
  }

  lemma TurnKeepsSize(processing: bool, data: seq<byte>, s: Scan)
    requires |data| <= U32_MAX && s.pos <= |data| && SizeInFront(data, s)
    ensures var r := ScanTurn(Riff, processing, data, s);
      (r.Next? ==> SizeInFront(data, r.s)) && (r.Stop? ==> SizeInFront(data, r.s.(pos := 0)))
  {
    hide ScanFmt, ScanData, ProcessChunk, U32At, ReadChunkHeader;
    var h := ReadChunkHeader(Riff, data, s.pos);
    if h.Header? {
      FmtKeepsSize(data, s, h);
      DataKeepsSize(processing, data, s, h);
    }
  }

  lemma {:induction false} TurnsKeepSize(processing: bool, data: seq<byte>, s: Scan, turns: nat)
    requires |data| <= U32_MAX && s.pos <= |data| && SizeInFront(data, s)
    ensures var r := ScanTurns(Riff, processing, data, s, turns); r.Stop? ==> SizeInFront(data, r.s.(pos := 0))
    decreases turns
  {
    hide ScanTurn, SizeInFront;
    if turns > 0 {
      var r := ScanTurn(Riff, processing, data, s);
      TurnKeepsSize(processing, data, s);
      if r.Next? {
        TurnsKeepSize(processing, data, r.s, turns - 1);
      }
    }
  }

  lemma ScanKeepsSize(processing: bool, data: seq<byte>, s: Scan)
    requires |data| <= U32_MAX && s.pos <= |data| && SizeInFront(data, s)
    ensures var r := ScanChunks(Riff, processing, data, s); r.Stop? ==> SizeInFront(data, r.s.(pos := 0))
  {
    hide ScanTurns, SizeInFront;
    if n: nat :| !ScanTurns(Riff, processing, data, s, n).Next? {
      ScanEnds(Riff, processing, data, s, n);
      TurnsKeepSize(processing, data, s, n);
    }
  }

  // ---------- where opening leaves the stream ----------

  /** A data chunk at `dataPos` whose size field reads 0xFFFFFFFF. */
  predicate Unsized(data: seq<byte>, dataPos: nat) {
    4 <= dataPos <= |data| && U32At(data, dataPos - 4) == U32_MAX
  }

  /** After opening, the stream stands at the samples exactly when this is no RIFF file with an unsized data
      chunk, or when that chunk has nothing in it; otherwise it stands at the end of the file. */
  lemma StreamAtSamples(data: seq<byte>, withMetadata: bool, arena: Arena)
    ensures var o := Open(data, withMetadata, arena);
      o.Opened? && (o.container == Riff ==> |data| <= U32_MAX) ==>
        (o.streamPos == o.dataChunkDataPos <==>
           !(o.container == Riff && Unsized(data, o.dataChunkDataPos)) || o.dataChunkDataPos == |data|)
        && (o.streamPos != o.dataChunkDataPos ==> o.streamPos == |data|)
  {
    hide ScanChunks, ReadPrologue, ReadMetadata, StartReading, BytesPerFrame, TranslatedTag, FrameCount, U32At,
         ScanTurns;
    var pro := ReadPrologue(data);
    if pro.Prologue? && pro.container == Riff && |data| <= U32_MAX {
      ScanKeepsSize(withMetadata, data, StartScan(pro, arena));
    }
  }

  // ---------- a file that shows it ----------

  /** A plain RIFF file whose data chunk claims 0xFFFFFFFF bytes opens with the true number of frames, but
      with the stream at its end. */
  lemma UnsizedFile(fmt: Fmt, ms: seq<Metadata>, riffSize: u64, samples: seq<byte>, arena: Arena)
    requires Plain(fmt) && ReaderAccepts(fmt) && !IsCompressed(TranslatedTag(fmt)) && AllPrintable(ms)
    requires 36 + |Print(ms)| + |samples| + |samples| % 2 < U32_MAX
    ensures var data := FileBytes(Riff, fmt, ms, riffSize, U32_MAX, samples);
      var o := Open(data, false, arena);
      o.Opened? && o.fmt == fmt && o.dataChunkDataPos == DataStart(Riff, ms) && o.streamPos == |data|
      && o.totalPCMFrameCount == Div(|samples| + |samples| % 2, BytesPerFrame(fmt))
  {
    hide AllPrintable, FileBytes, Print, ScanChunks, FmtChunkBytes, DataHeaderBytes, PrologueBytes, ReadPrologue,
         BytesPerFrame, U32At, TranslatedTag, FinishWith, FrameCount, Conclude;
    var data := FileBytes(Riff, fmt, ms, riffSize, U32_MAX, samples);
    FileLayout(data, Riff, fmt, ms, riffSize, U32_MAX, samples);
    PrologueBack(Riff, data, riffSize, U32_MAX);
    var s := StartScan(ReadPrologue(data), arena);
    ScanToData(data, s, fmt, ms, U32_MAX);
    var t := ScanChunks(Riff, false, data, s).s;
    assert Finish(Riff, false, data, t, 12) == Conclude(Riff, data, t, false, t.parser) by { FinishWithout(data, t); }
    ConcludeUnsized(data, t, |samples| + |samples| % 2);
  }

  /** The first walk without metadata, whatever follows the data header. */
  lemma ScanToData(data: seq<byte>, s: Scan, fmt: Fmt, ms: seq<Metadata>, n: u32)
    requires Plain(fmt) && AllPrintable(ms) && |Print(ms)| <= U32_MAX
    requires s.pos <= |data| && s.drift == 0 && s.parser.stage == CountStage
    requires At(data, s.pos, FmtChunkBytes(Riff, fmt)) && At(data, s.pos + 24, Print(ms))
    requires At(data, s.pos + 24 + |Print(ms)|, DataHeaderBytes(Riff, n))
    ensures var end := s.pos + 24 + |Print(ms)|;
      ScanChunks(Riff, false, data, s)
      == Stop(s.(pos := end, fmt := fmt, foundFmt := true, foundData := true, dataPos := end + 8, dataSize := n))
  {
    hide AllPrintable, Print, ScanChunks, FmtChunkBytes, DataHeaderBytes, Tally;
    ScanFmtChunk(Riff, false, data, s, fmt);
    var s1 := s.(pos := s.pos + 24, fmt := fmt, foundFmt := true);
    ScanPrint(Riff, false, data, s1, ms);
    TallyIdle(s1.parser, Partition(ms));
    StopsAtData(data, s1.(pos := s1.pos + |Print(ms)|), n);
  }

  lemma FinishWithout(data: seq<byte>, s: Scan)
    requires s.foundFmt && s.foundData && BasicallyValid(s.fmt) && s.dataPos <= |data| && 12 <= |data|
    ensures Finish(Riff, false, data, s, 12) == Conclude(Riff, data, s, false, s.parser)
  {
    hide ReadMetadata, Conclude, StartReading;
  }

  lemma ConcludeUnsized(data: seq<byte>, s: Scan, n: nat)
    requires s.dataSize == U32_MAX && s.factCount == 0 && s.dataPos + n == |data| && n <= U32_MAX
    requires ReaderAccepts(s.fmt) && !IsCompressed(TranslatedTag(s.fmt))
    ensures var o := Conclude(Riff, data, s, false, s.parser);
      o.Opened? && o.container == Riff && o.fmt == s.fmt && o.dataChunkDataPos == s.dataPos && o.streamPos == |data|
      && o.totalPCMFrameCount == Div(n, BytesPerFrame(s.fmt))
  {
    hide BytesPerFrame, TranslatedTag, FrameCount, Div, RoundDown;
    WholeFramesCounted(s.fmt, n);
  }

  lemma WholeFramesCounted(fmt: Fmt, n: u64)
    requires BasicallyValid(fmt) && BytesPerFrame(fmt) > 0 && !IsCompressed(TranslatedTag(fmt))
    ensures FrameCount(fmt, RoundDown(n, BytesPerFrame(fmt)), 0) == Div(n, BytesPerFrame(fmt))
  {
    hide BytesPerFrame, TranslatedTag;
    FramesOfSamples(n, BytesPerFrame(fmt));
  }

  lemma StopsAtData(data: seq<byte>, s: Scan, n: u32)
    requires s.pos <= |data| && s.drift == 0 && At(data, s.pos, DataHeaderBytes(Riff, n))
    ensures ScanChunks(Riff, false, data, s)
         == Stop(s.(foundData := true, dataPos := s.pos + 8, dataSize := n))
  {
    hide DataHeaderBytes, ReadChunkHeader, ScanFmt, ScanFact, ProcessChunk, ScanChunks;
    DataHeader(Riff, data, s.pos, n);
    ScanOn(Riff, false, data, s);
  }

  const MONO_16 := Fmt(1, 1, 8000, 16000, 2, 16, 0, 0, 0, 0, 0)

  /** Two frames of it: the samples are at 44, and the stream at 48. */
  lemma TwoFramesUnsized(arena: Arena)
    ensures var data := FileBytes(Riff, MONO_16, [], U32_MAX, U32_MAX, [1, 2, 3, 4]);
      var o := Open(data, false, arena);
      o.Opened? && o.totalPCMFrameCount == 2 && o.dataChunkDataPos == 44 && o.streamPos == |data| == 48
  {
    hide *;
    Mono();
    SmallEnough();
    UnsizedFile(MONO_16, [], U32_MAX, [1, 2, 3, 4], arena);
    EndsAt48();
    StartsAt44();
    assert Div(4, 2) == 2 by { TwoFrames(); }
  }

  lemma SmallEnough()
    ensures 36 + |Print([])| + |[1, 2, 3, 4]| + |[1, 2, 3, 4]| % 2 < U32_MAX && |[1, 2, 3, 4]| % 2 == 0
  {
    PrintNil();
  }

  lemma TwoFrames()
    ensures Div(4, 2) == 2
  {
  }

  lemma EndsAt48()
    ensures |FileBytes(Riff, MONO_16, [], U32_MAX, U32_MAX, [1, 2, 3, 4])| == 48
  {
    hide FileBytes, DataStart, PrologueBytes, FmtChunkBytes, MetadataBytes, DataHeaderBytes;
    StartsAt44();
    FileLayout(FileBytes(Riff, MONO_16, [], U32_MAX, U32_MAX, [1, 2, 3, 4]), Riff, MONO_16, [], U32_MAX, U32_MAX,
               [1, 2, 3, 4]);
  }

  lemma StartsAt44()
    ensures DataStart(Riff, []) == 44
  {
    hide Print;
    PrintNil();
  }

  lemma Mono()
    ensures Plain(MONO_16) && ReaderAccepts(MONO_16) && !IsCompressed(TranslatedTag(MONO_16))
    ensures BytesPerFrame(MONO_16) == 2 && AllPrintable([])
  {
  }

  /** Opening a file and reading frames at once. */
  method OpenAndRead(data: seq<byte>, arena: Arena, frames: nat)
    returns (o: Opening, bytes: seq<byte>, framesRead: nat)
    ensures o == Open(data, false, arena)
    ensures o.Opened? && BytesPerFrame(o.fmt) > 0 ==>
      o.streamPos <= |data| && At(data, o.streamPos, bytes) && framesRead == WholeFrames(|bytes|, BytesPerFrame(o.fmt))
    ensures o.Opened? && BytesPerFrame(o.fmt) > 0 && o.streamPos == o.dataChunkDataPos
            && o.dataChunkDataPos + o.totalPCMFrameCount * BytesPerFrame(o.fmt) <= |data| ==>
      framesRead == Min(frames, o.totalPCMFrameCount)
  {
    hide Open, BytesPerFrame;
    bytes, framesRead := [], 0;
    var stream := new MemoryReadStream(data);
    o := OpenStream(stream, false, arena);
    if o.Opened? && BytesPerFrame(o.fmt) > 0 {
      var reader := new PcmReader(stream, o.dataChunkDataPos, o.totalPCMFrameCount, BytesPerFrame(o.fmt));
      bytes, framesRead := reader.ReadPcmFrames(frames, false);
    }
  }

  /** Of an unsized file no frame is ever read that way, however many there are. */
  method ReadsNothing(fmt: Fmt, samples: seq<byte>, arena: Arena, frames: nat)
    returns (o: Opening, framesRead: nat)
    requires Plain(fmt) && ReaderAccepts(fmt) && !IsCompressed(TranslatedTag(fmt)) && |samples| < U32_MAX - 37
    ensures o.Opened? && framesRead == 0
    ensures o.totalPCMFrameCount == Div(|samples| + |samples| % 2, BytesPerFrame(fmt))
  {
    hide FileBytes, BytesPerFrame, Print, TranslatedTag, Open;
    var data := FileBytes(Riff, fmt, [], U32_MAX, U32_MAX, samples);
    PrintNil();
    UnsizedFile(fmt, [], U32_MAX, samples, arena);
    var bytes;
    o, bytes, framesRead := OpenAndRead(data, arena, frames);
    assert bytes == [] by { assert At(data, |data|, bytes); }
    WholeFramesExact(0, BytesPerFrame(fmt));
  }
}
