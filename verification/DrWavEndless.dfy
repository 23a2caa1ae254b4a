/** Files on which opening does not come to an end: distances of 2 GiB and more are cast to an `int` and
    lead backwards, onto a chunk that has been read before. */
module DrWavEndless {
  import opened Bytes
  import opened DrWavMetadata
  import opened DrWavStreams
  import opened DrWavParserSpec
  import opened DrWavLeafRoundTrip
  import opened DrWavListRoundTrip
  import opened DrWavOpenSpec
  import opened DrWavWalks
  import opened DrWavFile
  import opened DrWavOpenRoundTrip
  import opened DrWavUnsized
  import opened DrWavWriter
  import DrWavRoundTrip

  // ---------- a fmt chunk that leads back to itself ----------

  const BACK_TO_HEADER: u32 := 0xFFFF_FFF8
  const BACK_FROM_SUBCHUNK: u32 := 0xFFFF_FFF0

  function LoopingFmt(fmt: Fmt): (s: seq<byte>)
    ensures |s| == 26
  {
    LE32(ID_FMT) + LE32(BACK_TO_HEADER) + (FmtBytes(fmt) + LE16(0))
  }

  lemma FmtComesBack(container: Container, processing: bool, data: seq<byte>, s: Scan, fmt: Fmt)
    requires container != W64 && Plain(fmt) && s.pos <= |data| && At(data, s.pos, LoopingFmt(fmt))
    ensures var r := ScanTurn(container, processing, data, s); r.Next? && r.s.pos == s.pos
  {
    hide FmtBytes, LE32, LE16, U16At, U32At, FmtFrom, ToInt32;
    AtSplit3(data, s.pos, LE32(ID_FMT), LE32(BACK_TO_HEADER), FmtBytes(fmt) + LE16(0));
    AtSplit(data, s.pos + 8, FmtBytes(fmt), LE16(0));
    LE32RoundTrip(data, s.pos, ID_FMT);
    LE32RoundTrip(data, s.pos + 4, BACK_TO_HEADER);
    LE16RoundTrip(data, s.pos + 24, 0);
    HeaderWords(container, data, s.pos);
    assert ToInt32(ToU64(BACK_TO_HEADER - 18)) == -26 by { BackBy26(); }
  }

  lemma BackBy26()
    ensures ToInt32(ToU64(BACK_TO_HEADER - 18)) == -26
  {
  }

  lemma {:induction false} FmtHoldsTurns(container: Container, processing: bool, data: seq<byte>, s: Scan, fmt: Fmt,
                                         turns: nat)
    requires container != W64 && Plain(fmt) && s.pos <= |data| && At(data, s.pos, LoopingFmt(fmt))
    ensures ScanTurns(container, processing, data, s, turns).Next?
    decreases turns
  {
    hide ScanTurn, LoopingFmt;
    if turns > 0 {
      FmtComesBack(container, processing, data, s, fmt);
      FmtHoldsTurns(container, processing, data, ScanTurn(container, processing, data, s).s, fmt, turns - 1);
    }
  }

  /** Thirty-eight bytes at the head of a file are enough to hang the opener, with metadata or without. */
  lemma FmtHangs(fmt: Fmt, riffSize: u64, rest: seq<byte>, withMetadata: bool, arena: Arena)
    requires Plain(fmt)
    ensures Open(PrologueBytes(Riff, riffSize, 0) + LoopingFmt(fmt) + rest, withMetadata, arena) == Hangs
  {
    hide PrologueBytes, LoopingFmt, ReadPrologue, ScanChunks, ScanTurns;
    var data := PrologueBytes(Riff, riffSize, 0) + LoopingFmt(fmt) + rest;
    assert data == [] + PrologueBytes(Riff, riffSize, 0) + (LoopingFmt(fmt) + rest);
    AtWhole(data, [], PrologueBytes(Riff, riffSize, 0), LoopingFmt(fmt) + rest);
    AtWhole(data, PrologueBytes(Riff, riffSize, 0), LoopingFmt(fmt), rest);
    PrologueBack(Riff, data, riffSize, 0);
    var s := StartScan(ReadPrologue(data), arena);
    forall n: nat ensures ScanTurns(Riff, withMetadata, data, s, n).Next? {
      FmtHoldsTurns(Riff, withMetadata, data, s, fmt, n);
    }
    ScanNever(Riff, withMetadata, data, s);
  }

  // ---------- a LIST that leads back to itself ----------

  function LoopingList(id: FourCC): (s: seq<byte>)
    ensures |s| == 16
  {
    LE32(ID_LIST) + LE32(BACK_TO_HEADER) + (LE32(id) + LE32(BACK_FROM_SUBCHUNK))
  }

  lemma ListWords(data: seq<byte>, pos: nat, id: FourCC)
    requires At(data, pos, LoopingList(id))
    ensures pos + 16 <= |data| && U32At(data, pos) == ID_LIST && U32At(data, pos + 4) == BACK_TO_HEADER
    ensures U32At(data, pos + 8) == id && U32At(data, pos + 12) == BACK_FROM_SUBCHUNK
  {
    hide LE32, U32At;
    AtSplit3(data, pos, LE32(ID_LIST), LE32(BACK_TO_HEADER), LE32(id) + LE32(BACK_FROM_SUBCHUNK));
    AtSplit(data, pos + 8, LE32(id), LE32(BACK_FROM_SUBCHUNK));
    LE32RoundTrip(data, pos, ID_LIST);
    LE32RoundTrip(data, pos + 4, BACK_TO_HEADER);
    LE32RoundTrip(data, pos + 8, id);
    LE32RoundTrip(data, pos + 12, BACK_FROM_SUBCHUNK);
  }

  /** The subchunk's size, cast, is -16: its own header and that of the list. */
  lemma SubchunkComesBack(data: seq<byte>, pos: nat, p: Parser, id: FourCC)
    requires pos + 16 <= |data| && !KnownInList(id)
    ensures SubchunkTurn(data, pos + 16, p, id, BACK_FROM_SUBCHUNK, InvalidLocation)
         == Turn(true, pos, p, BACK_FROM_SUBCHUNK)
  {
  }

  lemma ListProcessed(data: seq<byte>, pos: nat, p: Parser, id: FourCC)
    requires At(data, pos, LoopingList(id)) && !KnownInList(id)
    ensures ProcessChunk(data, pos + 8, p, ID_LIST, BACK_TO_HEADER) == Step(pos, p, BACK_TO_HEADER)
  {
    hide U32At, SubchunkTurn, LoopingList, ReadAt;
    ListWords(data, pos, id);
    ReadWord(data, pos + 8);
    ReadWord(data, pos + 12);
    SubchunkComesBack(data, pos, p, id);
    assert ListItem(data, pos + 8, p, InvalidLocation, 0) == Item(true, pos, p, InvalidLocation, BACK_TO_HEADER);
    assert ProcessList(data, pos, p, InvalidLocation, BACK_TO_HEADER, BACK_TO_HEADER) == Step(pos, p, BACK_TO_HEADER);
  }

  lemma ListComesBack(container: Container, data: seq<byte>, pos: nat, p: Parser, id: FourCC)
    requires container != W64 && At(data, pos, LoopingList(id)) && !KnownInList(id)
    ensures ReadTurn(container, data, pos, p) == Midway(pos, p)
  {
    hide U32At, ProcessChunk, LoopingList, ReadChunkHeader;
    ListWords(data, pos, id);
    HeaderWords(container, data, pos);
    ListProcessed(data, pos, p, id);
  }

  lemma {:induction false} ListHoldsTurns(container: Container, data: seq<byte>, pos: nat, p: Parser, id: FourCC,
                                          turns: nat)
    requires container != W64 && At(data, pos, LoopingList(id)) && !KnownInList(id)
    ensures ReadTurns(container, data, pos, p, turns) == Midway(pos, p)
    decreases turns
  {
    hide ReadTurn, LoopingList;
    if turns > 0 {
      ListComesBack(container, data, pos, p, id);
      ListHoldsTurns(container, data, pos, p, id, turns - 1);
    }
  }

  /** The second walk never gets past such a list, wherever it meets one. */
  lemma ListHolds(container: Container, data: seq<byte>, pos: nat, p: Parser, id: FourCC)
    requires container != W64 && At(data, pos, LoopingList(id)) && !KnownInList(id)
    ensures ReadMetadata(container, data, pos, p) == ReadsForever
  {
    hide ReadTurns, ReadMetadata, LoopingList;
    forall n: nat ensures ReadTurns(container, data, pos, p, n).Midway? {
      ListHoldsTurns(container, data, pos, p, id, n);
    }
    ReadNever(container, data, pos, p);
  }

  // ---------- files that end in such a list ----------

  function ListFile(fmt: Fmt, ms: seq<Metadata>, riffSize: u64, samples: seq<byte>, id: FourCC): seq<byte>
    requires |samples| <= U32_MAX
  {
    FileBytes(Riff, fmt, ms, riffSize, |samples|, samples) + LoopingList(id)
  }

  /** The first walk passes over the data, looks at the list, counts nothing, and stops because the list
      claims to reach past the end. */
  lemma ScanListFile(data: seq<byte>, s: Scan, n: u32, id: FourCC)
    requires s.pos <= |data| && s.drift == 0 && At(data, s.pos, DataHeaderBytes(Riff, n)) && !KnownInList(id)
    requires At(data, s.pos + 8 + n + n % 2, LoopingList(id)) && |data| == s.pos + 24 + n + n % 2 < BACK_TO_HEADER
    ensures EndsWith(ScanChunks(Riff, true, data, s), s, s.pos + 8, n)
  {
    hide DataHeaderBytes, ReadChunkHeader, ScanFmt, ScanFact, ProcessChunk, ScanChunks, LoopingList, U32At;
    DataHeader(Riff, data, s.pos, n);
    ScanOn(Riff, true, data, s);
    var s1 := s.(pos := s.pos + 8 + n + n % 2, foundData := true, dataPos := s.pos + 8, dataSize := n);
    ScanOn(Riff, true, data, s1);
    ListWords(data, s1.pos, id);
    HeaderWords(Riff, data, s1.pos);
    ListProcessed(data, s1.pos, s1.parser, id);
  }

  /** Where the parts of such a file are. */
  lemma ListLayout(data: seq<byte>, fmt: Fmt, ms: seq<Metadata>, riffSize: u64, samples: seq<byte>, id: FourCC)
    requires |samples| <= U32_MAX && data == ListFile(fmt, ms, riffSize, samples, id)
    ensures var n, start := |samples|, DataStart(Riff, ms);
      At(data, 0, PrologueBytes(Riff, riffSize, n)) && At(data, 12, FmtChunkBytes(Riff, fmt))
      && At(data, 36, Print(ms)) && At(data, 36 + |Print(ms)|, DataHeaderBytes(Riff, n))
      && start == 44 + |Print(ms)| && At(data, start + n + n % 2, LoopingList(id)) && |data| == start + n + n % 2 + 16
  {
    hide FileBytes, LoopingList, PrologueBytes, FmtChunkBytes, Print, DataHeaderBytes;
    var file := FileBytes(Riff, fmt, ms, riffSize, |samples|, samples);
    FileLayout(file, Riff, fmt, ms, riffSize, |samples|, samples);
    AtWhole(data, file, LoopingList(id), []) by { assert data == file + LoopingList(id) + []; }
    AtExtended(file, LoopingList(id), 0, PrologueBytes(Riff, riffSize, |samples|));
    AtExtended(file, LoopingList(id), 12, FmtChunkBytes(Riff, fmt));
    AtExtended(file, LoopingList(id), 36, Print(ms));
    AtExtended(file, LoopingList(id), 36 + |Print(ms)|, DataHeaderBytes(Riff, |samples|));
  }

  lemma AtExtended(data: seq<byte>, more: seq<byte>, pos: nat, piece: seq<byte>)
    requires At(data, pos, piece)
    ensures At(data + more, pos, piece)
  {
    assert (data + more)[pos..pos + |piece|] == data[pos..pos + |piece|];
  }

  /** Sixteen bytes behind a file with metadata: opening it for its metadata never comes to an end, and
      without it the file opens as if they were not there. */
  lemma ListHangs(fmt: Fmt, ms: seq<Metadata>, riffSize: u64, samples: seq<byte>, id: FourCC, arena: Arena)
    requires Plain(fmt) && ReaderAccepts(fmt) && AllPrintable(ms) && Partition(ms) != [] && !KnownInList(id)
    requires 60 + |Print(ms)| + |samples| + |samples| % 2 < BACK_TO_HEADER
    ensures Open(ListFile(fmt, ms, riffSize, samples, id), true, arena) == Hangs
    ensures Open(ListFile(fmt, ms, riffSize, samples, id), false, arena)
         == Reopened(Riff, fmt, ms, |samples|, false)
  {
    hide ListFile, Open, OpenFrom, ReadPrologue, AllPrintable, Print, Partition, KnownInList, FmtChunkBytes,
         DataHeaderBytes, PrologueBytes, LoopingList, At, ReaderAccepts, Reopened, DataStart;
    var data, n := ListFile(fmt, ms, riffSize, samples, id), |samples|;
    ListLayout(data, fmt, ms, riffSize, samples, id);
    PrologueBack(Riff, data, riffSize, n);
    OpensFromPrologue(data, true, arena);
    OpensFromPrologue(data, false, arena);
    HangsOnSecond(data, fmt, ms, n, id, arena);
    OpensOnFirst(data, fmt, ms, n, arena);
  }

  /** A title, an instrument, two frames, and the list. */
  lemma SmallListHangs(riffSize: u64, arena: Arena)
    ensures Open(ListFile(FmtOf(DrWavRoundTrip.SMALL_FORMAT), DrWavRoundTrip.SmallList(), riffSize, [1, 2, 3, 4],
                          0x4B4E_554A), true, arena) == Hangs
  {
    hide Open, ListFile, FmtOf, Partition, AllPrintable, Print, Completed, ReaderAccepts;
    var f, ms := DrWavRoundTrip.SMALL_FORMAT, DrWavRoundTrip.SmallList();
    DrWavRoundTrip.SmallInputs();
    DrWavRoundTrip.TopLevelFirst(ms[0], ms[1]);
    DrWavRoundTrip.CompletedNothing();
    assert ms == [ms[0], ms[1]];
    DrWavRoundTrip.PortableFmt(f);
    DrWavRoundTrip.PlainFmt(f);
    ListHangs(FmtOf(f), ms, riffSize, [1, 2, 3, 4], 0x4B4E_554A, arena);
  }

  lemma OpensFromPrologue(data: seq<byte>, withMetadata: bool, arena: Arena)
    requires ReadPrologue(data) == Prologue(Riff, 12, 0, 0)
    ensures 12 <= |data|
    ensures Open(data, withMetadata, arena) == OpenFrom(Prologue(Riff, 12, 0, 0), data, withMetadata, arena)
  {
    hide ReadPrologue, OpenFrom;
  }

  lemma HangsOnSecond(data: seq<byte>, fmt: Fmt, ms: seq<Metadata>, n: u32, id: FourCC, arena: Arena)
    requires Plain(fmt) && ReaderAccepts(fmt) && AllPrintable(ms) && Partition(ms) != [] && !KnownInList(id)
    requires At(data, 12, FmtChunkBytes(Riff, fmt)) && At(data, 36, Print(ms)) && |Print(ms)| <= U32_MAX
    requires At(data, 36 + |Print(ms)|, DataHeaderBytes(Riff, n))
    requires At(data, 44 + |Print(ms)| + n + n % 2, LoopingList(id))
    requires |data| == 60 + |Print(ms)| + n + n % 2 < BACK_TO_HEADER
    ensures OpenFrom(Prologue(Riff, 12, 0, 0), data, true, arena) == Hangs
  {
    hide AllPrintable, Print, ScanChunks, FmtChunkBytes, DataHeaderBytes, Tally, Partition, LoopingList, ReadMetadata,
         StartReading, KnownInList, Conclude, BytesPerFrame, TranslatedTag;
    var s := StartScan(Prologue(Riff, 12, 0, 0), arena);
    ScanFmtChunk(Riff, true, data, s, fmt);
    var s1 := s.(pos := 36, fmt := fmt, foundFmt := true);
    ScanPrint(Riff, true, data, s1, ms);
    var s2 := s1.(pos := 36 + |Print(ms)|, parser := Tally(true, s.parser, Partition(ms)));
    ScanListFile(data, s2, n, id);
    TallyCounts(s.parser, Partition(ms));
    SecondHangs(data, fmt, ms, n, id, StartReading(s2.parser)) by { ReadingStarts(s2.parser); }
  }

  lemma SecondHangs(data: seq<byte>, fmt: Fmt, ms: seq<Metadata>, n: u32, id: FourCC, p: Parser)
    requires AllPrintable(ms) && !KnownInList(id) && p.stage == ReadStage
    requires At(data, 12, FmtChunkBytes(Riff, fmt)) && At(data, 36, Print(ms)) && |Print(ms)| <= U32_MAX
    requires At(data, 36 + |Print(ms)|, DataHeaderBytes(Riff, n))
    requires At(data, 44 + |Print(ms)| + n + n % 2, LoopingList(id))
    ensures 12 <= |data| && ReadMetadata(Riff, data, 12, p) == ReadsForever
  {
    hide ReadMetadata, AllPrintable, FmtChunkBytes, DataHeaderBytes, Print, Partition, ExtraSum, U32At, LoopingList,
         KnownInList;
    FmtHeaderWords(Riff, data, 12, fmt);
    ReadIgnored(Riff, data, 12, p, ID_FMT, 16);
    var q := ReadPrint(Riff, data, 36, p, ms);
    var dataHeader := 36 + |Print(ms)|;
    DataHeaderWords(Riff, data, dataHeader, n);
    ReadIgnored(Riff, data, dataHeader, q, ID_DATA, n);
    ListHolds(Riff, data, dataHeader + 8 + n + n % 2, q, id);
  }

  lemma OpensOnFirst(data: seq<byte>, fmt: Fmt, ms: seq<Metadata>, n: u32, arena: Arena)
    requires Plain(fmt) && ReaderAccepts(fmt) && AllPrintable(ms) && DataStart(Riff, ms) == 44 + |Print(ms)|
    requires At(data, 12, FmtChunkBytes(Riff, fmt)) && At(data, 36, Print(ms)) && |Print(ms)| + n < BACK_TO_HEADER - 60
    requires At(data, 36 + |Print(ms)|, DataHeaderBytes(Riff, n))
    ensures OpenFrom(Prologue(Riff, 12, 0, 0), data, false, arena) == Reopened(Riff, fmt, ms, n, false)
  {
    hide AllPrintable, Print, ScanChunks, FmtChunkBytes, DataHeaderBytes, Partition, ReadMetadata, Completed, Conclude,
         StartReading, BytesPerFrame, TranslatedTag, DataStart, Reopened;
    var s := StartScan(Prologue(Riff, 12, 0, 0), arena);
    ScanToData(data, s, fmt, ms, n);
    var t := ScanChunks(Riff, false, data, s).s;
    ConcludeFile(Riff, data, fmt, ms, n, false, t, false, t.parser);
  }
}
