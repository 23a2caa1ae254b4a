/** A file that the writer leaves behind and the reader refuses: an empty INFO string is counted into the
    size of its LIST but not written, so that the LIST swallows the header of the data chunk. */
module DrWavEmptyText {
  import opened Bytes
  import opened DrWavMetadata
  import opened DrWavStreams
  import opened DrWavParserSpec
  import opened DrWavListRoundTrip
  import opened DrWavOpenSpec
  import opened DrWavWalks
  import opened DrWavFile

  /** The LIST of one empty string declares fourteen bytes and has four. */
  lemma EmptyList(k: InfoKind)
    ensures Print([InfoText(k, [])]) == LE32(ID_LIST) + LE32(14) + LE32(ID_INFO)
  {
    hide LE32;
    var m := InfoText(k, []);
    assert [m][1..] == [];
    assert Belongs(Info, [m][0]) && !Belongs(Top, m) && !Belongs(Adtl, m);
    assert Has(Info, [m]) && !Has(Adtl, [m]);
    EmptyPieces(m);
    assert Print([m]) == [] + (LE32(ID_LIST) + LE32(14) + LE32(ID_INFO) + []) + [];
  }

  lemma EmptyPieces(m: Metadata)
    requires m.InfoText? && m.text == []
    ensures Pieces(Top, [m]) == [] && Pieces(Info, [m]) == [] && DeclaredPieces(Info, [m]) == 10
  {
    assert [m][1..] == [];
    assert Pieces(Top, []) == [] && Pieces(Info, []) == [] && DeclaredPieces(Info, []) == 0;
  }

  /** The first walk passes over the list and the data header in it, and finds no header behind them. */
  lemma ScanLosesData(processing: bool, data: seq<byte>, s: Scan)
    requires s.pos == 36 && s.drift == 0 && |data| <= 64 && At(data, 36, LE32(ID_LIST) + LE32(14) + LE32(ID_INFO))
    ensures var r := ScanChunks(Riff, processing, data, s); r.Stop? && r.s.foundData == s.foundData
  {
    hide ScanChunks, ReadChunkHeader, ScanFmt, ScanData, ScanFact, ProcessChunk, LE32, U32At;
    AtSplit3(data, 36, LE32(ID_LIST), LE32(14), LE32(ID_INFO));
    LE32RoundTrip(data, 36, ID_LIST);
    LE32RoundTrip(data, 40, 14);
    HeaderWords(Riff, data, 36);
    ScanOn(Riff, processing, data, s);
    var r := ScanTurn(Riff, processing, data, s);
    if r.Next? {
      assert r.s.pos == 58;
      ScanOn(Riff, processing, data, r.s);
      NoHeaderLeft(data, 58);
    }
  }

  lemma NoHeaderLeft(data: seq<byte>, pos: nat)
    requires pos <= |data| < pos + 8
    ensures ReadChunkHeader(Riff, data, pos) == NoHeader
  {
  }

  /** Such a file, with few samples, can not be opened again, with its metadata or without. */
  lemma EmptyTextRefused(fmt: Fmt, k: InfoKind, riffSize: u64, samples: seq<byte>, withMetadata: bool, arena: Arena)
    requires Plain(fmt) && |samples| <= 8
    ensures Open(FileBytes(Riff, fmt, [InfoText(k, [])], riffSize, |samples|, samples), withMetadata, arena) == Rejected
  {
    hide FileBytes, Print, ScanChunks, FmtChunkBytes, DataHeaderBytes, PrologueBytes, ReadPrologue, LE32, Conclude,
         ReadMetadata, StartReading, BasicallyValid;
    var ms, n := [InfoText(k, [])], |samples|;
    var data := FileBytes(Riff, fmt, ms, riffSize, n, samples);
    EmptyList(k);
    FileLayout(data, Riff, fmt, ms, riffSize, n, samples);
    PrologueBack(Riff, data, riffSize, n);
    var s := StartScan(ReadPrologue(data), arena);
    ScanFmtChunk(Riff, withMetadata, data, s, fmt);
    ScanLosesData(withMetadata, data, s.(pos := 36, fmt := fmt, foundFmt := true));
  }

  /** One of them, of sixty bytes. */
  lemma EmptyTitleRefused(withMetadata: bool, arena: Arena)
    ensures var fmt := Fmt(1, 1, 8000, 16000, 2, 16, 0, 0, 0, 0, 0);
      Open(FileBytes(Riff, fmt, [InfoText(Title, [])], 52, 4, [1, 2, 3, 4]), withMetadata, arena) == Rejected
  {
    hide FileBytes, Open;
    EmptyTextRefused(Fmt(1, 1, 8000, 16000, 2, 16, 0, 0, 0, 0, 0), Title, 52, [1, 2, 3, 4], withMetadata, arena);
  }
}
