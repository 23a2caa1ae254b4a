/** dr_wav's metadata objects and the bytes they become in a WAV file: top-level chunks first, then
    one LIST/INFO chunk, then one LIST/adtl chunk. */
module DrWavMetadata {
  import opened Bytes

  /** A four-character code, as the little-endian number its four bytes spell. */
  type FourCC = u32

  const ID_SMPL: FourCC := 0x6C70_6D73  // "smpl"
  const ID_INST: FourCC := 0x7473_6E69  // "inst"
  const ID_CUE: FourCC := 0x2065_7563   // "cue "
  const ID_ACID: FourCC := 0x6469_6361  // "acid"
  const ID_BEXT: FourCC := 0x7478_6562  // "bext"
  const ID_LIST: FourCC := 0x5453_494C  // "LIST"
  const ID_list: FourCC := 0x7473_696C  // "list"
  const ID_INFO: FourCC := 0x4F46_4E49  // "INFO"
  const ID_ADTL: FourCC := 0x6C74_6461  // "adtl"
  const ID_LABL: FourCC := 0x6C62_616C  // "labl"
  const ID_NOTE: FourCC := 0x6574_6F6E  // "note"
  const ID_LTXT: FourCC := 0x7478_746C  // "ltxt"
  const ID_ISFT: FourCC := 0x5446_5349  // "ISFT"
  const ID_ICOP: FourCC := 0x504F_4349  // "ICOP"
  const ID_INAM: FourCC := 0x4D41_4E49  // "INAM"
  const ID_IART: FourCC := 0x5452_4149  // "IART"
  const ID_ICMT: FourCC := 0x544D_4349  // "ICMT"
  const ID_ICRD: FourCC := 0x4452_4349  // "ICRD"
  const ID_IGNR: FourCC := 0x524E_4749  // "IGNR"
  const ID_IPRD: FourCC := 0x4452_5049  // "IPRD"
  const ID_ITRK: FourCC := 0x4B52_5449  // "ITRK"
  const ID_FMT: FourCC := 0x2074_6D66   // "fmt "
  const ID_DATA: FourCC := 0x6174_6164  // "data"
  const ID_FACT: FourCC := 0x7463_6166  // "fact"

  const SMPL_BYTES := 36
  const SMPL_LOOP_BYTES := 24
  const INST_BYTES := 7
  const ACID_BYTES := 24
  const CUE_BYTES := 4
  const CUE_POINT_BYTES := 24
  const BEXT_BYTES := 602
  const LABEL_OR_NOTE_BYTES := 4
  const LABELLED_TEXT_BYTES := 20

  datatype InfoKind =
    | Software | Copyright | Title | Artist | Comment | Date | Genre | Album | TrackNumber

  datatype Location = InvalidLocation | TopLevel | InsideInfoList | InsideAdtlList

  datatype LabelKind = LabelText | NoteText

  datatype SmplHeader = SmplHeader(
    manufacturerId: u32, productId: u32, samplePeriodNanoseconds: u32, midiUnityNote: u32,
    midiPitchFraction: u32, smpteFormat: u32, smpteOffset: u32)

  datatype SmplLoop = SmplLoop(
    cuePointId: u32, loopType: u32, firstSampleOffset: u32, lastSampleOffset: u32,
    sampleFraction: u32, playCount: u32)

  datatype CuePoint = CuePoint(
    id: u32, playOrderPosition: u32, dataChunkId: FourCC, chunkStart: u32, blockStart: u32,
    sampleOffset: u32)

  /** One metadata object. Counts and string lengths are the lengths of the sequences; a `float`
      field is its 32 bits. */
  datatype Metadata =
    | Smpl(header: SmplHeader, loops: seq<SmplLoop>, samplerData: seq<byte>)
    | Inst(midiUnityNote: i8, fineTuneCents: i8, gainDecibels: i8, lowNote: i8, highNote: i8,
           lowVelocity: i8, highVelocity: i8)
    | Cue(points: seq<CuePoint>)
    | Acid(flags: u32, unityNote: u16, reserved1: u16, reserved2: u32, numBeats: u32,
           meterDenominator: u16, meterNumerator: u16, tempo: u32)
    | LabelOrNote(labelKind: LabelKind, cuePointId: u32, text: seq<byte>)
    | LabelledCueRegion(regionCuePointId: u32, sampleLength: u32, purposeId: FourCC, country: u16,
                        language: u16, dialect: u16, codePage: u16, text: seq<byte>)
    | InfoText(info: InfoKind, text: seq<byte>)
    | Unknown(id: FourCC, location: Location, data: seq<byte>)

  function InfoId(k: InfoKind): FourCC {
    match k
    case Software => ID_ISFT
    case Copyright => ID_ICOP
    case Title => ID_INAM
    case Artist => ID_IART
    case Comment => ID_ICMT
    case Date => ID_ICRD
    case Genre => ID_IGNR
    case Album => ID_IPRD
    case TrackNumber => ID_ITRK
  }

  // ---------- chunk bodies ----------

  function SmplWords(h: SmplHeader, loopCount: u32, dataSize: u32): (ws: seq<u32>)
    ensures |ws| == 9
  {
    [h.manufacturerId, h.productId, h.samplePeriodNanoseconds, h.midiUnityNote,
     h.midiPitchFraction, h.smpteFormat, h.smpteOffset, loopCount, dataSize]
  }

  function LoopWords(l: SmplLoop): (ws: seq<u32>)
    ensures |ws| == 6
  {
    [l.cuePointId, l.loopType, l.firstSampleOffset, l.lastSampleOffset, l.sampleFraction, l.playCount]
  }

  function LoopsBytes(ls: seq<SmplLoop>): (s: seq<byte>)
    ensures |s| == SMPL_LOOP_BYTES * |ls|
  {
    if ls == [] then [] else Words(LoopWords(ls[0])) + LoopsBytes(ls[1..])
  }

  function PointWords(p: CuePoint): (ws: seq<u32>)
    ensures |ws| == 6
  {
    [p.id, p.playOrderPosition, p.dataChunkId, p.chunkStart, p.blockStart, p.sampleOffset]
  }

  function PointsBytes(ps: seq<CuePoint>): (s: seq<byte>)
    ensures |s| == CUE_POINT_BYTES * |ps|
  {
    if ps == [] then [] else Words(PointWords(ps[0])) + PointsBytes(ps[1..])
  }

  /** A string and its terminator; the empty string leaves nothing behind. */
  function Terminated(text: seq<byte>): (s: seq<byte>)
    ensures |s| == TerminatedSize(text)
  {
    if text == [] then [] else text + [0]
  }

  function TerminatedSize(text: seq<byte>): nat {
    if text == [] then 0 else |text| + 1
  }

  /** The chunk size the writer computes before it writes the body. */
  function BodySize(m: Metadata): nat {
    match m
    case Smpl(_, loops, data) => SMPL_BYTES + SMPL_LOOP_BYTES * |loops| + |data|
    case Inst(_, _, _, _, _, _, _) => INST_BYTES
    case Cue(points) => CUE_BYTES + CUE_POINT_BYTES * |points|
    case Acid(_, _, _, _, _, _, _, _) => ACID_BYTES
    case LabelOrNote(_, _, text) => LABEL_OR_NOTE_BYTES + TerminatedSize(text)
    case LabelledCueRegion(_, _, _, _, _, _, _, text) => LABELLED_TEXT_BYTES + TerminatedSize(text)
    case InfoText(_, text) => TerminatedSize(text)
    case Unknown(_, _, data) => |data|
  }

  /** What the chunk of `m` holds between its header and its padding. */
  function Body(m: Metadata): (s: seq<byte>)
    ensures |s| == BodySize(m)
  {
    match m
    case Smpl(h, loops, data) =>
      Words(SmplWords(h, ToU32(|loops|), ToU32(|data|))) + LoopsBytes(loops) + data
    case Inst(a, b, c, d, e, f, g) =>
      [FromI8(a), FromI8(b), FromI8(c), FromI8(d), FromI8(e), FromI8(f), FromI8(g)]
    case Cue(points) => LE32(ToU32(|points|)) + PointsBytes(points)
    case Acid(fl, un, r1, r2, nb, md, mn, te) =>
      LE32(fl) + Halves([un, r1]) + Words([r2, nb]) + Halves([md, mn]) + LE32(te)
    case LabelOrNote(_, cue, text) => LE32(cue) + Terminated(text)
    case LabelledCueRegion(cue, len, purpose, co, la, di, cp, text) =>
      Words([cue, len, purpose]) + Halves([co, la, di, cp]) + Terminated(text)
    case InfoText(_, text) => Terminated(text)
    case Unknown(_, _, data) => data
  }

  function ChunkId(m: Metadata): FourCC {
    match m
    case Smpl(_, _, _) => ID_SMPL
    case Inst(_, _, _, _, _, _, _) => ID_INST
    case Cue(_) => ID_CUE
    case Acid(_, _, _, _, _, _, _, _) => ID_ACID
    case LabelOrNote(k, _, _) => if k == LabelText then ID_LABL else ID_NOTE
    case LabelledCueRegion(_, _, _, _, _, _, _, _) => ID_LTXT
    case InfoText(k, _) => InfoId(k)
    case Unknown(id, _, _) => id
  }

  // ---------- chunks and lists ----------

  function RoundUpEven(n: nat): (r: nat)
    ensures r % 2 == 0 && n <= r <= n + 1
  {
    n + n % 2
  }

  function Padding(n: nat): (s: seq<byte>)
    ensures |s| == n % 2
  {
    if n % 2 == 1 then [0] else []
  }

  function Chunk(id: FourCC, body: seq<byte>): (s: seq<byte>)
    ensures |s| == 8 + RoundUpEven(|body|)
  {
    LE32(id) + LE32(ToU32(|body|)) + body + Padding(|body|)
  }

  /** The three places a metadata object can be written to. */
  datatype Part = Top | Info | Adtl

  /** Where `m` belongs; an unknown chunk without a valid location belongs nowhere. */
  predicate Belongs(part: Part, m: Metadata) {
    match m
    case Unknown(_, TopLevel, _) => part == Top
    case Unknown(_, InsideInfoList, _) => part == Info
    case Unknown(_, InsideAdtlList, _) => part == Adtl
    case Unknown(_, InvalidLocation, _) => false
    case InfoText(_, _) => part == Info
    case LabelOrNote(_, _, _) => part == Adtl
    case LabelledCueRegion(_, _, _, _, _, _, _, _) => part == Adtl
    case _ => part == Top
  }

  /** The objects the writer counts in a list's declared size but never writes. */
  predicate Skipped(m: Metadata) {
    match m
    case InfoText(_, text) => text == []
    case LabelOrNote(_, _, text) => text == []
    case Unknown(_, InsideInfoList, data) => data == []
    case _ => false
  }

  function Piece(part: Part, m: Metadata): (s: seq<byte>)
    ensures |s| == if Belongs(part, m) && !Skipped(m) then 8 + RoundUpEven(BodySize(m)) else 0
  {
    if Belongs(part, m) && !Skipped(m) then Chunk(ChunkId(m), Body(m)) else []
  }

  function Pieces(part: Part, ms: seq<Metadata>): seq<byte> {
    if ms == [] then [] else Piece(part, ms[0]) + Pieces(part, ms[1..])
  }

  /** What `m` adds to the declared size of its list (dr_wav.h:4161-4175 and 4229-4269). A list
      counts an empty INFO string as one byte and an empty label as its four fixed bytes. */
  function DeclaredPiece(part: Part, m: Metadata): nat {
    if !Belongs(part, m) || part == Top then 0
    else match m
      case InfoText(_, text) => RoundUpEven(8 + |text| + 1)
      case LabelOrNote(_, _, text) =>
        RoundUpEven(8 + LABEL_OR_NOTE_BYTES + TerminatedSize(text))
      case LabelledCueRegion(_, _, _, _, _, _, _, text) =>
        RoundUpEven(8 + LABELLED_TEXT_BYTES + TerminatedSize(text))
      case Unknown(_, _, data) => RoundUpEven(8 + |data|)
      case _ => 0
  }

  function DeclaredPieces(part: Part, ms: seq<Metadata>): nat {
    if ms == [] then 0 else DeclaredPiece(part, ms[0]) + DeclaredPieces(part, ms[1..])
  }

  predicate Has(part: Part, ms: seq<Metadata>) {
    exists i :: 0 <= i < |ms| && Belongs(part, ms[i])
  }

  function ListTag(part: Part): FourCC {
    if part == Info then ID_INFO else ID_ADTL
  }

  /** A LIST chunk, when some object belongs in it: 4 counts the tag. */
  function ListChunk(part: Part, ms: seq<Metadata>): seq<byte> {
    if Has(part, ms) then
      LE32(ID_LIST) + LE32(ToU32(4 + DeclaredPieces(part, ms))) + LE32(ListTag(part)) + Pieces(part, ms)
    else []
  }

  /** Everything the writer emits for `ms`. */
  function Print(ms: seq<Metadata>): seq<byte> {
    Pieces(Top, ms) + ListChunk(Info, ms) + ListChunk(Adtl, ms)
  }

  // ---------- laws of the printed form ----------

  lemma {:induction false} PiecesConcat(part: Part, a: seq<Metadata>, b: seq<Metadata>)
    ensures Pieces(part, a + b) == Pieces(part, a) + Pieces(part, b)
    ensures DeclaredPieces(part, a + b) == DeclaredPieces(part, a) + DeclaredPieces(part, b)
    decreases |a|
  {
    if a == [] {
      assert a + b == b;
    } else {
      assert (a + b)[1..] == a[1..] + b;
      PiecesConcat(part, a[1..], b);
      assert Piece(part, a[0]) + (Pieces(part, a[1..]) + Pieces(part, b))
          == Piece(part, a[0]) + Pieces(part, a[1..]) + Pieces(part, b);
    }
  }

  /** One object: the declared size covers what is written, exactly unless it is skipped. */
  lemma DeclaredPieceCovers(part: Part, m: Metadata)
    requires part != Top
    ensures |Piece(part, m)| % 2 == 0
    ensures |Piece(part, m)| <= DeclaredPiece(part, m)
    ensures |Piece(part, m)| == DeclaredPiece(part, m) <==> !(Belongs(part, m) && Skipped(m))
  {
    hide Body, Chunk;
    if Belongs(part, m) {
      match m {
        case LabelOrNote(_, _, text) =>
        case LabelledCueRegion(_, _, _, _, _, _, _, text) =>
        case InfoText(_, text) =>
        case Unknown(_, _, data) =>
      }
    }
  }

  /** No object of the part is one the writer counts but does not write. */
  predicate NoneSkipped(part: Part, ms: seq<Metadata>) {
    forall i :: 0 <= i < |ms| ==> !(Belongs(part, ms[i]) && Skipped(ms[i]))
  }

  lemma NoneSkippedNil(part: Part)
    ensures NoneSkipped(part, [])
  {
  }

  lemma NoneSkippedCons(part: Part, ms: seq<Metadata>)
    requires ms != []
    ensures NoneSkipped(part, ms)
       <==> !(Belongs(part, ms[0]) && Skipped(ms[0])) && NoneSkipped(part, ms[1..])
  {
    if !(Belongs(part, ms[0]) && Skipped(ms[0])) && NoneSkipped(part, ms[1..]) {
      forall i | 0 <= i < |ms| ensures !(Belongs(part, ms[i]) && Skipped(ms[i])) {
        if i > 0 { assert ms[i] == ms[1..][i - 1]; }
      }
    } else if NoneSkipped(part, ms) {
      forall i | 0 <= i < |ms| - 1 ensures !(Belongs(part, ms[1..][i]) && Skipped(ms[1..][i])) {
        assert ms[1..][i] == ms[i + 1];
      }
    }
  }

  /** A list's declared size equals the bytes of its body exactly when no object in it is skipped. */
  lemma {:induction false} DeclaredSizeExact(part: Part, ms: seq<Metadata>)
    requires part != Top
    ensures |Pieces(part, ms)| % 2 == 0
    ensures |Pieces(part, ms)| <= DeclaredPieces(part, ms)
    ensures DeclaredPieces(part, ms) == |Pieces(part, ms)|
       <==> NoneSkipped(part, ms)
  {
    hide Piece, DeclaredPiece, Belongs, Skipped, NoneSkipped;
    if ms == [] {
      assert NoneSkipped(part, ms) by { NoneSkippedNil(part); }
    } else {
      DeclaredPieceCovers(part, ms[0]);
      DeclaredSizeExact(part, ms[1..]);
      NoneSkippedCons(part, ms);
    }
  }

  /** An independent reading of the container rule: a byte string is a run of chunks, each an id, a
      32-bit size, that many bytes and a zero byte when the size is odd. */
  predicate Framed(s: seq<byte>)
    decreases |s|
  {
    s == [] ||
    (|s| >= 8 &&
     var n := U32At(s, 4);
     var end := 8 + n + n % 2;
     end <= |s| && (n % 2 == 1 ==> s[8 + n] == 0) && Framed(s[end..]))
  }

  /** The fields of a chunk that stands at `pos`. */
  lemma ChunkAt(s: seq<byte>, pos: nat, id: FourCC, body: seq<byte>)
    requires At(s, pos, Chunk(id, body))
    ensures U32At(s, pos) == id && U32At(s, pos + 4) == ToU32(|body|)
    ensures At(s, pos + 8, body)
    ensures |body| % 2 == 1 ==> s[pos + 8 + |body|] == 0
  {
    hide LE32, U32At;
    var head := LE32(id) + LE32(ToU32(|body|));
    AtSplit3(s, pos, head, body, Padding(|body|));
    AtSplit(s, pos, LE32(id), LE32(ToU32(|body|)));
    LE32RoundTrip(s, pos, id);
    LE32RoundTrip(s, pos + 4, ToU32(|body|));
  }

  lemma ChunkHeader(id: FourCC, body: seq<byte>, rest: seq<byte>)
    ensures U32At(Chunk(id, body) + rest, 0) == id
    ensures U32At(Chunk(id, body) + rest, 4) == ToU32(|body|)
    ensures (Chunk(id, body) + rest)[8..8 + |body|] == body
    ensures |body| % 2 == 1 ==> (Chunk(id, body) + rest)[8 + |body|] == 0
    ensures (Chunk(id, body) + rest)[8 + |body| + |body| % 2..] == rest
  {
    var s := Chunk(id, body) + rest;
    AtWhole(s, [], Chunk(id, body), rest);
    ChunkAt(s, 0, id, body);
  }

  lemma FramedChunk(id: FourCC, body: seq<byte>, rest: seq<byte>)
    requires |body| <= U32_MAX
    ensures Framed(Chunk(id, body) + rest) <==> Framed(rest)
  {
    ChunkHeader(id, body, rest);
    var s := Chunk(id, body) + rest;
    var n := U32At(s, 4);
    assert n == |body| && |s| >= 8 + |body| + |body| % 2;
    assert s[8 + |body| + |body| % 2..] == rest;
  }

  lemma {:induction false} PiecesFramed(part: Part, ms: seq<Metadata>, rest: seq<byte>)
    requires |Pieces(part, ms)| <= U32_MAX
    ensures Framed(Pieces(part, ms) + rest) <==> Framed(rest)
    decreases |ms|
  {
    hide Chunk, Body, ChunkId, Framed, Belongs, Skipped;
    if ms == [] {
      assert Pieces(part, ms) + rest == rest;
    } else {
      var tail := Pieces(part, ms[1..]) + rest;
      PiecesFramed(part, ms[1..], rest);
      assert Pieces(part, ms) + rest == Piece(part, ms[0]) + tail;
      if Piece(part, ms[0]) == [] {
        assert Piece(part, ms[0]) + tail == tail;
      } else {
        FramedChunk(ChunkId(ms[0]), Body(ms[0]), tail);
      }
    }
  }

  /** When nothing in it is skipped, a list is an ordinary chunk around its tag and its pieces. */
  lemma ListIsChunk(part: Part, ms: seq<Metadata>)
    requires part != Top && Has(part, ms) && NoneSkipped(part, ms)
    ensures ListChunk(part, ms) == Chunk(ID_LIST, LE32(ListTag(part)) + Pieces(part, ms))
  {
    hide LE32, Pieces, DeclaredPieces, NoneSkipped, Has;
    DeclaredSizeExact(part, ms);
    var head := LE32(ID_LIST) + LE32(ToU32(4 + DeclaredPieces(part, ms)));
    var tag := LE32(ListTag(part));
    assert head + tag + Pieces(part, ms) == head + (tag + Pieces(part, ms)) + [];
  }

  lemma ListFramedWhole(part: Part, ms: seq<Metadata>, rest: seq<byte>)
    requires part != Top && Has(part, ms) && NoneSkipped(part, ms)
    requires 4 + DeclaredPieces(part, ms) <= U32_MAX
    ensures Framed(ListChunk(part, ms) + rest) <==> Framed(rest)
  {
    hide Pieces, DeclaredPieces, NoneSkipped, Framed, Chunk, ListChunk, LE32, Has;
    ListIsChunk(part, ms);
    DeclaredSizeExact(part, ms);
    FramedChunk(ID_LIST, LE32(ListTag(part)) + Pieces(part, ms), rest);
  }

  lemma ListOverruns(part: Part, ms: seq<Metadata>)
    requires part != Top && Has(part, ms) && !NoneSkipped(part, ms)
    requires 4 + DeclaredPieces(part, ms) <= U32_MAX
    ensures !Framed(ListChunk(part, ms))
  {
    hide Pieces, DeclaredPieces, NoneSkipped, Has, LE32, U32At, Framed;
    DeclaredSizeExact(part, ms);
    var list := ListChunk(part, ms);
    var declared := LE32(ToU32(4 + DeclaredPieces(part, ms)));
    var body := LE32(ListTag(part)) + Pieces(part, ms);
    assert list == LE32(ID_LIST) + declared + body;
    AtWhole(list, LE32(ID_LIST), declared, body);
    LE32RoundTrip(list, 4, 4 + DeclaredPieces(part, ms));
    NotFramedWhenShort(list);
  }

  /** A written list obeys the container rule exactly when no object in it is skipped. */
  lemma ListFramed(part: Part, ms: seq<Metadata>)
    requires part != Top && Has(part, ms)
    requires 4 + DeclaredPieces(part, ms) <= U32_MAX
    ensures Framed(ListChunk(part, ms)) <==> NoneSkipped(part, ms)
  {
    hide *;
    if NoneSkipped(part, ms) {
      ListFramedWhole(part, ms, []);
      assert ListChunk(part, ms) + [] == ListChunk(part, ms);
      FramedEmpty();
    } else {
      ListOverruns(part, ms);
    }
  }

  lemma ListTail(part: Part, ms: seq<Metadata>, rest: seq<byte>)
    requires part != Top && NoneSkipped(part, ms)
    requires |ListChunk(part, ms)| <= U32_MAX
    ensures Framed(ListChunk(part, ms) + rest) <==> Framed(rest)
    ensures |ListChunk(part, ms)| % 2 == 0
  {
    hide Pieces, DeclaredPieces, NoneSkipped, Framed, Has, LE32;
    DeclaredSizeExact(part, ms);
    if Has(part, ms) {
      ListFramedWhole(part, ms, rest);
    } else {
      assert ListChunk(part, ms) == [];
      assert [] + rest == rest;
    }
  }

  /** Everything printed is a run of chunks of even total length. */
  lemma PrintFramed(ms: seq<Metadata>)
    requires NoneSkipped(Info, ms) && NoneSkipped(Adtl, ms)
    requires |Print(ms)| <= U32_MAX
    ensures Framed(Print(ms)) && |Print(ms)| % 2 == 0
  {
    hide Pieces, ListChunk, NoneSkipped, Framed, Has;
    var adtl := ListChunk(Adtl, ms);
    ListTail(Adtl, ms, []);
    assert adtl + [] == adtl;
    FramedEmpty();
    ListTail(Info, ms, adtl);
    PiecesFramed(Top, ms, ListChunk(Info, ms) + adtl);
    TopEven(ms);
    assert Print(ms) == Pieces(Top, ms) + (ListChunk(Info, ms) + adtl);
  }

  lemma {:induction false} TopEven(ms: seq<Metadata>)
    ensures |Pieces(Top, ms)| % 2 == 0
  {
    hide Body, Chunk, Belongs, Skipped, Piece;
    if ms != [] { TopEven(ms[1..]); }
  }

  lemma FramedEmpty()
    ensures Framed([])
  {
  }

  lemma NotFramedWhenShort(s: seq<byte>)
    requires |s| >= 8 && |s| < 8 + U32At(s, 4) as int
    ensures !Framed(s)
  {
  }

  /** The pieces between the tag and the end of a list are chunks in their own right. */
  lemma ListBodyFramed(part: Part, ms: seq<Metadata>)
    requires |Pieces(part, ms)| <= U32_MAX
    ensures Framed(Pieces(part, ms))
  {
    hide Pieces;
    PiecesFramed(part, ms, []);
    assert Pieces(part, ms) + [] == Pieces(part, ms);
  }
}
