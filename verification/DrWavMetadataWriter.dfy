/** drwav__write_or_count_metadata: one walk that either writes the metadata or, without a stream,
    only counts the bytes it would write. Proved to emit exactly Print(ms) in both modes. */
module DrWavMetadataWriter {
  import opened Bytes
  import opened DrWavMetadata
  import opened DrWavStreams

  /** `s` is what has been emitted since the stream held `d0` at `p0`, and `n` its length; without
      a stream, only the length. */
  ghost predicate Emitted(w: MemoryWriteStream?, d0: seq<byte>, p0: nat, n: nat, s: seq<byte>)
    requires p0 <= |d0|
    reads w
  {
    n == |s| &&
    (w != null ==>
      w.Valid() && w.data == Overwrite(d0, p0, s) && w.currentWritePos == p0 + |s|)
  }

  method Emit(w: MemoryWriteStream?, ghost d0: seq<byte>, ghost p0: nat, n: nat, ghost s: seq<byte>,
              piece: seq<byte>) returns (m: nat)
    requires p0 <= |d0| && Emitted(w, d0, p0, n, s)
    modifies w
    ensures Emitted(w, d0, p0, m, s + piece)
  {
    OverwriteTwice(d0, p0, s, piece);
    var written := |piece|;
    if w != null {
      written := w.Write(piece);
    }
    m := n + written;
  }

  method EmitHeader(w: MemoryWriteStream?, ghost d0: seq<byte>, ghost p0: nat, n: nat,
                    ghost s: seq<byte>, id: FourCC, chunkSize: u32) returns (m: nat)
    requires p0 <= |d0| && Emitted(w, d0, p0, n, s)
    modifies w
    ensures Emitted(w, d0, p0, m, s + (LE32(id) + LE32(chunkSize)))
  {
    m := Emit(w, d0, p0, n, s, LE32(id));
    m := Emit(w, d0, p0, m, s + LE32(id), LE32(chunkSize));
    assert s + LE32(id) + LE32(chunkSize) == s + (LE32(id) + LE32(chunkSize));
  }

  /** A chunk whose body is one run of bytes, without its padding. */
  method EmitChunk(w: MemoryWriteStream?, ghost d0: seq<byte>, ghost p0: nat, n: nat,
                   ghost s: seq<byte>, id: FourCC, chunkSize: u32, body: seq<byte>)
    returns (m: nat)
    requires p0 <= |d0| && Emitted(w, d0, p0, n, s)
    modifies w
    ensures Emitted(w, d0, p0, m, s + (LE32(id) + LE32(chunkSize) + body))
  {
    var head := LE32(id) + LE32(chunkSize);
    m := EmitHeader(w, d0, p0, n, s, id, chunkSize);
    m := Emit(w, d0, p0, m, s + head, body);
    assert s + head + body == s + (head + body);
  }

  method EmitPadding(w: MemoryWriteStream?, ghost d0: seq<byte>, ghost p0: nat, n: nat,
                     ghost s: seq<byte>, chunkSize: u32) returns (m: nat)
    requires p0 <= |d0| && Emitted(w, d0, p0, n, s)
    modifies w
    ensures Emitted(w, d0, p0, m, s + Padding(chunkSize))
  {
    m := n;
    assert s + [] == s;
    if chunkSize % 2 != 0 {
      m := Emit(w, d0, p0, m, s, [0]);
    }
  }

  lemma {:induction false} LoopsConcat(a: seq<SmplLoop>, b: seq<SmplLoop>)
    ensures LoopsBytes(a + b) == LoopsBytes(a) + LoopsBytes(b)
    decreases |a|
  {
    hide Words;
    if a == [] {
      assert a + b == b;
    } else {
      assert (a + b)[1..] == a[1..] + b;
      LoopsConcat(a[1..], b);
    }
  }

  lemma {:induction false} PointsConcat(a: seq<CuePoint>, b: seq<CuePoint>)
    ensures PointsBytes(a + b) == PointsBytes(a) + PointsBytes(b)
    decreases |a|
  {
    hide Words;
    if a == [] {
      assert a + b == b;
    } else {
      assert (a + b)[1..] == a[1..] + b;
      PointsConcat(a[1..], b);
    }
  }

  lemma LoopsSnoc(ls: seq<SmplLoop>, i: nat)
    requires i < |ls|
    ensures LoopsBytes(ls[..i + 1]) == LoopsBytes(ls[..i]) + Words(LoopWords(ls[i]))
  {
    hide Words;
    assert ls[..i + 1] == ls[..i] + [ls[i]];
    LoopsConcat(ls[..i], [ls[i]]);
    assert LoopsBytes([ls[i]]) == Words(LoopWords(ls[i])) + LoopsBytes([]);
  }

  lemma PointsSnoc(ps: seq<CuePoint>, i: nat)
    requires i < |ps|
    ensures PointsBytes(ps[..i + 1]) == PointsBytes(ps[..i]) + Words(PointWords(ps[i]))
  {
    hide Words;
    assert ps[..i + 1] == ps[..i] + [ps[i]];
    PointsConcat(ps[..i], [ps[i]]);
    assert PointsBytes([ps[i]]) == Words(PointWords(ps[i])) + PointsBytes([]);
  }

  method EmitLoops(w: MemoryWriteStream?, ghost d0: seq<byte>, ghost p0: nat, n: nat,
                   ghost s: seq<byte>, loops: seq<SmplLoop>) returns (m: nat)
    requires p0 <= |d0| && Emitted(w, d0, p0, n, s)
    modifies w
    ensures Emitted(w, d0, p0, m, s + LoopsBytes(loops))
  {
    hide Words, LoopsBytes;
    m := n;
    assert s + LoopsBytes(loops[..0]) == s by { LoopsEmpty(); }
    for i := 0 to |loops|
      invariant Emitted(w, d0, p0, m, s + LoopsBytes(loops[..i]))
    {
      LoopsSnoc(loops, i);
      m := Emit(w, d0, p0, m, s + LoopsBytes(loops[..i]), Words(LoopWords(loops[i])));
      assert s + LoopsBytes(loops[..i]) + Words(LoopWords(loops[i])) == s + LoopsBytes(loops[..i + 1]);
    }
    assert loops[..|loops|] == loops;
  }

  lemma LoopsEmpty()
    ensures LoopsBytes([]) == [] && PointsBytes([]) == []
  {
  }

  method EmitPoints(w: MemoryWriteStream?, ghost d0: seq<byte>, ghost p0: nat, n: nat,
                    ghost s: seq<byte>, points: seq<CuePoint>) returns (m: nat)
    requires p0 <= |d0| && Emitted(w, d0, p0, n, s)
    modifies w
    ensures Emitted(w, d0, p0, m, s + PointsBytes(points))
  {
    hide Words, PointsBytes;
    m := n;
    assert s + PointsBytes(points[..0]) == s by { LoopsEmpty(); }
    for i := 0 to |points|
      invariant Emitted(w, d0, p0, m, s + PointsBytes(points[..i]))
    {
      PointsSnoc(points, i);
      m := Emit(w, d0, p0, m, s + PointsBytes(points[..i]), Words(PointWords(points[i])));
      assert s + PointsBytes(points[..i]) + Words(PointWords(points[i])) == s + PointsBytes(points[..i + 1]);
    }
    assert points[..|points|] == points;
  }

  method EmitSmpl(w: MemoryWriteStream?, ghost d0: seq<byte>, ghost p0: nat, n: nat,
                  ghost s: seq<byte>, md: Metadata, chunkSize: u32) returns (m: nat)
    requires md.Smpl? && p0 <= |d0| && Emitted(w, d0, p0, n, s)
    modifies w
    ensures Emitted(w, d0, p0, m, s + (LE32(ID_SMPL) + LE32(chunkSize) + Body(md)))
  {
    hide Words, LE32, LoopsBytes;
    ghost var head := LE32(ID_SMPL) + LE32(chunkSize);
    var fixed := Words(SmplWords(md.header, ToU32(|md.loops|), ToU32(|md.samplerData|)));
    m := EmitChunk(w, d0, p0, n, s, ID_SMPL, chunkSize, fixed);
    ghost var t := s + (head + fixed);
    m := EmitLoops(w, d0, p0, m, t, md.loops);
    assert t + LoopsBytes(md.loops) + [] == t + LoopsBytes(md.loops);
    if |md.samplerData| > 0 {
      m := Emit(w, d0, p0, m, t + LoopsBytes(md.loops), md.samplerData);
    }
    assert t + LoopsBytes(md.loops) + md.samplerData == s + (head + Body(md));
  }

  method EmitCue(w: MemoryWriteStream?, ghost d0: seq<byte>, ghost p0: nat, n: nat,
                 ghost s: seq<byte>, md: Metadata, chunkSize: u32) returns (m: nat)
    requires md.Cue? && p0 <= |d0| && Emitted(w, d0, p0, n, s)
    modifies w
    ensures Emitted(w, d0, p0, m, s + (LE32(ID_CUE) + LE32(chunkSize) + Body(md)))
  {
    hide Words, LE32, PointsBytes;
    ghost var head := LE32(ID_CUE) + LE32(chunkSize);
    var count := LE32(ToU32(|md.points|));
    m := EmitChunk(w, d0, p0, n, s, ID_CUE, chunkSize, count);
    m := EmitPoints(w, d0, p0, m, s + (head + count), md.points);
    assert s + (head + count) + PointsBytes(md.points) == s + (head + Body(md));
  }

  /** Text and its terminator, unless the text is empty. */
  method EmitText(w: MemoryWriteStream?, ghost d0: seq<byte>, ghost p0: nat, n: nat,
                  ghost s: seq<byte>, text: seq<byte>) returns (m: nat)
    requires p0 <= |d0| && Emitted(w, d0, p0, n, s)
    modifies w
    ensures Emitted(w, d0, p0, m, s + Terminated(text))
  {
    m := n;
    assert s + [] == s;
    if |text| > 0 {
      m := Emit(w, d0, p0, m, s, text);
      m := Emit(w, d0, p0, m, s + text, [0]);
      assert s + text + [0] == s + (text + [0]);
    }
  }

  /** A chunk and its padding make one Piece. */
  lemma PieceFromParts(part: Part, md: Metadata, s: seq<byte>, chunkSize: u32)
    requires Belongs(part, md) && !Skipped(md) && chunkSize == ToU32(BodySize(md))
    ensures s + (LE32(ChunkId(md)) + LE32(chunkSize) + Body(md)) + Padding(chunkSize) == s + Piece(part, md)
  {
    hide Body, LE32, ChunkId, BodySize, Belongs, Skipped;
    var unpadded := LE32(ChunkId(md)) + LE32(chunkSize) + Body(md);
    assert Padding(chunkSize) == Padding(|Body(md)|);
    assert s + unpadded + Padding(chunkSize) == s + (unpadded + Padding(chunkSize));
  }

  /** One iteration of the first loop (dr_wav.h:4007-4157). */
  method WriteTopLevel(w: MemoryWriteStream?, ghost d0: seq<byte>, ghost p0: nat, n: nat,
                       ghost s: seq<byte>, md: Metadata) returns (m: nat)
    requires p0 <= |d0| && Emitted(w, d0, p0, n, s)
    modifies w
    ensures Emitted(w, d0, p0, m, s + Piece(Top, md))
  {
    hide Body, LE32, Piece, Words, Halves;
    m := n;
    var chunkSize := 0;
    match md {
      case Smpl(_, loops, data) =>
        chunkSize := ToU32(SMPL_BYTES + SMPL_LOOP_BYTES * |loops| + |data|);
        m := EmitSmpl(w, d0, p0, m, s, md, chunkSize);
      case Inst(_, _, _, _, _, _, _) =>
        chunkSize := INST_BYTES;
        m := EmitChunk(w, d0, p0, m, s, ID_INST, chunkSize, Body(md));
      case Cue(points) =>
        chunkSize := ToU32(CUE_BYTES + CUE_POINT_BYTES * |points|);
        m := EmitCue(w, d0, p0, m, s, md, chunkSize);
      case Acid(_, _, _, _, _, _, _, _) =>
        chunkSize := ACID_BYTES;
        m := EmitChunk(w, d0, p0, m, s, ID_ACID, chunkSize, Body(md));
      case Unknown(id, TopLevel, data) =>
        chunkSize := ToU32(|data|);
        m := EmitChunk(w, d0, p0, m, s, id, chunkSize, Body(md));
      case _ =>
        assert s + [] == s;
    }
    ghost var t := if Belongs(Top, md) then s + (LE32(ChunkId(md)) + LE32(chunkSize) + Body(md)) else s;
    m := EmitPadding(w, d0, p0, m, t, chunkSize);
    if Belongs(Top, md) {
      PieceFromParts(Top, md, s, chunkSize);
    } else {
      NoPiece(Top, md);
      assert s + Padding(0) == s + [];
    }
  }

  lemma NoPiece(part: Part, md: Metadata)
    requires !(Belongs(part, md) && !Skipped(md))
    ensures Piece(part, md) == []
  {
  }

  /** One iteration of the INFO loop (dr_wav.h:4181-4223). */
  method WriteInfoPiece(w: MemoryWriteStream?, ghost d0: seq<byte>, ghost p0: nat, n: nat,
                        ghost s: seq<byte>, md: Metadata) returns (m: nat)
    requires p0 <= |d0| && Emitted(w, d0, p0, n, s)
    modifies w
    ensures Emitted(w, d0, p0, m, s + Piece(Info, md))
  {
    hide LE32, Piece;
    m := n;
    assert s + [] == s;
    var subchunkSize := 0;
    if md.InfoText? {
      if |md.text| > 0 {
        subchunkSize := ToU32(|md.text| + 1);
        m := EmitChunk(w, d0, p0, m, s, InfoId(md.info), subchunkSize, md.text + [0]);
      }
    } else if md.Unknown? && md.location == InsideInfoList {
      if |md.data| > 0 {
        subchunkSize := ToU32(|md.data|);
        m := EmitChunk(w, d0, p0, m, s, md.id, subchunkSize, md.data);
      }
    }
    ghost var written := Belongs(Info, md) && !Skipped(md);
    ghost var t := if written then s + (LE32(ChunkId(md)) + LE32(subchunkSize) + Body(md)) else s;
    m := EmitPadding(w, d0, p0, m, t, subchunkSize);
    if written {
      PieceFromParts(Info, md, s, subchunkSize);
    } else {
      NoPiece(Info, md);
      assert s + Padding(0) == s + [];
    }
  }

  method EmitLabel(w: MemoryWriteStream?, ghost d0: seq<byte>, ghost p0: nat, n: nat,
                   ghost s: seq<byte>, md: Metadata, subchunkSize: u32) returns (m: nat)
    requires md.LabelOrNote? && p0 <= |d0| && Emitted(w, d0, p0, n, s)
    modifies w
    ensures Emitted(w, d0, p0, m, s + (LE32(ChunkId(md)) + LE32(subchunkSize) + Body(md)))
  {
    hide LE32, Terminated;
    ghost var head := LE32(ChunkId(md)) + LE32(subchunkSize);
    var fixed := LE32(md.cuePointId);
    m := EmitChunk(w, d0, p0, n, s, if md.labelKind == LabelText then ID_LABL else ID_NOTE, subchunkSize, fixed);
    m := EmitText(w, d0, p0, m, s + (head + fixed), md.text);
    assert s + (head + fixed) + Terminated(md.text) == s + (head + Body(md));
  }

  method EmitRegion(w: MemoryWriteStream?, ghost d0: seq<byte>, ghost p0: nat, n: nat,
                    ghost s: seq<byte>, md: Metadata, subchunkSize: u32) returns (m: nat)
    requires md.LabelledCueRegion? && p0 <= |d0| && Emitted(w, d0, p0, n, s)
    modifies w
    ensures Emitted(w, d0, p0, m, s + (LE32(ID_LTXT) + LE32(subchunkSize) + Body(md)))
  {
    hide LE32, Terminated, Words, Halves;
    ghost var head := LE32(ID_LTXT) + LE32(subchunkSize);
    var fixed := Words([md.regionCuePointId, md.sampleLength, md.purposeId])
      + Halves([md.country, md.language, md.dialect, md.codePage]);
    m := EmitChunk(w, d0, p0, n, s, ID_LTXT, subchunkSize, fixed);
    m := EmitText(w, d0, p0, m, s + (head + fixed), md.text);
    assert s + (head + fixed) + Terminated(md.text) == s + (head + Body(md));
  }

  /** One iteration of the adtl loop (dr_wav.h:4275-4352). */
  method WriteAdtlPiece(w: MemoryWriteStream?, ghost d0: seq<byte>, ghost p0: nat, n: nat,
                        ghost s: seq<byte>, md: Metadata) returns (m: nat)
    requires p0 <= |d0| && Emitted(w, d0, p0, n, s)
    modifies w
    ensures Emitted(w, d0, p0, m, s + Piece(Adtl, md))
  {
    hide LE32, Piece, Body;
    m := n;
    assert s + [] == s;
    var subchunkSize := 0;
    match md {
      case LabelOrNote(_, _, text) =>
        if |text| > 0 {
          subchunkSize := ToU32(LABEL_OR_NOTE_BYTES + (|text| + 1));
          m := EmitLabel(w, d0, p0, m, s, md, subchunkSize);
        }
      case LabelledCueRegion(_, _, _, _, _, _, _, text) =>
        subchunkSize := LABELLED_TEXT_BYTES;
        if |text| > 0 {
          subchunkSize := ToU32(subchunkSize + (|text| + 1));
        }
        m := EmitRegion(w, d0, p0, m, s, md, subchunkSize);
      case Unknown(id, InsideAdtlList, data) =>
        subchunkSize := ToU32(|data|);
        m := EmitChunk(w, d0, p0, m, s, id, subchunkSize, Body(md));
      case _ =>
    }
    ghost var written := Belongs(Adtl, md) && !Skipped(md);
    ghost var t := if written then s + (LE32(ChunkId(md)) + LE32(subchunkSize) + Body(md)) else s;
    m := EmitPadding(w, d0, p0, m, t, subchunkSize);
    if written {
      PieceFromParts(Adtl, md, s, subchunkSize);
    } else {
      NoPiece(Adtl, md);
      assert s + Padding(0) == s + [];
    }
  }

  lemma ToU32Add(a: nat, b: nat)
    ensures ToU32(ToU32(a) + b) == ToU32(a + b)
  {
    var q, r := a / 0x1_0000_0000, ToU32(a);
    assert a + b == q * 0x1_0000_0000 + (r + b);
    assert (a + b) / 0x1_0000_0000 == q + (r + b) / 0x1_0000_0000;
  }

  lemma ToU32Parity(a: nat)
    ensures ToU32(a) % 2 == a % 2
  {
    var q, r := a / 0x1_0000_0000, a % 0x1_0000_0000;
    var h, l := r / 2, r % 2;
    assert a == 0x1_0000_0000 * q + r && r == 2 * h + l;
    DivUnique(a, 2, 0x8000_0000 * q + h, l);
  }

  method RoundUp32(size: u32, ghost total: nat) returns (r: u32)
    requires size == ToU32(total)
    ensures r == ToU32(RoundUpEven(total))
  {
    hide ToU32;
    r := size;
    ToU32Parity(total);
    ToU32Add(total, 1);
    if r % 2 != 0 {
      r := ToU32(r + 1);
    }
  }

  /** One iteration of either size loop: 32-bit additions, then rounding up to even. */
  method AddDeclared(part: Part, size: u32, ghost total: nat, md: Metadata) returns (r: u32)
    requires part != Top && size == ToU32(total) && total % 2 == 0
    ensures r == ToU32(total + DeclaredPiece(part, md))
  {
    hide ToU32;
    var add := 0;
    if part == Info {
      if md.InfoText? {
        add := 8 + (|md.text| + 1);
      } else if md.Unknown? && md.location == InsideInfoList {
        add := 8 + |md.data|;
      }
    } else {
      match md {
        case LabelOrNote(_, _, text) =>
          add := 8 + LABEL_OR_NOTE_BYTES + if |text| > 0 then |text| + 1 else 0;
        case LabelledCueRegion(_, _, _, _, _, _, _, text) =>
          add := 8 + LABELLED_TEXT_BYTES + if |text| > 0 then |text| + 1 else 0;
        case Unknown(_, InsideAdtlList, data) =>
          add := 8 + |data|;
        case _ =>
      }
    }
    assert DeclaredPiece(part, md) == RoundUpEven(add);
    ToU32Add(total, add);
    r := RoundUp32(ToU32(size + add), total + add);
    assert RoundUpEven(total + add) == total + RoundUpEven(add);
  }

  lemma PiecesSnoc(part: Part, ms: seq<Metadata>, i: nat)
    requires i < |ms|
    ensures Pieces(part, ms[..i + 1]) == Pieces(part, ms[..i]) + Piece(part, ms[i])
    ensures DeclaredPieces(part, ms[..i + 1]) == DeclaredPieces(part, ms[..i]) + DeclaredPiece(part, ms[i])
  {
    hide Piece, DeclaredPiece;
    assert ms[..i + 1] == ms[..i] + [ms[i]];
    PiecesConcat(part, ms[..i], [ms[i]]);
    assert Pieces(part, [ms[i]]) == Piece(part, ms[i]) + Pieces(part, []);
    assert DeclaredPieces(part, [ms[i]]) == DeclaredPiece(part, ms[i]) + DeclaredPieces(part, []);
  }

  lemma PiecesNil(part: Part)
    ensures Pieces(part, []) == [] && DeclaredPieces(part, []) == 0
  {
  }

  lemma {:induction false} DeclaredEven(part: Part, ms: seq<Metadata>)
    ensures DeclaredPieces(part, ms) % 2 == 0
  {
    if ms != [] { DeclaredEven(part, ms[1..]); }
  }

  method DeclaredListSize(part: Part, ms: seq<Metadata>) returns (chunkSize: u32)
    requires part != Top
    ensures chunkSize == ToU32(4 + DeclaredPieces(part, ms))
  {
    hide DeclaredPiece, DeclaredPieces, Pieces;
    chunkSize := 4;
    PiecesNil(part);
    assert ms[..0] == [];
    for i := 0 to |ms|
      invariant chunkSize == ToU32(4 + DeclaredPieces(part, ms[..i]))
    {
      DeclaredEven(part, ms[..i]);
      PiecesSnoc(part, ms, i);
      chunkSize := AddDeclared(part, chunkSize, 4 + DeclaredPieces(part, ms[..i]), ms[i]);
    }
    assert ms[..|ms|] == ms;
  }

  method WriteList(part: Part, w: MemoryWriteStream?, ghost d0: seq<byte>, ghost p0: nat, n: nat,
                   ghost s: seq<byte>, ms: seq<Metadata>) returns (m: nat)
    requires part != Top && Has(part, ms)
    requires p0 <= |d0| && Emitted(w, d0, p0, n, s)
    modifies w
    ensures Emitted(w, d0, p0, m, s + ListChunk(part, ms))
  {
    hide LE32, Piece, Pieces, DeclaredPieces, Has;
    var chunkSize := DeclaredListSize(part, ms);
    m := EmitChunk(w, d0, p0, n, s, ID_LIST, chunkSize, LE32(ListTag(part)));
    ghost var t := s + (LE32(ID_LIST) + LE32(chunkSize) + LE32(ListTag(part)));
    PiecesNil(part);
    assert ms[..0] == [] && t + [] == t;
    for i := 0 to |ms|
      invariant Emitted(w, d0, p0, m, t + Pieces(part, ms[..i]))
    {
      PiecesSnoc(part, ms, i);
      if part == Info {
        m := WriteInfoPiece(w, d0, p0, m, t + Pieces(part, ms[..i]), ms[i]);
      } else {
        m := WriteAdtlPiece(w, d0, p0, m, t + Pieces(part, ms[..i]), ms[i]);
      }
      assert t + Pieces(part, ms[..i]) + Piece(part, ms[i]) == t + (Pieces(part, ms[..i]) + Piece(part, ms[i]));
    }
    assert ms[..|ms|] == ms;
    assert t + Pieces(part, ms) == s + ListChunk(part, ms);
  }

  lemma HasSnoc(part: Part, ms: seq<Metadata>, i: nat)
    requires i < |ms|
    ensures Has(part, ms[..i + 1]) <==> Has(part, ms[..i]) || Belongs(part, ms[i])
  {
    hide Belongs;
    if Has(part, ms[..i]) {
      var k :| 0 <= k < i && Belongs(part, ms[..i][k]);
      assert Belongs(part, ms[..i + 1][k]);
    }
    if Belongs(part, ms[i]) {
      assert Belongs(part, ms[..i + 1][i]);
    }
    if Has(part, ms[..i + 1]) {
      var k :| 0 <= k < i + 1 && Belongs(part, ms[..i + 1][k]);
      if k < i { assert Belongs(part, ms[..i][k]); }
    }
  }

  /** The first loop: top-level chunks, and which lists will be needed. */
  method WriteTopLevels(w: MemoryWriteStream?, ghost d0: seq<byte>, ghost p0: nat, ms: seq<Metadata>)
    returns (m: nat, hasListInfo: bool, hasListAdtl: bool)
    requires p0 <= |d0| && Emitted(w, d0, p0, 0, [])
    modifies w
    ensures Emitted(w, d0, p0, m, Pieces(Top, ms))
    ensures hasListInfo == Has(Info, ms) && hasListAdtl == Has(Adtl, ms)
  {
    hide Piece, Pieces, DeclaredPieces, Has;
    m, hasListInfo, hasListAdtl := 0, false, false;
    PiecesNil(Top);
    assert ms[..0] == [];
    assert !Has(Info, []) && !Has(Adtl, []) by { HasNothing(); }
    for i := 0 to |ms|
      invariant Emitted(w, d0, p0, m, Pieces(Top, ms[..i]))
      invariant hasListInfo == Has(Info, ms[..i]) && hasListAdtl == Has(Adtl, ms[..i])
    {
      var md := ms[i];
      HasSnoc(Info, ms, i);
      HasSnoc(Adtl, ms, i);
      if md.InfoText? || (md.Unknown? && md.location == InsideInfoList) {
        hasListInfo := true;
      }
      if md.LabelOrNote? || md.LabelledCueRegion? || (md.Unknown? && md.location == InsideAdtlList) {
        hasListAdtl := true;
      }
      PiecesSnoc(Top, ms, i);
      m := WriteTopLevel(w, d0, p0, m, Pieces(Top, ms[..i]), md);
    }
    assert ms[..|ms|] == ms;
  }

  lemma HasNothing()
    ensures !Has(Info, []) && !Has(Adtl, [])
  {
  }

  /** drwav__write_or_count_metadata. */
  method WriteOrCountMetadata(w: MemoryWriteStream?, ms: seq<Metadata>) returns (bytesWritten: nat)
    requires w != null ==> w.Valid()
    modifies w
    ensures bytesWritten == |Print(ms)|
    ensures w != null ==>
      w.Valid() &&
      w.data == Overwrite(old(w.data), old(w.currentWritePos), Print(ms)) &&
      w.currentWritePos == old(w.currentWritePos) + |Print(ms)|
  {
    hide Pieces, ListChunk, Has;
    ghost var d0 := if w != null then w.data else [];
    ghost var p0 := if w != null then w.currentWritePos else 0;
    OverwriteNothing(d0, p0);
    if ms == [] {
      assert Print(ms) == [] by { PrintNil(); }
      return 0;
    }
    var hasListInfo, hasListAdtl;
    bytesWritten, hasListInfo, hasListAdtl := WriteTopLevels(w, d0, p0, ms);
    ghost var s := Pieces(Top, ms);
    if hasListInfo {
      bytesWritten := WriteList(Info, w, d0, p0, bytesWritten, s, ms);
    } else {
      NoList(Info, ms);
      assert s + ListChunk(Info, ms) == s;
    }
    s := s + ListChunk(Info, ms);
    if hasListAdtl {
      bytesWritten := WriteList(Adtl, w, d0, p0, bytesWritten, s, ms);
    } else {
      NoList(Adtl, ms);
      assert s + ListChunk(Adtl, ms) == s;
    }
    assert Print(ms) == s + ListChunk(Adtl, ms);
  }

  lemma PrintNil()
    ensures Print([]) == []
  {
  }

  lemma NoList(part: Part, ms: seq<Metadata>)
    requires !Has(part, ms)
    ensures ListChunk(part, ms) == []
  {
  }
}
