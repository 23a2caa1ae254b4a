/** Files on which both walks over the chunks keep in step: each goes from the end of one chunk to the next.
    What is asked for can be read off the chunk headers before opening. */
module DrWavOrderly {
  import opened Bytes
  import opened DrWavMetadata
  import opened DrWavStreams
  import opened DrWavParserSpec
  import opened DrWavOpenSpec

  // ---------- orderly chunks ----------

  /** No subchunk of the list is too large for an `int`. */
  predicate ListOrderly(data: seq<byte>, pos: nat, bytesRead: nat, size: nat)
    decreases size - bytesRead
  {
    if bytesRead >= size || pos + 4 > |data| then true
    else if U32At(data, pos) == ID_ADTL || U32At(data, pos) == ID_INFO then
      ListOrderly(data, pos + 4, bytesRead + 4, size)
    else if pos + 8 > |data| then true
    else
      var sub := U32At(data, pos + 4) as int;
      var skipped := 8 + sub + sub % 2;
      sub <= INT_MAX && (pos + skipped <= |data| ==> ListOrderly(data, pos + skipped, bytesRead + skipped, size))
  }

  predicate ChunkOrderly(container: Container, data: seq<byte>, h: HeaderRead)
    requires h.Header?
  {
    h.size + h.padding < 0x1_0000_0000_0000_0000
    && (IsFmt(h.ident) ==> 16 <= h.size <= INT_MAX)
    && (IsFact(h.ident) ==> h.size >= if container == W64 then 8 else 4)
    && (h.ident == FourCCId(ID_LIST) || h.ident == FourCCId(ID_list) ==> ListOrderly(data, h.next, 0, h.size))
  }

  function EndOf(h: HeaderRead): nat
    requires h.Header?
  {
    h.next + h.size + h.padding
  }

  /** Every chunk from `pos` on is orderly, each beginning where the one before ends. */
  predicate Orderly(container: Container, data: seq<byte>, pos: nat)
    requires pos <= |data|
    decreases |data| - pos
  {
    var h := ReadChunkHeader(container, data, pos);
    h.NoHeader? || (ChunkOrderly(container, data, h) && (EndOf(h) <= |data| ==> Orderly(container, data, EndOf(h))))
  }

  // ---------- the first walk ----------

  lemma ScanFmtOrderly(container: Container, data: seq<byte>, s: Scan, h: HeaderRead)
    requires h.Header? && h.next <= |data| && IsFmt(h.ident) && ChunkOrderly(container, data, h) && s.drift == 0
    ensures var r := ScanFmt(data, s, h);
      (r.Next? ==> r.s.pos == EndOf(h) && r.s.drift == 0) && (r.Stop? ==> EndOf(h) > |data|)
      && (r.Next? || r.Stop? ==> r.s.parser == s.parser)
  {
    hide FmtFrom, U16At, U32At, U64At, ToInt32, ListOrderly;
    if h.size > 16 && h.next + 18 <= |data| {
      CastLeftover(h.size, 18 + U16At(data, h.next + 16));
    }
  }

  lemma CastLeftover(size: nat, soFar: nat)
    requires size <= INT_MAX && soFar <= 0x2_0000
    ensures ToInt32(ToU64(size - soFar)) == size - soFar
    ensures ToU64(ToU64(size - soFar) - ToInt32(ToU64(size - soFar))) == 0
  {
    if size < soFar {
      var u := size - soFar + 0x1_0000_0000_0000_0000;
      DivUnique(size - soFar, 0x1_0000_0000_0000_0000, -1, u);
      DivUnique(u, 0x1_0000_0000, 0xFFFF_FFFF, size - soFar + 0x1_0000_0000);
    }
  }

  lemma SkipOrderly(data: seq<byte>, s: Scan, pos: nat, chunkSize: u64, h: HeaderRead)
    requires h.Header? && pos + chunkSize == h.next + h.size && chunkSize + h.padding < 0x1_0000_0000_0000_0000
    ensures SkipBody(data, s, pos, chunkSize, h.padding)
         == if EndOf(h) > |data| then Stop(s) else Next(s.(pos := EndOf(h)))
  {
  }

  lemma ScanFactOrderly(container: Container, data: seq<byte>, s: Scan, h: HeaderRead)
    requires h.Header? && h.next <= |data| && IsFact(h.ident) && ChunkOrderly(container, data, h)
    ensures var r := ScanFact(container, data, s, h);
      (r.Next? ==> r.s.pos == EndOf(h) && r.s.drift == s.drift) && (r.Stop? ==> EndOf(h) > |data|)
      && (r.Next? || r.Stop? ==> r.s.parser == s.parser)
  {
    hide ListOrderly, SkipBody, U64At;
    match container {
      case Riff => SkipOrderly(data, s.(factCount := 0), h.next + 4, h.size - 4, h);
      case W64 =>
        if h.next + 8 <= |data| {
          SkipOrderly(data, s.(factCount := U64At(data, h.next)), h.next + 8, h.size - 8, h);
        }
      case Rf64 => SkipOrderly(data, s, h.next, h.size, h);
    }
  }

  lemma ScanChunkOrderly(container: Container, processing: bool, data: seq<byte>, s: Scan, h: HeaderRead)
    requires h.Header? && h.next <= |data| && ChunkOrderly(container, data, h) && s.drift == 0
    ensures var r := ScanChunk(container, processing, data, s, h);
      (r.Next? ==> r.s.pos == EndOf(h) && r.s.drift == 0) && (r.Stop? && processing ==> EndOf(h) > |data|)
      && (r.Next? || r.Stop? ==>
            r.s.parser == if processing && h.ident.FourCCId? && !IsFmt(h.ident) && !IsData(h.ident) && !IsFact(h.ident)
                          then ProcessChunk(data, h.next, s.parser, h.ident.id, h.size).p else s.parser)
  {
    hide ScanFmt, ScanFact, ProcessChunk, SkipBody, ChunkOrderly, EndOf;
    assert h.size + h.padding < 0x1_0000_0000_0000_0000 by { FitsU64(container, data, h); }
    if IsFmt(h.ident) {
      ScanFmtOrderly(container, data, s, h);
    } else if IsData(h.ident) {
      SkipOrderly(data, s.(foundData := true, dataPos := h.next,
                           dataSize := if container == Rf64 then s.dataSize else h.size), h.next, h.size, h);
    } else if IsFact(h.ident) {
      ScanFactOrderly(container, data, s, h);
    } else if processing && h.ident.FourCCId? {
      SkipOrderly(data, s.(parser := ProcessChunk(data, h.next, s.parser, h.ident.id, h.size).p), h.next, h.size, h);
    } else {
      SkipOrderly(data, s, h.next, h.size, h);
    }
  }

  lemma ScanTurnOrderly(container: Container, processing: bool, data: seq<byte>, s: Scan)
    requires s.pos <= |data| && Orderly(container, data, s.pos) && s.drift == 0
    ensures var h, r := ReadChunkHeader(container, data, s.pos), ScanTurn(container, processing, data, s);
      (r.Next? ==> h.Header? && r.s.pos == EndOf(h) && r.s.drift == 0 && Orderly(container, data, r.s.pos))
      && (r.Stop? && h.Header? && processing ==> EndOf(h) > |data|)
  {
    hide ScanChunk, ReadChunkHeader, ChunkOrderly, EndOf;
    var h := ReadChunkHeader(container, data, s.pos);
    if h.Header? {
      ScanChunkOrderly(container, processing, data, s, h);
    }
  }

  /** The first walk over an orderly file ends. */
  lemma {:induction false} ScanOrderlyEnds(container: Container, processing: bool, data: seq<byte>, s: Scan)
    requires s.pos <= |data| && Orderly(container, data, s.pos) && s.drift == 0
    ensures !ScanChunks(container, processing, data, s).ScansForever?
    decreases |data| - s.pos
  {
    hide ScanTurn, ScanChunks, Orderly;
    ScanOn(container, processing, data, s);
    ScanTurnOrderly(container, processing, data, s);
    var r := ScanTurn(container, processing, data, s);
    if r.Next? {
      ScanOrderlyEnds(container, processing, data, r.s);
    }
  }

  lemma FitsU64(container: Container, data: seq<byte>, h: HeaderRead)
    requires h.Header? && ChunkOrderly(container, data, h)
    ensures h.size + h.padding < 0x1_0000_0000_0000_0000
  {
  }

  /** The chunks behind the container's own header are orderly. */
  predicate OrderlyFile(data: seq<byte>) {
    |data| < 0x1_0000_0000_0000_0000 &&
    var pro := ReadPrologue(data); pro.Prologue? ==> Orderly(pro.container, data, pro.pos)
  }
}
