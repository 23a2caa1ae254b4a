/** Little-endian bytes: the encodings both WAV libraries share, and "these bytes stand at this
    offset" reasoning for sequences of bytes. */
module Bytes {

  type byte = x: int | 0 <= x < 0x100
  type u16 = x: int | 0 <= x < 0x1_0000
  type u32 = x: int | 0 <= x < 0x1_0000_0000
  type u64 = x: int | 0 <= x < 0x1_0000_0000_0000_0000

  const U32_MAX: u32 := 0xFFFF_FFFF
  const INT_MAX: u32 := 0x7FFF_FFFF

  /** Truncating casts. */
  function ToU16(x: int): u16 { x % 0x1_0000 }
  function ToU32(x: int): u32 { x % 0x1_0000_0000 }
  function ToU64(x: int): u64 { x % 0x1_0000_0000_0000_0000 }

  function Min(a: int, b: int): int { if a < b then a else b }

  function LE16(x: u16): (s: seq<byte>)
    ensures |s| == 2
  {
    [x % 0x100, x / 0x100]
  }

  function LE32(x: u32): (s: seq<byte>)
    ensures |s| == 4
  {
    LE16(x % 0x1_0000) + LE16(x / 0x1_0000)
  }

  function LE64(x: u64): (s: seq<byte>)
    ensures |s| == 8
  {
    LE32(x % 0x1_0000_0000) + LE32(x / 0x1_0000_0000)
  }

  function U16At(s: seq<byte>, o: nat): u16
    requires o + 2 <= |s|
  {
    s[o] as int + 0x100 * s[o + 1] as int
  }

  function U32At(s: seq<byte>, o: nat): u32
    requires o + 4 <= |s|
  {
    U16At(s, o) as int + 0x1_0000 * U16At(s, o + 2) as int
  }

  function U64At(s: seq<byte>, o: nat): u64
    requires o + 8 <= |s|
  {
    U32At(s, o) as int + 0x1_0000_0000 * U32At(s, o + 4) as int
  }

  /** A byte as a signed 8-bit value, and back. */
  type i8 = x: int | -0x80 <= x < 0x80
  function ToI8(b: byte): i8 { if b < 0x80 then b else b - 0x100 }
  function FromI8(x: i8): byte { if x < 0 then x + 0x100 else x }

  /** `piece` is what `data` holds from `pos` on. */
  ghost predicate At(data: seq<byte>, pos: nat, piece: seq<byte>)
  {
    pos + |piece| <= |data| && data[pos..pos + |piece|] == piece
  }

  lemma AtSplit(data: seq<byte>, pos: nat, a: seq<byte>, b: seq<byte>)
    requires At(data, pos, a + b)
    ensures At(data, pos, a) && At(data, pos + |a|, b)
  {
    assert data[pos..pos + |a + b|] == a + b;
    assert data[pos..pos + |a|] == (a + b)[..|a|] == a;
    assert data[pos + |a|..pos + |a| + |b|] == (a + b)[|a|..] == b;
  }

  lemma AtSplit3(data: seq<byte>, pos: nat, a: seq<byte>, b: seq<byte>, c: seq<byte>)
    requires At(data, pos, a + b + c)
    ensures At(data, pos, a) && At(data, pos + |a|, b) && At(data, pos + |a| + |b|, c)
  {
    AtSplit(data, pos, a + b, c);
    AtSplit(data, pos, a, b);
  }

  lemma AtWhole(data: seq<byte>, pre: seq<byte>, piece: seq<byte>, post: seq<byte>)
    requires data == pre + piece + post
    ensures At(data, |pre|, piece)
  {
  }

  /** Number round trips. */
  lemma LE16RoundTrip(s: seq<byte>, o: nat, x: u16)
    requires At(s, o, LE16(x))
    ensures U16At(s, o) == x
  {
    assert s[o..o + 2][0] == s[o] && s[o..o + 2][1] == s[o + 1];
  }

  lemma LE32RoundTrip(s: seq<byte>, o: nat, x: u32)
    requires At(s, o, LE32(x))
    ensures U32At(s, o) == x
  {
    AtSplit(s, o, LE16(x % 0x1_0000), LE16(x / 0x1_0000));
    LE16RoundTrip(s, o, x % 0x1_0000);
    LE16RoundTrip(s, o + 2, x / 0x1_0000);
  }

  lemma LE64RoundTrip(s: seq<byte>, o: nat, x: u64)
    requires At(s, o, LE64(x))
    ensures U64At(s, o) == x
  {
    AtSplit(s, o, LE32(x % 0x1_0000_0000), LE32(x / 0x1_0000_0000));
    LE32RoundTrip(s, o, x % 0x1_0000_0000);
    LE32RoundTrip(s, o + 4, x / 0x1_0000_0000);
  }

  /** A run of 32-bit words. */
  function Words(ws: seq<u32>): (s: seq<byte>)
    ensures |s| == 4 * |ws|
  {
    if ws == [] then [] else LE32(ws[0]) + Words(ws[1..])
  }

  lemma {:induction false} WordAt(s: seq<byte>, o: nat, ws: seq<u32>, i: nat)
    requires i < |ws| && At(s, o, Words(ws))
    ensures o + 4 * i + 4 <= |s| && U32At(s, o + 4 * i) == ws[i]
    decreases |ws|
  {
    AtSplit(s, o, LE32(ws[0]), Words(ws[1..]));
    if i == 0 {
      LE32RoundTrip(s, o, ws[0]);
    } else {
      WordAt(s, o + 4, ws[1..], i - 1);
    }
  }

  /** A run of 16-bit words. */
  function Halves(hs: seq<u16>): (s: seq<byte>)
    ensures |s| == 2 * |hs|
  {
    if hs == [] then [] else LE16(hs[0]) + Halves(hs[1..])
  }

  lemma {:induction false} HalfAt(s: seq<byte>, o: nat, hs: seq<u16>, i: nat)
    requires i < |hs| && At(s, o, Halves(hs))
    ensures o + 2 * i + 2 <= |s| && U16At(s, o + 2 * i) == hs[i]
    decreases |hs|
  {
    AtSplit(s, o, LE16(hs[0]), Halves(hs[1..]));
    if i == 0 {
      LE16RoundTrip(s, o, hs[0]);
    } else {
      HalfAt(s, o + 2, hs[1..], i - 1);
    }
  }

  /** A slice of the data still holds its pieces at relative offsets. */
  lemma AtSlice(data: seq<byte>, pos: nat, whole: seq<byte>, o: nat, piece: seq<byte>)
    requires At(data, pos, whole) && At(whole, o, piece)
    ensures At(data, pos + o, piece)
  {
    forall i | 0 <= i < |piece| ensures data[pos + o + i] == piece[i] {
      assert data[pos..pos + |whole|][o + i] == data[pos + (o + i)];
      assert whole[o..o + |piece|][i] == whole[o + i];
    }
    assert data[pos + o..pos + o + |piece|] == piece;
  }

  function Zeros(n: nat): (s: seq<byte>)
    ensures |s| == n
  {
    seq(n, _ => 0)
  }

  /** Quotient and remainder are the only pair that fits. */
  lemma DivUnique(n: int, b: int, q: int, r: int)
    requires n == b * q + r && 0 <= r < b
    ensures n / b == q && n % b == r
  {
    var q', r' := n / b, n % b;
    assert n == b * q' + r' && 0 <= r' < b;
    assert b * (q - q') == r' - r;
    if q > q' {
      MulMonotone(b, 1, q - q');
    } else if q < q' {
      MulMonotone(b, 1, q' - q);
    }
  }

  lemma MulMonotone(b: int, x: int, y: int)
    requires 0 <= b && x <= y
    ensures b * x <= b * y
  {
  }
}
