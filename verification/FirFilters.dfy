/** The plain FIR filter and the vector ones, all proved to put out the same convolution. */
module FirFilters {
  import opened FirSpec

  /** What a filter remembers of the signal is enough for the next chunk. */
  lemma RowHolds(state: seq<real>, seen: seq<real>, input: seq<real>)
    requires Holds(state, seen, |seen| - |state|, |state|)
    ensures Holds(state + input, seen + input, |seen| - |state|, |state| + |input|)
  {
    var row, x := state + input, seen + input;
    forall t | 0 <= t < |row| ensures row[t] == Past(x, |seen| - |state| + t) {
      if t < |state| {
        assert row[t] == state[t];
      }
    }
  }

  /** The last samples of a row are the next state. */
  lemma RowTail(row: seq<real>, x: seq<real>, start: int, k: nat, state: seq<real>)
    requires Holds(row, x, start, |row|) && k + |state| <= |row|
    requires forall t :: 0 <= t < |state| ==> state[t] == row[k + t]
    ensures Holds(state, x, start + k, |state|)
  {
  }

  // ---------- FIRFilterC ----------

  class FIRFilterC {
    ghost const h: seq<real>
    ghost var seen: seq<real>  // the whole signal so far
    const coefficientsLength: nat
    const stateLength: nat
    const coefficients: array<real>
    const state: array<real>

    ghost predicate Valid()
      reads this, coefficients, state
    {
      |h| == coefficientsLength == coefficients.Length == stateLength + 1 && state.Length == stateLength
      && coefficients != state
      && Reversed(coefficients[..], h) && Holds(state[..], seen, |seen| - stateLength, stateLength)
    }

    constructor (coefs: seq<real>)
      requires |coefs| > 0
      ensures Valid() && h == coefs && seen == [] && fresh(coefficients) && fresh(state)
    {
      h, seen := coefs, [];
      coefficientsLength := |coefs|;
      stateLength := |coefs| - 1;
      coefficients := new real[|coefs|];
      state := new real[|coefs| - 1](_ => 0.0);
      new;
      for i := 0 to coefficientsLength
        invariant seen == []
        invariant forall t :: 0 <= t < i ==> coefficients[t] == coefs[|coefs| - 1 - t]
        invariant forall t :: 0 <= t < stateLength ==> state[t] == 0.0
      {
        coefficients[i] := coefs[coefficientsLength - i - 1];
      }
    }

    method Filter(input: seq<real>, out: array<real>)
      requires Valid() && |input| <= out.Length && out != coefficients && out != state
      modifies this`seen, state, out
      ensures Valid() && seen == old(seen) + input
      ensures out[..|input|] == Outputs(h, old(seen), input)
      ensures out[|input|..] == old(out[|input|..])
    {
      hide ConvSum, Reversed, Holds;
      ghost var row := state[..] + input;
      RowHolds(state[..], seen, input);
      for i := 0 to |input|
        invariant seen == old(seen) && out[|input|..] == old(out[|input|..])
        invariant state[..] == old(state[..]) && coefficients[..] == old(coefficients[..])
        invariant out[..i] == Outputs(h, seen, input)[..i]
      {
        FilterOne(i, input, out, row);
        PaddedIsConv(h, seen + input, row, |seen| - stateLength, i, coefficients[..]) by {
          HoldsLess(row, seen + input, |seen| - stateLength, |row|, i + coefficientsLength);
        }
        assert Outputs(h, seen, input)[i] == Conv(h, seen + input, |seen| + i);
        assert out[..i + 1] == out[..i] + [out[i]];
      }
      UpdateState(input, row);
    }

    /** The two inner loops: first the products with the state, then those with the input. */
    method FilterOne(i: nat, input: seq<real>, out: array<real>, ghost row: seq<real>)
      requires coefficientsLength == coefficients.Length == stateLength + 1 && state.Length == stateLength
      requires out != coefficients && out != state && i < |input| <= out.Length
      requires row == state[..] + input
      modifies out
      ensures out[i] == Dot(row, i, coefficients[..], coefficientsLength)
      ensures forall t :: 0 <= t < out.Length && t != i ==> out[t] == old(out[t])
    {
      out[i] := 0.0;
      var j := 0;
      while stateLength > i && j < stateLength - i
        invariant 0 <= j <= (if stateLength > i then stateLength - i else 0)
        invariant out[i] == Dot(row, i, coefficients[..], j)
        invariant forall t :: 0 <= t < out.Length && t != i ==> out[t] == old(out[t])
      {
        assert row[i + j] == state[i + j];
        out[i] := out[i] + state[i + j] * coefficients[j];
        j := j + 1;
      }
      while j < coefficientsLength
        invariant (if stateLength > i then stateLength - i else 0) <= j <= coefficientsLength
        invariant out[i] == Dot(row, i, coefficients[..], j)
        invariant forall t :: 0 <= t < out.Length && t != i ==> out[t] == old(out[t])
      {
        assert row[i + j] == input[j + i - stateLength];
        out[i] := out[i] + input[j + i - stateLength] * coefficients[j];
        j := j + 1;
      }
    }

    /** The last samples seen become the state: all of them new, or some of the old ones moved down. */
    method UpdateState(input: seq<real>, ghost row: seq<real>)
      requires Valid() && row == state[..] + input
      modifies this`seen, state
      ensures Valid() && seen == old(seen) + input
    {
      RowHolds(state[..], seen, input);
      var length := |input|;
      if length >= stateLength {
        forall j | 0 <= j < stateLength { state[j] := input[length - stateLength + j]; }
      } else {
        forall j | 0 <= j < stateLength - length { state[j] := state[length + j]; }
        forall j | 0 <= j < length { state[stateLength - length + j] := input[j]; }
      }
      RowTail(row, seen + input, |seen| - stateLength, length, state[..]);
      seen := seen + input;
    }
  }

  lemma HoldsLess(row: seq<real>, x: seq<real>, start: int, n: nat, m: nat)
    requires Holds(row, x, start, n) && m <= n
    ensures Holds(row, x, start, m)
  {
  }

  // ---------- the vector instructions, lane by lane ----------

  type Vec4 = v: seq<real> | |v| == 4 witness [0.0, 0.0, 0.0, 0.0]
  type Vec8 = v: seq<real> | |v| == 8 witness [0.0, 0.0, 0.0, 0.0, 0.0, 0.0, 0.0, 0.0]
  type Vec2 = v: seq<real> | |v| == 2 witness [0.0, 0.0]

  function Add4(a: Vec4, b: Vec4): Vec4 { [a[0] + b[0], a[1] + b[1], a[2] + b[2], a[3] + b[3]] }
  function Mul4(a: Vec4, b: Vec4): Vec4 { [a[0] * b[0], a[1] * b[1], a[2] * b[2], a[3] * b[3]] }

  /** a * b + c in each of eight lanes. */
  function MulAdd8(a: Vec8, b: Vec8, c: Vec8): Vec8 {
    [a[0] * b[0] + c[0], a[1] * b[1] + c[1], a[2] * b[2] + c[2], a[3] * b[3] + c[3],
     a[4] * b[4] + c[4], a[5] * b[5] + c[5], a[6] * b[6] + c[6], a[7] * b[7] + c[7]]
  }

  /** The upper lanes of b below those of a. */
  function MoveHighLow(a: Vec4, b: Vec4): Vec4 { [b[2], b[3], a[2], a[3]] }

  function Shuffle1(a: Vec4, b: Vec4): Vec4 { [a[1], a[0], b[0], b[0]] }
  function AddLowest(a: Vec4, b: Vec4): Vec4 { [a[0] + b[0], a[1], a[2], a[3]] }
  function Half(v: Vec8, k: nat): Vec4
    requires k < 2
  {
    v[4 * k..4 * k + 4]
  }
  function Low2(v: Vec4): Vec2 { v[..2] }
  function High2(v: Vec4): Vec2 { v[2..] }
  function Add2(a: Vec2, b: Vec2): Vec2 { [a[0] + b[0], a[1] + b[1]] }
  function PairwiseAdd2(a: Vec2, b: Vec2): Vec2 { [a[0] + a[1], b[0] + b[1]] }

  function Lanes4(v: Vec4): real { v[0] + v[1] + v[2] + v[3] }
  function Lanes8(v: Vec8): real { v[0] + v[1] + v[2] + v[3] + v[4] + v[5] + v[6] + v[7] }

  lemma DotNext4(row: seq<real>, i: nat, c: seq<real>, j: nat)
    requires j + 4 <= |c| && i + |c| <= |row|
    ensures Dot(row, i, c, j + 4) == Dot(row, i, c, j) + Lanes4(Mul4(row[i + j..i + j + 4], c[j..j + 4]))
  {
    assert Dot(row, i, c, j + 2) == Dot(row, i, c, j) + row[i + j] * c[j] + row[i + j + 1] * c[j + 1];
  }

  lemma DotNext8(row: seq<real>, i: nat, c: seq<real>, j: nat, sum: Vec8)
    requires j + 8 <= |c| && i + |c| <= |row| && Lanes8(sum) == Dot(row, i, c, j)
    ensures Lanes8(MulAdd8(row[i + j..i + j + 8], c[j..j + 8], sum)) == Dot(row, i, c, j + 8)
  {
    var a, b := row[i + j..i + j + 8], c[j..j + 8];
    DotNext4(row, i, c, j);
    DotNext4(row, i, c, j + 4);
    assert a[..4] == row[i + j..i + j + 4] && b[..4] == c[j..j + 4];
    assert a[4..] == row[i + (j + 4)..i + (j + 4) + 4] && b[4..] == c[j + 4..j + 4 + 4];
    MulAddLanes(a, b, sum);
  }

  lemma MulAddLanes(a: Vec8, b: Vec8, sum: Vec8)
    ensures Lanes8(MulAdd8(a, b, sum)) == Lanes8(sum) + Lanes4(Mul4(a[..4], b[..4])) + Lanes4(Mul4(a[4..], b[4..]))
  {
  }

  // ---------- FIRFilterSSE2, FIRFilterAVX2 and FIRFilterNEON ----------

  datatype Isa = Sse2 | Avx2 | Neon

  function LaneCount(isa: Isa): nat { if isa == Avx2 then 8 else 4 }

  /** The closest higher multiple of the number of lanes. */
  function PaddedLength(isa: Isa, n: nat): (m: nat)
    ensures n <= m < n + LaneCount(isa) && m % LaneCount(isa) == 0
  {
    if isa == Avx2 then (n + 7) / 8 * 8 else (n + 3) / 4 * 4
  }

  class FIRFilterSimd {
    const isa: Isa
    ghost const h: seq<real>
    ghost var seen: seq<real>
    const coefficientsLength: nat
    const stateLength: nat
    const maxInputLength: nat
    const coefficients: array<real>
    const state: array<real>

    ghost predicate Valid()
      reads this, coefficients, state
    {
      coefficientsLength == coefficients.Length == stateLength + 1 && |h| > 0
      && coefficientsLength == PaddedLength(isa, |h|) && state.Length == maxInputLength + stateLength
      && coefficients != state
      && Reversed(coefficients[..], h) && Holds(state[..], seen, |seen| - stateLength, stateLength)
    }

    constructor (isa: Isa, coefs: seq<real>, maxInputLength: nat)
      requires |coefs| > 0
      ensures Valid() && this.isa == isa && h == coefs && seen == [] && this.maxInputLength == maxInputLength
      ensures fresh(coefficients) && fresh(state)
    {
      this.isa, this.maxInputLength := isa, maxInputLength;
      h, seen := coefs, [];
      var n := PaddedLength(isa, |coefs|);
      coefficientsLength, stateLength := n, n - 1;
      coefficients := new real[n](_ => 0.0);
      state := new real[maxInputLength + n - 1](_ => 0.0);
      new;
      var padding := n - |coefs|;
      for i := 0 to |coefs|
        invariant seen == []
        invariant forall t :: 0 <= t < padding ==> coefficients[t] == 0.0
        invariant forall t :: padding <= t < padding + i ==> coefficients[t] == coefs[n - 1 - t]
        invariant forall t :: 0 <= t < state.Length ==> state[t] == 0.0
      {
        coefficients[i + padding] := coefs[|coefs| - i - 1];
      }
    }

    method Filter(input: seq<real>, out: array<real>)
      requires Valid() && |input| <= maxInputLength
      requires |input| <= out.Length && out != coefficients && out != state
      modifies this`seen, state, out
      ensures Valid() && seen == old(seen) + input
      ensures out[..|input|] == Outputs(h, old(seen), input)
      ensures out[|input|..] == old(out[|input|..])
    {
      hide ConvSum, Reversed, Holds, PaddedLength;
      var length := |input|;
      ghost var row := state[..stateLength] + input;
      AppendInput(input);
      for i := 0 to length
        invariant seen == old(seen) && out[length..] == old(out[length..])
        invariant state[..length + stateLength] == row && coefficients[..] == old(coefficients[..])
        invariant out[..i] == Outputs(h, seen, input)[..i]
      {
        out[i] := DotProduct(i);
        DotPrefix(state[..], row, i, coefficients[..], coefficientsLength);
        PaddedIsConv(h, seen + input, row, |seen| - stateLength, i, coefficients[..]) by {
          HoldsLess(row, seen + input, |seen| - stateLength, |row|, i + coefficientsLength);
        }
        assert Outputs(h, seen, input)[i] == Conv(h, seen + input, |seen| + i);
        assert out[..i + 1] == out[..i] + [out[i]];
      }
      ShiftState(input, row);
    }

    /** The input behind the state. */
    method AppendInput(input: seq<real>)
      requires Valid() && |input| <= maxInputLength
      modifies state
      ensures state[..stateLength + |input|] == old(state[..stateLength]) + input
      ensures var row := state[..stateLength + |input|];
        Holds(row, seen + input, |seen| - stateLength, |row|)
    {
      StateHolds();
      RowHolds(state[..stateLength], seen, input);
      forall j | 0 <= j < |input| { state[stateLength + j] := input[j]; }
      assert state[..stateLength + |input|] == old(state[..stateLength]) + input;
    }

    lemma StateHolds()
      requires Valid()
      ensures Holds(state[..stateLength], seen, |seen| - stateLength, stateLength)
    {
      forall t | 0 <= t < stateLength ensures state[..stateLength][t] == Past(seen, |seen| - stateLength + t) {
        assert state[..][t] == Past(seen, |seen| - stateLength + t);
      }
    }

    /** The last samples of the row move to the front. */
    method ShiftState(input: seq<real>, ghost row: seq<real>)
      requires coefficientsLength == coefficients.Length == stateLength + 1 && |h| > 0
      requires coefficientsLength == PaddedLength(isa, |h|) && state.Length == maxInputLength + stateLength
      requires coefficients != state && Reversed(coefficients[..], h) && |input| <= maxInputLength
      requires state[..stateLength + |input|] == row && Holds(row, seen + input, |seen| - stateLength, |row|)
      modifies this`seen, state
      ensures Valid() && seen == old(seen) + input
    {
      hide Reversed, PaddedLength, Holds;
      var length := |input|;
      ghost var before := state[..];
      forall j | 0 <= j < stateLength { state[j] := state[length + j]; }
      ShiftHolds(before, state[..], stateLength, length, seen + input, |seen| - stateLength);
      seen := seen + input;
      assert coefficients[..] == old(coefficients[..]);
    }

    method DotProduct(i: nat) returns (y: real)
      requires coefficientsLength == coefficients.Length && coefficientsLength % LaneCount(isa) == 0
      requires i + coefficientsLength <= state.Length
      ensures y == Dot(state[..], i, coefficients[..], coefficientsLength)
    {
      match isa {
        case Sse2 => y := DotSse2(i);
        case Avx2 => y := DotAvx2(i);
        case Neon => y := DotNeon(i);
      }
    }

    method DotSse2(i: nat) returns (y: real)
      requires coefficientsLength == coefficients.Length && coefficientsLength % 4 == 0
      requires i + coefficientsLength <= state.Length
      ensures y == Dot(state[..], i, coefficients[..], coefficientsLength)
    {
      var sum: Vec4 := [0.0, 0.0, 0.0, 0.0];
      var j := 0;
      while j < coefficientsLength
        invariant j <= coefficientsLength && j % 4 == 0
        invariant Lanes4(sum) == Dot(state[..], i, coefficients[..], j)
      {
        DotNext4(state[..], i, coefficients[..], j);
        var products := Mul4(state[i + j..i + j + 4], coefficients[j..j + 4]);
        assert Lanes4(Add4(sum, products)) == Lanes4(sum) + Lanes4(products);
        sum := Add4(sum, products);
        j := j + 4;
      }
      var pairs := Add4(MoveHighLow(sum, sum), sum);
      y := AddLowest(pairs, Shuffle1(pairs, pairs))[0];
    }

    method DotAvx2(i: nat) returns (y: real)
      requires coefficientsLength == coefficients.Length && coefficientsLength % 8 == 0
      requires i + coefficientsLength <= state.Length
      ensures y == Dot(state[..], i, coefficients[..], coefficientsLength)
    {
      var sum: Vec8 := [0.0, 0.0, 0.0, 0.0, 0.0, 0.0, 0.0, 0.0];
      var j := 0;
      while j < coefficientsLength
        invariant j <= coefficientsLength && j % 8 == 0
        invariant Lanes8(sum) == Dot(state[..], i, coefficients[..], j)
      {
        DotNext8(state[..], i, coefficients[..], j, sum);
        sum := MulAdd8(state[i + j..i + j + 8], coefficients[j..j + 8], sum);
        j := j + 8;
      }
      var half := Add4(Half(sum, 0), Half(sum, 1));
      var pairs := Add4(MoveHighLow(half, half), half);
      y := AddLowest(pairs, Shuffle1(pairs, pairs))[0];
    }

    method DotNeon(i: nat) returns (y: real)
      requires coefficientsLength == coefficients.Length && coefficientsLength % 4 == 0
      requires i + coefficientsLength <= state.Length
      ensures y == Dot(state[..], i, coefficients[..], coefficientsLength)
    {
      var sum: Vec4 := [0.0, 0.0, 0.0, 0.0];
      var j := 0;
      while j < coefficientsLength
        invariant j <= coefficientsLength && j % 4 == 0
        invariant Lanes4(sum) == Dot(state[..], i, coefficients[..], j)
      {
        DotNext4(state[..], i, coefficients[..], j);
        var products := Mul4(state[i + j..i + j + 4], coefficients[j..j + 4]);
        assert Lanes4(Add4(sum, products)) == Lanes4(sum) + Lanes4(products);
        sum := Add4(sum, products);
        j := j + 4;
      }
      var half := Add2(High2(sum), Low2(sum));
      y := PairwiseAdd2(half, half)[0];
    }
  }

  lemma ShiftHolds(before: seq<real>, after: seq<real>, n: nat, k: nat, x: seq<real>, start: int)
    requires n + k <= |before| && n <= |after| && Holds(before[..n + k], x, start, n + k)
    requires forall t :: 0 <= t < n ==> after[t] == before[k + t]
    ensures Holds(after, x, start + k, n)
  {
    forall t | 0 <= t < n ensures after[t] == Past(x, start + k + t) {
      assert before[..n + k][k + t] == Past(x, start + (k + t));
    }
  }

  lemma {:induction false} DotPrefix(a: seq<real>, b: seq<real>, i: nat, c: seq<real>, n: nat)
    requires i + n <= |b| <= |a| && a[..|b|] == b && n <= |c|
    ensures Dot(a, i, c, n) == Dot(b, i, c, n)
  {
    if n > 0 {
      DotPrefix(a, b, i, c, n - 1);
      assert a[..|b|][i + n - 1] == b[i + n - 1];
    }
  }
}
