/** The causal convolution that every FIR filter of the library computes, over exact reals. */
module FirSpec {

  /** Sample `i` of a signal that is zero outside its samples. */
  function Past(x: seq<real>, i: int): real { if 0 <= i < |x| then x[i] else 0.0 }

  /** The first `k` terms of y[n] = sum of x[n - k] * h[k]. */
  function ConvSum(h: seq<real>, x: seq<real>, n: int, k: nat): real
    requires k <= |h|
  {
    if k == 0 then 0.0 else ConvSum(h, x, n, k - 1) + Past(x, n - (k - 1)) * h[k - 1]
  }

  function Conv(h: seq<real>, x: seq<real>, n: int): real { ConvSum(h, x, n, |h|) }

  /** What a filter that has seen `seen` puts out for `chunk`. */
  function Outputs(h: seq<real>, seen: seq<real>, chunk: seq<real>): (y: seq<real>)
    ensures |y| == |chunk|
  {
    seq(|chunk|, i requires 0 <= i < |chunk| => Conv(h, seen + chunk, |seen| + i))
  }

  // ---------- properties ----------

  /** Later samples do not matter. */
  lemma {:induction false} Causal(h: seq<real>, x: seq<real>, y: seq<real>, n: int, k: nat)
    requires k <= |h| && n < |x|
    ensures ConvSum(h, x + y, n, k) == ConvSum(h, x, n, k)
  {
    if k > 0 {
      Causal(h, x, y, n, k - 1);
    }
  }

  /** Cutting a chunk in two changes nothing. */
  lemma OutputsSplit(h: seq<real>, seen: seq<real>, a: seq<real>, b: seq<real>)
    ensures Outputs(h, seen, a + b) == Outputs(h, seen, a) + Outputs(h, seen + a, b)
  {
    assert seen + (a + b) == (seen + a) + b;
    var whole, first, second := Outputs(h, seen, a + b), Outputs(h, seen, a), Outputs(h, seen + a, b);
    forall i | 0 <= i < |a| + |b| ensures whole[i] == (first + second)[i] {
      assert whole[i] == Conv(h, seen + a + b, |seen| + i);
      if i < |a| {
        Causal(h, seen + a, b, |seen| + i, |h|);
        assert first[i] == Conv(h, seen + a, |seen| + i);
      } else {
        assert second[i - |a|] == Conv(h, seen + a + b, |seen + a| + (i - |a|));
      }
    }
  }

  function Flatten(chunks: seq<seq<real>>): seq<real> {
    if chunks == [] then [] else chunks[0] + Flatten(chunks[1..])
  }

  /** The outputs of a stream fed chunk by chunk, each with the history the earlier ones left. */
  function StreamOutputs(h: seq<real>, seen: seq<real>, chunks: seq<seq<real>>): seq<real>
    decreases |chunks|
  {
    if chunks == [] then []
    else Outputs(h, seen, chunks[0]) + StreamOutputs(h, seen + chunks[0], chunks[1..])
  }

  /** The outputs do not depend on where the stream was cut. */
  lemma {:induction false} ChunkingIndependent(h: seq<real>, seen: seq<real>, chunks: seq<seq<real>>)
    ensures StreamOutputs(h, seen, chunks) == Outputs(h, seen, Flatten(chunks))
    decreases |chunks|
  {
    hide Outputs;
    if chunks == [] {
      NoOutputs(h, seen);
    } else {
      ChunkingIndependent(h, seen + chunks[0], chunks[1..]);
      OutputsSplit(h, seen, chunks[0], Flatten(chunks[1..]));
    }
  }

  lemma NoOutputs(h: seq<real>, seen: seq<real>)
    ensures Outputs(h, seen, []) == []
  {
  }

  /** The response to a unit impulse is the coefficients. */
  lemma {:induction false} ImpulseSum(h: seq<real>, n: nat, k: nat, x: seq<real>)
    requires k <= |h| && |x| > 0 && x[0] == 1.0 && forall i :: 0 < i < |x| ==> x[i] == 0.0
    ensures ConvSum(h, x, n, k) == if n < k then h[n] else 0.0
  {
    if k > 0 {
      ImpulseSum(h, n, k - 1, x);
    }
  }

  lemma ImpulseResponse(h: seq<real>, x: seq<real>)
    requires |x| == |h| > 0 && x[0] == 1.0 && forall i :: 0 < i < |x| ==> x[i] == 0.0
    ensures Outputs(h, [], x) == h
  {
    var none: seq<real> := [];
    assert none + x == x;
    forall n | 0 <= n < |h| ensures Outputs(h, none, x)[n] == h[n] {
      ImpulseSum(h, n, |h|, x);
      assert Outputs(h, none, x)[n] == Conv(h, none + x, |none| + n);
    }
  }

  // ---------- the order in which the filters add ----------

  /** The first `j` products in storage order: oldest sample first, coefficients reversed. */
  function TapSum(h: seq<real>, x: seq<real>, n: int, j: nat): real
    requires j <= |h|
  {
    if j == 0 then 0.0
    else TapSum(h, x, n, j - 1) + Past(x, n - (|h| - j)) * h[|h| - j]
  }

  lemma {:induction false} TapsAreConv(h: seq<real>, x: seq<real>, n: int, j: nat)
    requires j <= |h|
    ensures TapSum(h, x, n, j) == ConvSum(h, x, n, |h|) - ConvSum(h, x, n, |h| - j)
  {
    if j > 0 {
      TapsAreConv(h, x, n, j - 1);
    }
  }

  /** The first `n` products of two rows of numbers. */
  function Dot(a: seq<real>, i: nat, c: seq<real>, n: nat): real
    requires i + n <= |a| && n <= |c|
  {
    if n == 0 then 0.0 else Dot(a, i, c, n - 1) + a[i + n - 1] * c[n - 1]
  }

  /** A row holds the signal from sample `start` on. */
  ghost predicate Holds(row: seq<real>, x: seq<real>, start: int, n: nat) {
    n <= |row| && forall t :: 0 <= t < n ==> row[t] == Past(x, start + t)
  }

  /** The coefficients reversed, behind as many zeros as it takes. */
  ghost predicate Reversed(c: seq<real>, h: seq<real>) {
    |h| <= |c|
    && (forall t :: 0 <= t < |c| - |h| ==> c[t] == 0.0)
    && forall t :: |c| - |h| <= t < |c| ==> c[t] == h[|c| - 1 - t]
  }

  /** Leading zero coefficients add nothing: the padded row sums to the same taps. */
  lemma {:induction false} PaddedDot(h: seq<real>, x: seq<real>, row: seq<real>, start: int, i: nat, c: seq<real>,
                                     m: nat)
    requires Reversed(c, h) && m <= |c| && Holds(row, x, start, i + |c|)
    ensures var padding := |c| - |h|;
      Dot(row, i, c, m) == if m <= padding then 0.0 else TapSum(h, x, start + i + |c| - 1, m - padding)
  {
    if m > 0 {
      PaddedDot(h, x, row, start, i, c, m - 1);
      assert row[i + m - 1] == Past(x, start + (i + m - 1));
    }
  }

  /** The whole padded row is the convolution. */
  lemma PaddedIsConv(h: seq<real>, x: seq<real>, row: seq<real>, start: int, i: nat, c: seq<real>)
    requires Reversed(c, h) && Holds(row, x, start, i + |c|)
    ensures Dot(row, i, c, |c|) == Conv(h, x, start + i + |c| - 1)
  {
    PaddedDot(h, x, row, start, i, c, |c|);
    TapsAreConv(h, x, start + i + |c| - 1, |h|);
  }
}
