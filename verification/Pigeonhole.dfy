/** More numbers than there are values: two of them are equal. */
module Pigeonhole {

  lemma Repeats(ks: seq<nat>, bound: nat) returns (i: nat, j: nat)
    requires |ks| > bound && forall x :: 0 <= x < |ks| ==> ks[x] < bound
    ensures i < j < |ks| && ks[i] == ks[j]
    decreases bound
  {
    var n := |ks| - 1;
    assert ks[n] < bound;
    var last := ks[n];
    if x: nat :| x < n && ks[x] == last {
      i, j := x, n;
    } else {
      // the largest value makes room by taking the place of the last one, which no longer occurs
      var rest := seq(n, x requires 0 <= x < n => if ks[x] == bound - 1 then last else ks[x]);
      forall x | 0 <= x < n ensures rest[x] < bound - 1 {
        assert ks[x] != last && ks[x] < bound;
      }
      i, j := Repeats(rest, bound - 1);
      assert ks[i] != last && ks[j] != last;
    }
  }
}
