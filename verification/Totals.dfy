/** Sums over the threads of a program. */
module Totals {
  function Total(xs: seq<nat>): nat {
    if xs == [] then 0 else Total(xs[..|xs| - 1]) + xs[|xs| - 1]
  }

  lemma {:induction false} TotalUpdate(xs: seq<nat>, i: nat, x: nat)
    requires i < |xs|
    ensures Total(xs[i := x]) + xs[i] == Total(xs) + x
  {
    var n := |xs| - 1;
    if i == n {
      assert xs[i := x][..n] == xs[..n];
    } else {
      assert xs[i := x][..n] == xs[..n][i := x];
      TotalUpdate(xs[..n], i, x);
    }
  }

  /** A total is at least each of its parts, and positive only if one of them is. */
  lemma {:induction false} TotalParts(xs: seq<nat>)
    ensures forall i :: 0 <= i < |xs| ==> xs[i] <= Total(xs)
    ensures Total(xs) > 0 ==> exists i :: 0 <= i < |xs| && xs[i] > 0
  {
    if xs != [] {
      var n := |xs| - 1;
      TotalParts(xs[..n]);
      assert forall i :: 0 <= i < n ==> xs[..n][i] == xs[i];
    }
  }

  lemma {:induction false} TotalZero(xs: seq<nat>)
    requires forall i :: 0 <= i < |xs| ==> xs[i] == 0
    ensures Total(xs) == 0
  {
    if xs != [] {
      TotalZero(xs[..|xs| - 1]);
    }
  }

  /** Totals compare like their parts. */
  lemma {:induction false} TotalOrder(xs: seq<nat>, ys: seq<nat>)
    requires |xs| == |ys| && forall i :: 0 <= i < |xs| ==> xs[i] <= ys[i]
    ensures Total(xs) <= Total(ys)
    ensures Total(xs) == Total(ys) ==> xs == ys
  {
    if xs != [] {
      var n := |xs| - 1;
      TotalOrder(xs[..n], ys[..n]);
      assert xs == xs[..n] + [xs[n]] && ys == ys[..n] + [ys[n]];
    }
  }

  lemma {:induction false} TotalConcat(xs: seq<nat>, ys: seq<nat>)
    ensures Total(xs + ys) == Total(xs) + Total(ys)
  {
    if ys == [] {
      assert xs + ys == xs;
    } else {
      var n := |ys| - 1;
      assert (xs + ys)[..|xs| + n] == xs + ys[..n];
      TotalConcat(xs, ys[..n]);
    }
  }

  lemma TotalInsert(xs: seq<nat>, i: nat, x: nat)
    requires i <= |xs|
    ensures Total(xs[..i] + [x] + xs[i..]) == Total(xs) + x
  {
    TotalConcat(xs[..i] + [x], xs[i..]);
    TotalConcat(xs[..i], [x]);
    TotalConcat(xs[..i], xs[i..]);
    assert xs[..i] + xs[i..] == xs && [x][..0] == [];
  }

  lemma TotalRotate(xs: seq<nat>)
    requires xs != []
    ensures Total(xs[1..] + [xs[0]]) == Total(xs)
  {
    TotalConcat(xs[1..], [xs[0]]);
    TotalConcat([xs[0]], xs[1..]);
    assert [xs[0]] + xs[1..] == xs;
  }
}
