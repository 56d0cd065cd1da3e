/** Totals over sequences, compared position by position. */
module Sums {
  function Total(xs: seq<int>): int {
    if xs == [] then 0 else Total(xs[..|xs| - 1]) + xs[|xs| - 1]
  }

  lemma TotalAppend(xs: seq<int>, x: int)
    ensures Total(xs + [x]) == Total(xs) + x
  {
    assert (xs + [x])[..|xs + [x]| - 1] == xs;
  }

  /** One position moved by `d`: so did the total. */
  lemma {:induction false} TotalPoint(xs: seq<int>, ys: seq<int>, i: nat, d: int)
    requires |xs| == |ys| && i < |xs|
    requires ys[i] == xs[i] + d && forall k | 0 <= k < |xs| && k != i :: ys[k] == xs[k]
    ensures Total(ys) == Total(xs) + d
  {
    var n := |xs| - 1;
    if i == n {
      assert xs[..n] == ys[..n];
    } else {
      TotalPoint(xs[..n], ys[..n], i, d);
    }
  }

  lemma {:induction false} TotalMonotone(xs: seq<int>, ys: seq<int>)
    requires |xs| == |ys| && forall k | 0 <= k < |xs| :: xs[k] <= ys[k]
    ensures Total(xs) <= Total(ys)
  {
    if xs != [] {
      TotalMonotone(xs[..|xs| - 1], ys[..|ys| - 1]);
    }
  }

  lemma {:induction false} TotalAdd(xs: seq<int>, ys: seq<int>, zs: seq<int>)
    requires |xs| == |ys| == |zs| && forall k | 0 <= k < |xs| :: zs[k] == xs[k] + ys[k]
    ensures Total(zs) == Total(xs) + Total(ys)
  {
    if xs != [] {
      var n := |xs| - 1;
      TotalAdd(xs[..n], ys[..n], zs[..n]);
    }
  }

  /** No part of a total of non-negative terms exceeds it. */
  lemma {:induction false} TotalCovers(xs: seq<int>, i: nat)
    requires i < |xs| && forall k | 0 <= k < |xs| :: 0 <= xs[k]
    ensures xs[i] <= Total(xs)
  {
    var n := |xs| - 1;
    if i < n {
      TotalCovers(xs[..n], i);
    } else {
      TotalNonNegative(xs[..n]);
    }
  }

  lemma {:induction false} TotalNonNegative(xs: seq<int>)
    requires forall k | 0 <= k < |xs| :: 0 <= xs[k]
    ensures 0 <= Total(xs)
  {
    if xs != [] {
      TotalNonNegative(xs[..|xs| - 1]);
    }
  }

  lemma {:induction false} AllZero(xs: seq<int>)
    requires forall k | 0 <= k < |xs| :: xs[k] == 0
    ensures Total(xs) == 0
  {
    if xs != [] {
      AllZero(xs[..|xs| - 1]);
    }
  }
}
