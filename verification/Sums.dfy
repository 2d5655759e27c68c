/** Sums over sequences. */
module Sums {

  ghost function Sum<T(!new)>(xs: seq<T>, f: T -> int): int {
    if xs == [] then 0 else Sum(xs[..|xs| - 1], f) + f(xs[|xs| - 1])
  }

  lemma {:induction false} SumUpdate<T(!new)>(xs: seq<T>, i: nat, x: T, f: T -> int)
    requires i < |xs|
    ensures Sum(xs[i := x], f) == Sum(xs, f) - f(xs[i]) + f(x)
  {
    var k := |xs| - 1;
    if i == k {
      assert xs[i := x][..k] == xs[..k];
    } else {
      SumUpdate(xs[..k], i, x, f);
      assert xs[i := x][..k] == xs[..k][i := x];
    }
  }

  lemma SumAppend<T(!new)>(xs: seq<T>, x: T, f: T -> int)
    ensures Sum(xs + [x], f) == Sum(xs, f) + f(x)
  {
    assert (xs + [x])[..|xs|] == xs;
  }

  lemma {:induction false} SumZero<T(!new)>(xs: seq<T>, f: T -> int)
    requires forall i :: 0 <= i < |xs| ==> f(xs[i]) == 0
    ensures Sum(xs, f) == 0
  {
    if xs != [] {
      SumZero(xs[..|xs| - 1], f);
    }
  }

  lemma {:induction false} SumSame<T(!new)>(xs: seq<T>, ys: seq<T>, f: T -> int)
    requires |xs| == |ys| && forall i :: 0 <= i < |xs| ==> f(xs[i]) == f(ys[i])
    ensures Sum(xs, f) == Sum(ys, f)
  {
    if xs != [] {
      SumSame(xs[..|xs| - 1], ys[..|ys| - 1], f);
    }
  }

  // Every term of a sum of non-negative terms is at most the sum.
  lemma {:induction false} SumBounds<T(!new)>(xs: seq<T>, f: T -> int, i: nat)
    requires i < |xs| && forall k :: 0 <= k < |xs| ==> f(xs[k]) >= 0
    ensures Sum(xs, f) >= f(xs[i])
  {
    var k := |xs| - 1;
    if i < k {
      SumBounds(xs[..k], f, i);
    } else {
      SumNonNegative(xs[..k], f);
    }
  }

  lemma {:induction false} SumNonNegative<T(!new)>(xs: seq<T>, f: T -> int)
    requires forall k :: 0 <= k < |xs| ==> f(xs[k]) >= 0
    ensures Sum(xs, f) >= 0
  {
    if xs != [] {
      SumNonNegative(xs[..|xs| - 1], f);
    }
  }
}
