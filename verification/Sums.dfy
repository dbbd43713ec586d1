/** Finite sums over sequences, and how one update or one append changes them. */
module Sums {

  function Sum<T>(xs: seq<T>, g: T -> int): int {
    if |xs| == 0 then 0 else Sum(xs[..|xs| - 1], g) + g(xs[|xs| - 1])
  }

  lemma {:induction false} SumAppend<T>(xs: seq<T>, x: T, g: T -> int)
    ensures Sum(xs + [x], g) == Sum(xs, g) + g(x)
  {
    assert (xs + [x])[..|xs|] == xs;
  }

  lemma {:induction false} SumConcat<T>(xs: seq<T>, ys: seq<T>, g: T -> int)
    ensures Sum(xs + ys, g) == Sum(xs, g) + Sum(ys, g)
  {
    if |ys| == 0 {
      assert xs + ys == xs;
    } else {
      var n := |ys| - 1;
      assert (xs + ys)[..|xs| + n] == xs + ys[..n];
      SumConcat(xs, ys[..n], g);
    }
  }

  lemma {:induction false} SumUpdate<T>(xs: seq<T>, i: nat, x: T, g: T -> int)
    requires i < |xs|
    ensures Sum(xs[i := x], g) == Sum(xs, g) - g(xs[i]) + g(x)
  {
    var n := |xs| - 1;
    if i == n {
      assert xs[i := x][..n] == xs[..n];
    } else {
      assert xs[i := x][..n] == xs[..n][i := x];
      SumUpdate(xs[..n], i, x, g);
    }
  }

  lemma {:induction false} SumConstant<T>(xs: seq<T>, g: T -> int, c: int)
    requires forall x | x in xs :: g(x) == c
    ensures Sum(xs, g) == c * |xs|
  {
    if |xs| > 0 {
      SumConstant(xs[..|xs| - 1], g, c);
    }
  }

  lemma {:induction false} SumNonNegative<T>(xs: seq<T>, g: T -> int)
    requires forall x | x in xs :: 0 <= g(x)
    ensures 0 <= Sum(xs, g)
    ensures forall i | 0 <= i < |xs| :: g(xs[i]) <= Sum(xs, g)
  {
    if |xs| > 0 {
      SumNonNegative(xs[..|xs| - 1], g);
      forall i | 0 <= i < |xs|
        ensures g(xs[i]) <= Sum(xs, g)
      {
        if i < |xs| - 1 {
          assert xs[i] == xs[..|xs| - 1][i];
        }
      }
    }
  }

  /** A positive sum has a positive summand. */
  lemma {:induction false} SumPositive<T>(xs: seq<T>, g: T -> int) returns (i: nat)
    requires 0 < Sum(xs, g)
    ensures i < |xs| && 0 < g(xs[i])
  {
    var n := |xs| - 1;
    if 0 < g(xs[n]) {
      i := n;
    } else {
      i := SumPositive(xs[..n], g);
    }
  }

  /** Two different positions together weigh at most the whole sum. */
  lemma {:induction false} SumPair<T>(xs: seq<T>, i: nat, j: nat, g: T -> int)
    requires i < j < |xs|
    requires forall x | x in xs :: 0 <= g(x)
    ensures g(xs[i]) + g(xs[j]) <= Sum(xs, g)
  {
    var n := |xs| - 1;
    if j == n {
      SumNonNegative(xs[..n], g);
      assert xs[i] == xs[..n][i];
    } else {
      SumPair(xs[..n], i, j, g);
    }
  }

  /** Summands that nowhere grow and somewhere shrink make a smaller sum. */
  lemma {:induction false} SumLess<T>(xs: seq<T>, ys: seq<T>, g: T -> int, h: T -> int, i: nat)
    requires i < |xs| == |ys| && h(ys[i]) < g(xs[i])
    requires forall j: nat | j < |xs| :: h(ys[j]) <= g(xs[j])
    ensures Sum(ys, h) < Sum(xs, g)
  {
    var n := |xs| - 1;
    if i < n {
      SumLess(xs[..n], ys[..n], g, h, i);
    } else {
      SumAtMost(xs[..n], ys[..n], g, h);
    }
  }

  lemma {:induction false} SumAtMost<T>(xs: seq<T>, ys: seq<T>, g: T -> int, h: T -> int)
    requires |xs| == |ys| && forall j: nat | j < |xs| :: h(ys[j]) <= g(xs[j])
    ensures Sum(ys, h) <= Sum(xs, g)
  {
    if |xs| > 0 {
      SumAtMost(xs[..|xs| - 1], ys[..|xs| - 1], g, h);
    }
  }

  lemma {:induction false} SumBounded<T>(xs: seq<T>, g: T -> int, c: int)
    requires forall i: nat | i < |xs| :: g(xs[i]) <= c
    ensures Sum(xs, g) <= c * |xs|
  {
    if |xs| > 0 {
      SumBounded(xs[..|xs| - 1], g, c);
    }
  }
}
