/** Finite sums and first-match searches over sequences, parameterised by the summand or the test. */
module Sums {
  import opened Amounts

  function Sum<T>(xs: seq<T>, f: T -> nat): nat {
    if |xs| == 0 then 0 else Sum(xs[..|xs| - 1], f) + f(xs[|xs| - 1])
  }

  lemma {:induction false} SumAppend<T>(xs: seq<T>, x: T, f: T -> nat)
    ensures Sum(xs + [x], f) == Sum(xs, f) + f(x)
  {
    assert (xs + [x])[..|xs|] == xs;
  }

  lemma {:induction false} SumPrefix<T>(xs: seq<T>, n: nat, f: T -> nat)
    requires n < |xs|
    ensures Sum(xs[..n + 1], f) == Sum(xs[..n], f) + f(xs[n])
  {
    assert xs[..n + 1][..n] == xs[..n];
  }

  lemma {:induction false} SumConcat<T>(xs: seq<T>, ys: seq<T>, f: T -> nat)
    ensures Sum(xs + ys, f) == Sum(xs, f) + Sum(ys, f)
    decreases |ys|
  {
    if |ys| == 0 {
      assert xs + ys == xs;
    } else {
      var n := |ys| - 1;
      assert xs + ys == (xs + ys[..n]) + [ys[n]];
      SumConcat(xs, ys[..n], f);
      SumAppend(xs + ys[..n], ys[n], f);
    }
  }

  lemma {:induction false} SumHead<T>(xs: seq<T>, f: T -> nat)
    requires |xs| > 0
    ensures Sum(xs, f) == f(xs[0]) + Sum(xs[1..], f)
  {
    assert xs == [xs[0]] + xs[1..];
    SumConcat([xs[0]], xs[1..], f);
    assert [xs[0]] == [] + [xs[0]];
    SumAppend([], xs[0], f);
  }

  /** Replacing one element moves the sum by the difference of its two summands. */
  lemma {:induction false} SumUpdate<T>(xs: seq<T>, i: nat, x: T, f: T -> nat)
    requires i < |xs|
    ensures Sum(xs[i := x], f) + f(xs[i]) == Sum(xs, f) + f(x)
    decreases |xs|
  {
    var n := |xs| - 1;
    if i == n {
      assert xs[i := x][..n] == xs[..n];
    } else {
      assert xs[i := x][..n] == xs[..n][i := x];
      SumUpdate(xs[..n], i, x, f);
    }
  }

  lemma {:induction false} SumPointwise<S, T>(xs: seq<S>, ys: seq<T>, f: S -> nat, g: T -> nat)
    requires |xs| == |ys|
    requires forall i | 0 <= i < |xs| :: f(xs[i]) <= g(ys[i])
    ensures Sum(xs, f) <= Sum(ys, g)
    decreases |xs|
  {
    if |xs| > 0 {
      var n := |xs| - 1;
      forall i | 0 <= i < n
        ensures f(xs[..n][i]) <= g(ys[..n][i])
      {
        assert xs[..n][i] == xs[i] && ys[..n][i] == ys[i];
      }
      SumPointwise(xs[..n], ys[..n], f, g);
    }
  }

  lemma {:induction false} SumEqual<S, T>(xs: seq<S>, ys: seq<T>, f: S -> nat, g: T -> nat)
    requires |xs| == |ys|
    requires forall i | 0 <= i < |xs| :: f(xs[i]) == g(ys[i])
    ensures Sum(xs, f) == Sum(ys, g)
  {
    SumPointwise(xs, ys, f, g);
    SumPointwise(ys, xs, g, f);
  }

  lemma {:induction false} SumZero<T>(xs: seq<T>, f: T -> nat)
    requires forall i | 0 <= i < |xs| :: f(xs[i]) == 0
    ensures Sum(xs, f) == 0
    decreases |xs|
  {
    if |xs| > 0 {
      var n := |xs| - 1;
      forall i | 0 <= i < n
        ensures f(xs[..n][i]) == 0
      {
        assert xs[..n][i] == xs[i];
      }
      SumZero(xs[..n], f);
    }
  }

  /** Every summand, and every prefix, is bounded by the whole sum. */
  lemma {:induction false} SumCovers<T>(xs: seq<T>, i: nat, f: T -> nat)
    requires i < |xs|
    ensures f(xs[i]) <= Sum(xs, f)
    decreases |xs|
  {
    var n := |xs| - 1;
    if i < n {
      assert xs[..n][i] == xs[i];
      SumCovers(xs[..n], i, f);
    }
  }

  lemma {:induction false} SumPrefixCovered<T>(xs: seq<T>, n: nat, f: T -> nat)
    requires n <= |xs|
    ensures Sum(xs[..n], f) <= Sum(xs, f)
  {
    assert xs == xs[..n] + xs[n..];
    SumConcat(xs[..n], xs[n..], f);
  }

  lemma {:induction false} SumScaled<T>(xs: seq<T>, f: T -> nat, g: T -> nat, c: nat)
    requires forall i | 0 <= i < |xs| :: f(xs[i]) <= c * g(xs[i])
    ensures Sum(xs, f) <= c * Sum(xs, g)
    decreases |xs|
  {
    if |xs| > 0 {
      var n := |xs| - 1;
      forall i | 0 <= i < n
        ensures f(xs[..n][i]) <= c * g(xs[..n][i])
      {
        assert xs[..n][i] == xs[i];
      }
      SumScaled(xs[..n], f, g, c);
      assert c * (Sum(xs[..n], g) + g(xs[n])) == c * Sum(xs[..n], g) + c * g(xs[n]);
    }
  }

  /** A sum of summands bounded by c is at most c times the length. */
  lemma {:induction false} SumBounded<T>(xs: seq<T>, f: T -> nat, c: nat)
    requires forall i | 0 <= i < |xs| :: f(xs[i]) <= c
    ensures Sum(xs, f) <= c * |xs|
    decreases |xs|
  {
    if |xs| > 0 {
      var n := |xs| - 1;
      forall i | 0 <= i < n
        ensures f(xs[..n][i]) <= c
      {
        assert xs[..n][i] == xs[i];
      }
      SumBounded(xs[..n], f, c);
      assert c * (n + 1) == c * n + c;
    }
  }

  /** Pointwise below with equal sums is pointwise equal. */
  lemma {:induction false} SumTight<S, T>(xs: seq<S>, ys: seq<T>, f: S -> nat, g: T -> nat, i: nat)
    requires i < |xs| == |ys| && forall j | 0 <= j < |xs| :: f(xs[j]) <= g(ys[j])
    requires Sum(xs, f) == Sum(ys, g)
    ensures f(xs[i]) == g(ys[i])
    decreases |xs|
  {
    var n := |xs| - 1;
    forall j | 0 <= j < n
      ensures f(xs[..n][j]) <= g(ys[..n][j])
    {
      assert xs[..n][j] == xs[j] && ys[..n][j] == ys[j];
    }
    SumPointwise(xs[..n], ys[..n], f, g);
    if i < n {
      SumTight(xs[..n], ys[..n], f, g, i);
      assert xs[..n][i] == xs[i] && ys[..n][i] == ys[i];
    }
  }

  /** Position of the first element that passes the test. */
  function IndexOf<T>(xs: seq<T>, p: T -> bool): (r: Option<nat>)
    ensures r.Some? ==> r.value < |xs| && p(xs[r.value]) && forall j | 0 <= j < r.value :: !p(xs[j])
    ensures r.None? ==> forall j | 0 <= j < |xs| :: !p(xs[j])
  {
    if |xs| == 0 then None
    else
      var r := IndexOf(xs[..|xs| - 1], p);
      if r.Some? then r
      else if p(xs[|xs| - 1]) then Some(|xs| - 1)
      else None
  }
}
