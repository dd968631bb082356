/** Sums of a weight over a list: the arithmetic behind every conservation law. */
module Sums {

  function Total<A>(xs: seq<A>, f: A -> nat): nat {
    if xs == [] then 0 else Total(xs[..|xs| - 1], f) + f(xs[|xs| - 1])
  }

  lemma {:induction false} TotalConcat<A>(xs: seq<A>, ys: seq<A>, f: A -> nat)
    ensures Total(xs + ys, f) == Total(xs, f) + Total(ys, f)
  {
    if ys == [] {
      assert xs + ys == xs;
    } else {
      var n := |ys| - 1;
      assert (xs + ys)[..|xs + ys| - 1] == xs + ys[..n];
      TotalConcat(xs, ys[..n], f);
    }
  }

  lemma TotalSplit<A>(xs: seq<A>, i: nat, f: A -> nat)
    requires i < |xs|
    ensures Total(xs, f) == Total(xs[..i], f) + f(xs[i]) + Total(xs[i + 1..], f)
  {
    assert xs == (xs[..i] + [xs[i]]) + xs[i + 1..];
    TotalConcat(xs[..i] + [xs[i]], xs[i + 1..], f);
    TotalConcat(xs[..i], [xs[i]], f);
    assert [xs[i]][..0] == [];
  }

  lemma TotalRemove<A>(xs: seq<A>, i: nat, f: A -> nat)
    requires i < |xs|
    ensures Total(xs[..i] + xs[i + 1..], f) + f(xs[i]) == Total(xs, f)
  {
    TotalSplit(xs, i, f);
    TotalConcat(xs[..i], xs[i + 1..], f);
  }

  lemma TotalUpdate<A>(xs: seq<A>, i: nat, x: A, f: A -> nat)
    requires i < |xs|
    ensures Total(xs[i := x], f) + f(xs[i]) == Total(xs, f) + f(x)
  {
    var ys := xs[i := x];
    TotalSplit(xs, i, f);
    TotalSplit(ys, i, f);
    assert ys[..i] == xs[..i] && ys[i + 1..] == xs[i + 1..];
  }

  lemma TotalAppend<A>(xs: seq<A>, x: A, f: A -> nat)
    ensures Total(xs + [x], f) == Total(xs, f) + f(x)
  {
    assert (xs + [x])[..|xs|] == xs;
  }

  lemma TotalPrepend<A>(x: A, xs: seq<A>, f: A -> nat)
    ensures Total([x] + xs, f) == f(x) + Total(xs, f)
  {
    TotalConcat([x], xs, f);
    assert [x][..0] == [];
  }

  /** Lists that weigh the same position by position weigh the same. */
  lemma {:induction false} TotalCongruent<A>(xs: seq<A>, ys: seq<A>, f: A -> nat)
    requires |xs| == |ys|
    requires forall i :: 0 <= i < |xs| ==> f(xs[i]) == f(ys[i])
    ensures Total(xs, f) == Total(ys, f)
  {
    if xs != [] {
      TotalCongruent(xs[..|xs| - 1], ys[..|ys| - 1], f);
    }
  }

  lemma TotalAtLeast<A>(xs: seq<A>, i: nat, f: A -> nat)
    requires i < |xs|
    ensures f(xs[i]) <= Total(xs, f)
  {
    TotalSplit(xs, i, f);
  }

  lemma TotalAtLeastTwo<A>(xs: seq<A>, i: nat, j: nat, f: A -> nat)
    requires i < j < |xs|
    ensures f(xs[i]) + f(xs[j]) <= Total(xs, f)
  {
    TotalSplit(xs, j, f);
    TotalAtLeast(xs[..j], i, f);
  }

  lemma {:induction false} TotalPositive<A>(xs: seq<A>, f: A -> nat)
    requires Total(xs, f) > 0
    ensures exists i :: 0 <= i < |xs| && f(xs[i]) > 0
  {
    if f(xs[|xs| - 1]) == 0 {
      TotalPositive(xs[..|xs| - 1], f);
    }
  }

  /** How often a value occurs in a list. */
  function Count(xs: seq<nat>, x: nat): nat {
    Total(xs, Is(x))
  }

  function Is(x: nat): nat -> nat {
    (y: nat) => if y == x then 1 else 0
  }

  /** A value counted at most once stands at one position only. */
  lemma CountOnce(xs: seq<nat>, i: nat, j: nat)
    requires i < |xs| && j < |xs| && xs[i] == xs[j]
    requires Count(xs, xs[i]) <= 1
    ensures i == j
  {
    if i != j {
      TotalAtLeastTwo(xs, if i < j then i else j, if i < j then j else i, Is(xs[i]));
    }
  }
}
