/** Totals over a sequence of records, and the one fact every bookkeeping proof needs of them:
    replacing one record changes the total by exactly that record's own difference. */
module Tally {

  datatype Option<+T> = None | Some(value: T)

  /** The total of `f` over `xs`. */
  ghost function Sum<T>(xs: seq<T>, f: T -> int): int {
    if xs == [] then 0 else Sum(xs[..|xs| - 1], f) + f(xs[|xs| - 1])
  }

  /** The union, with multiplicity, of `f` over `xs`. */
  ghost function Gather<T>(xs: seq<T>, f: T -> multiset<nat>): multiset<nat> {
    if xs == [] then multiset{} else Gather(xs[..|xs| - 1], f) + f(xs[|xs| - 1])
  }

  /** Every number below `n`, once. */
  ghost function Below(n: nat): multiset<nat> {
    if n == 0 then multiset{} else Below(n - 1) + multiset{n - 1}
  }

  lemma {:induction false} SumUpdate<T>(xs: seq<T>, f: T -> int, i: nat, x: T)
    requires i < |xs|
    ensures Sum(xs[i := x], f) == Sum(xs, f) - f(xs[i]) + f(x)
  {
    var last := |xs| - 1;
    if i == last {
      assert xs[i := x][..last] == xs[..last];
    } else {
      assert xs[i := x][..last] == xs[..last][i := x];
      SumUpdate(xs[..last], f, i, x);
    }
  }

  /** Writing one place of a sequence again, or what it already holds. */
  lemma Rewritten<T>(xs: seq<T>, i: nat, x: T, y: T)
    requires i < |xs|
    ensures xs[i := x][i := y] == xs[i := y] && xs[i := xs[i]] == xs
  {
  }

  lemma Swapped<T>(xs: seq<T>, i: nat, j: nat, x: T, y: T)
    requires i < |xs| && j < |xs| && i != j
    ensures xs[i := x][j := y] == xs[j := y][i := x]
  {
  }

  lemma SumAppend<T>(xs: seq<T>, f: T -> int, x: T)
    ensures Sum(xs + [x], f) == Sum(xs, f) + f(x)
  {
    assert (xs + [x])[..|xs|] == xs;
  }

  lemma {:induction false} SumConcat<T>(a: seq<T>, b: seq<T>, f: T -> int)
    ensures Sum(a + b, f) == Sum(a, f) + Sum(b, f)
    decreases |b|
  {
    if b == [] {
      assert a + b == a;
    } else {
      assert (a + b)[..|a + b| - 1] == a + b[..|b| - 1];
      SumConcat(a, b[..|b| - 1], f);
    }
  }

  /** A total of what is nowhere below zero is at least any part of it. */
  lemma {:induction false} SumAtLeast<T>(xs: seq<T>, f: T -> int, i: nat)
    requires forall j | 0 <= j < |xs| :: f(xs[j]) >= 0
    ensures Sum(xs, f) >= 0 && (i < |xs| ==> Sum(xs, f) >= f(xs[i]))
  {
    if xs != [] {
      SumAtLeast(xs[..|xs| - 1], f, i);
    }
  }

  /** A total above zero has a part above zero. */
  lemma {:induction false} SumHas<T>(xs: seq<T>, f: T -> int) returns (i: nat)
    requires Sum(xs, f) > 0
    ensures i < |xs| && f(xs[i]) > 0
  {
    i := |xs| - 1;
    if f(xs[i]) <= 0 {
      i := SumHas(xs[..i], f);
    }
  }

  /** A total of zeroes and ones, zero from position `n` on, is at most `n`. */
  lemma {:induction false} SumOfFlags<T>(xs: seq<T>, f: T -> int, n: nat)
    requires forall i | 0 <= i < |xs| :: 0 <= f(xs[i]) <= 1
    requires forall i | n <= i < |xs| :: f(xs[i]) == 0
    ensures 0 <= Sum(xs, f) <= n
    ensures Sum(xs, f) <= |xs|
  {
    if xs != [] {
      var last := |xs| - 1;
      SumOfFlags(xs[..last], f, if n <= last then n else last);
    }
  }

  lemma {:induction false} GatherUpdate<T>(xs: seq<T>, f: T -> multiset<nat>, i: nat, x: T)
    requires i < |xs|
    ensures f(xs[i]) <= Gather(xs, f)
    ensures Gather(xs[i := x], f) == Gather(xs, f) - f(xs[i]) + f(x)
  {
    var last := |xs| - 1;
    if i == last {
      assert xs[i := x][..last] == xs[..last];
    } else {
      assert xs[i := x][..last] == xs[..last][i := x];
      GatherUpdate(xs[..last], f, i, x);
    }
  }

  lemma GatherAppend<T>(xs: seq<T>, f: T -> multiset<nat>, x: T)
    ensures Gather(xs + [x], f) == Gather(xs, f) + f(x)
  {
    assert (xs + [x])[..|xs|] == xs;
  }

  lemma {:induction false} GatherNothing<T>(xs: seq<T>, f: T -> multiset<nat>)
    requires forall i | 0 <= i < |xs| :: f(xs[i]) == multiset{}
    ensures Gather(xs, f) == multiset{}
  {
    if xs != [] {
      GatherNothing(xs[..|xs| - 1], f);
    }
  }

  lemma BelowNext(n: nat)
    ensures Below(n + 1) == Below(n) + multiset{n}
  {
  }

  lemma {:induction false} BelowIsASet(n: nat)
    ensures |Below(n)| == n
    ensures forall k: nat :: Below(n)[k] == if k < n then 1 else 0
  {
    if n > 0 {
      BelowIsASet(n - 1);
    }
  }
}
