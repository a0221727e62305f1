/** Totals of integers: tokens over the threads, dither over the samples. */
module Totals {

  /** n times m, as a repeated sum. */
  function Times(n: nat, m: int): int {
    if n == 0 then 0 else Times(n - 1, m) + m
  }

  lemma {:induction false} TimesIs(n: nat, m: int)
    ensures Times(n, m) == n * m
  {
    if n > 0 {
      TimesIs(n - 1, m);
      assert n * m == (n - 1) * m + m;
    }
  }

  /** One batch of tokens more. */
  lemma {:induction false} TimesOne(n: nat, m: int)
    ensures Times(n, m + 1) == Times(n, m) + n && Times(n, 0) == 0
  {
    if n > 0 {
      TimesOne(n - 1, m);
    }
  }

  lemma {:induction false} TimesAtMost(n: nat, a: int, b: int)
    requires a <= b
    ensures Times(n, a) <= Times(n, b) && (0 < n && a < b ==> Times(n, a) < Times(n, b))
  {
    if n > 0 {
      TimesAtMost(n - 1, a, b);
    }
  }

  function Total(xs: seq<int>): int {
    if |xs| == 0 then 0 else Total(xs[..|xs| - 1]) + xs[|xs| - 1]
  }

  lemma {:induction false} TotalUpdate(xs: seq<int>, i: nat, v: int)
    requires i < |xs|
    ensures Total(xs[i := v]) == Total(xs) - xs[i] + v
  {
    var n := |xs| - 1;
    if i == n {
      assert xs[i := v][..n] == xs[..n];
    } else {
      TotalUpdate(xs[..n], i, v);
      assert xs[i := v][..n] == xs[..n][i := v];
    }
  }

  /** n values of at most m. */
  lemma {:induction false} TotalAtMost(xs: seq<int>, m: int)
    requires forall i :: 0 <= i < |xs| ==> xs[i] <= m
    ensures Total(xs) <= Times(|xs|, m)
  {
    var n := |xs| - 1;
    if 0 <= n {
      TotalAtMost(xs[..n], m);
    }
  }

  /** n values of at most m that reach n * m in sum are all m. */
  lemma {:induction false} TotalReached(xs: seq<int>, m: int, k: nat)
    requires forall i :: 0 <= i < |xs| ==> xs[i] <= m
    requires Total(xs) >= Times(|xs|, m) && k < |xs|
    ensures xs[k] == m
  {
    var ys := xs[k := m];
    TotalUpdate(xs, k, m);
    TotalAtMost(ys, m);
  }

  /** The same when entry j does not count. */
  lemma {:induction false} TotalReachedBut(xs: seq<int>, j: nat, m: int, k: nat)
    requires j < |xs| && xs[j] == 0 && k < |xs| && k != j
    requires forall i :: 0 <= i < |xs| && i != j ==> xs[i] <= m
    requires Total(xs) >= Times(|xs| - 1, m)
    ensures xs[k] == m
  {
    var ys := xs[j := m];
    TotalUpdate(xs, j, m);
    TotalReached(ys, m, k);
  }

  /** n values of at least m. */
  lemma {:induction false} TotalAtLeast(xs: seq<int>, m: int)
    requires forall i :: 0 <= i < |xs| ==> m <= xs[i]
    ensures Times(|xs|, m) <= Total(xs)
  {
    var n := |xs| - 1;
    if 0 <= n {
      TotalAtLeast(xs[..n], m);
    }
  }

  /** Some value is below m when the sum is below n * m. */
  lemma {:induction false} TotalBelow(xs: seq<int>, m: int) returns (k: nat)
    requires Total(xs) < Times(|xs|, m)
    ensures k < |xs| && xs[k] < m
  {
    if forall i :: 0 <= i < |xs| ==> m <= xs[i] {
      TotalAtLeast(xs, m);
    }
    k :| k < |xs| && xs[k] < m;
  }

  lemma {:induction false} TotalBelowBut(xs: seq<int>, j: nat, m: int) returns (k: nat)
    requires j < |xs| && xs[j] == 0 && Total(xs) < Times(|xs| - 1, m)
    ensures k < |xs| && k != j && xs[k] < m
  {
    var ys := xs[j := m];
    TotalUpdate(xs, j, m);
    k := TotalBelow(ys, m);
  }

  lemma {:induction false} TotalZero(xs: seq<int>)
    requires forall i :: 0 <= i < |xs| ==> xs[i] == 0
    ensures Total(xs) == 0
  {
    if 0 < |xs| {
      TotalZero(xs[..|xs| - 1]);
    }
  }
}
