/** Finite sums of reals, with the reindexing laws that the convolution proofs use. */
module Sums {

  /** f(0) + f(1) + ... + f(n-1) */
  function Sum(n: nat, f: int -> real): real {
    if n == 0 then 0.0 else Sum(n - 1, f) + f(n - 1)
  }

  lemma {:induction false} SumEq(n: nat, f: int -> real, g: int -> real)
    requires forall i :: 0 <= i < n ==> f(i) == g(i)
    ensures Sum(n, f) == Sum(n, g)
  {
    if n != 0 {
      SumEq(n - 1, f, g);
    }
  }

  lemma {:induction false} SumZero(n: nat, f: int -> real)
    requires forall i :: 0 <= i < n ==> f(i) == 0.0
    ensures Sum(n, f) == 0.0
  {
    if n != 0 {
      SumZero(n - 1, f);
    }
  }

  lemma {:induction false} SumAdd(n: nat, f: int -> real, g: int -> real, h: int -> real)
    requires forall i :: 0 <= i < n ==> h(i) == f(i) + g(i)
    ensures Sum(n, h) == Sum(n, f) + Sum(n, g)
  {
    if n != 0 {
      SumAdd(n - 1, f, g, h);
    }
  }

  lemma {:induction false} SumScale(n: nat, a: real, f: int -> real, g: int -> real)
    requires forall i :: 0 <= i < n ==> g(i) == a * f(i)
    ensures Sum(n, g) == a * Sum(n, f)
  {
    if n != 0 {
      SumScale(n - 1, a, f, g);
    }
  }

  lemma {:induction false} SumCombine(n: nat, a: real, f: int -> real, b: real, g: int -> real, h: int -> real)
    requires forall i :: 0 <= i < n ==> h(i) == a * f(i) + b * g(i)
    ensures Sum(n, h) == a * Sum(n, f) + b * Sum(n, g)
  {
    if n != 0 {
      SumCombine(n - 1, a, f, b, g, h);
      CombineStep(a, Sum(n - 1, f), f(n - 1), b, Sum(n - 1, g), g(n - 1));
    }
  }

  lemma {:induction false} CombineStep(a: real, s: real, x: real, b: real, t: real, y: real)
    ensures a * (s + x) + b * (t + y) == (a * s + b * t) + (a * x + b * y)
  {
  }

  /** The first m terms, then the remaining n terms through the shifted function g. */
  lemma {:induction false} SumSplit(m: nat, n: nat, f: int -> real, g: int -> real)
    requires forall i :: 0 <= i < n ==> g(i) == f(m + i)
    ensures Sum(m + n, f) == Sum(m, f) + Sum(n, g)
  {
    if n != 0 {
      SumSplit(m, n - 1, f, g);
    }
  }

  /** A sum of rows * len terms, taken row by row. */
  lemma {:induction false} SumRows(rows: nat, len: nat, f: int -> real, row: int -> real, cell: (int, int) -> real)
    requires forall r, k :: 0 <= r < rows && 0 <= k < len ==> cell(r, k) == f(r * len + k)
    requires forall r :: 0 <= r < rows ==> row(r) == Sum(len, k => cell(r, k))
    ensures Sum(rows * len, f) == Sum(rows, row)
  {
    if rows != 0 {
      var g := k => cell(rows - 1, k);
      assert (rows - 1) * len + len == rows * len;
      SumSplit((rows - 1) * len, len, f, g);
      SumRows(rows - 1, len, f, row, cell);
      SumEq(len, g, k => cell(rows - 1, k));
    }
  }

  /** Exchange of the order of summation. */
  lemma {:induction false} SumSwap(n: nat, m: nat, cell: (int, int) -> real, row: int -> real, col: int -> real)
    requires forall i :: 0 <= i < n ==> row(i) == Sum(m, j => cell(i, j))
    requires forall j :: 0 <= j < m ==> col(j) == Sum(n, i => cell(i, j))
    ensures Sum(n, row) == Sum(m, col)
  {
    if n == 0 {
      SumZero(m, col);
    } else {
      var colRest := j => Sum(n - 1, i => cell(i, j));
      SumSwap(n - 1, m, cell, row, colRest);
      var last := j => cell(n - 1, j);
      SumEq(m, last, j => cell(n - 1, j));
      forall j | 0 <= j < m
        ensures col(j) == colRest(j) + last(j)
      {
        SumEq(n, i => cell(i, j), i => cell(i, j));
      }
      SumAdd(m, colRest, last, col);
    }
  }

  /** Two halves exchanged: g is f read from position s on, then from the start. */
  lemma {:induction false} SumRotate(n: nat, s: nat, f: int -> real, g: int -> real, head: int -> real,
                                     tail: int -> real)
    requires s <= n
    requires forall i :: 0 <= i < n - s ==> head(i) == f(s + i) && g(i) == head(i)
    requires forall i :: 0 <= i < s ==> tail(i) == g(n - s + i) && tail(i) == f(i)
    ensures Sum(n, g) == Sum(n, f)
  {
    SumSplit(n - s, s, g, tail);
    SumEq(n - s, g, head);
    SumEq(s, tail, f);
    SumSplit(s, n - s, f, head);
  }

  /** All terms but one are zero. */
  lemma {:induction false} SumSingle(n: nat, f: int -> real, p: nat)
    requires p < n && forall i :: 0 <= i < n && i != p ==> f(i) == 0.0
    ensures Sum(n, f) == f(p)
  {
    if p == n - 1 {
      SumZero(n - 1, f);
    } else {
      SumSingle(n - 1, f, p);
    }
  }
}
