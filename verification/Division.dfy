/** Quotients and remainders. */
module Division {

  lemma {:induction false} Remainder(n: nat, m: nat)
    requires 0 < m
    ensures 0 <= n % m <= n && n % m < m
  {
    if n < m {
    } else {
      assert n % m < m;
    }
  }

  lemma {:induction false} NextRemainder(n: nat, m: nat)
    requires 0 < m
    ensures (n + 1) % m == if n % m + 1 == m then 0 else n % m + 1
  {
    var q, r := n / m, n % m;
    assert n == m * q + r;
    if r + 1 == m {
      assert n + 1 == m * (q + 1);
      RemainderOf(n + 1, q + 1, 0, m);
    } else {
      RemainderOf(n + 1, q, r + 1, m);
    }
  }

  lemma {:induction false} RemainderOf(n: int, q: int, r: nat, m: nat)
    requires 0 < m && n == m * q + r && r < m
    ensures n / m == q && n % m == r
  {
    var q', r' := n / m, n % m;
    assert n == m * q' + r';
    if q < q' {
      MulGap(m, q, q');
    } else if q' < q {
      MulGap(m, q', q);
    }
  }

  lemma {:induction false} MulGap(m: nat, a: int, b: int)
    requires a < b
    ensures m * a + m <= m * b
  {
    var d := b - a - 1;
    assert m * d >= 0;
    assert m * (a + 1 + d) == m * a + m + m * d;
  }

  lemma {:induction false} SmallRemainder(n: nat, m: nat)
    requires 0 < m
    ensures n % m < m && (n < m ==> n % m == n)
  {
    if n < m {
      RemainderOf(n, 0, n, m);
    }
  }

  lemma {:induction false} QuotientOfMultiple(n: nat, k: nat, m: nat)
    requires 0 < m && n % m == 0
    ensures (k * n) / m == k * (n / m)
  {
    var q := n / m;
    assert n == m * q;
    assert k * n == m * (k * q);
    RemainderOf(k * n, k * q, 0, m);
  }
}
