/** Interleaved buffers: the samples of one channel stand `spacing` apart. */
module Stride {

  /** Index of sample k of a channel that starts at `at`: k strides on, or back. */
  function Pos(at: int, spacing: int, k: int): int
    decreases if k < 0 then -k else k
  {
    if k == 0 then at else if k > 0 then Pos(at, spacing, k - 1) + spacing else Pos(at, spacing, k + 1) - spacing
  }

  lemma {:induction false} PosStep(at: int, spacing: int, k: int)
    ensures Pos(at, spacing, k + 1) == Pos(at, spacing, k) + spacing
    ensures Pos(at, spacing, 0) == at
  {
  }

  /** As one multiplication. */
  lemma {:induction false} PosIs(at: int, spacing: int, k: int)
    ensures Pos(at, spacing, k) == at + k * spacing
    decreases if k < 0 then -k else k
  {
    if k > 0 {
      PosIs(at, spacing, k - 1);
      assert k * spacing == (k - 1) * spacing + spacing;
    } else if k < 0 {
      PosIs(at, spacing, k + 1);
      assert k * spacing == (k + 1) * spacing - spacing;
    }
  }

  lemma {:induction false} PosBelow(at: int, spacing: int, j: int, k: int)
    requires 0 < spacing && j < k
    ensures Pos(at, spacing, j) + spacing <= Pos(at, spacing, k)
    decreases k - j
  {
    PosStep(at, spacing, k - 1);
    if j < k - 1 {
      PosBelow(at, spacing, j, k - 1);
    }
  }

  lemma {:induction false} PosShift(at: int, spacing: int, j: int, k: int)
    ensures Pos(Pos(at, spacing, j), spacing, k) == Pos(at, spacing, j + k)
    decreases if k < 0 then -k else k
  {
    if k > 0 {
      PosShift(at, spacing, j, k - 1);
      PosStep(at, spacing, j + k - 1);
    } else if k < 0 {
      PosShift(at, spacing, j, k + 1);
      PosStep(at, spacing, j + k);
    }
  }

  lemma {:induction false} PosFrom(at: int, spacing: int, k: int)
    requires 0 < spacing && 0 <= k
    ensures at <= Pos(at, spacing, k)
  {
    if k > 0 {
      PosBelow(at, spacing, 0, k);
    }
  }

  lemma {:induction false} PosDistinct(at: int, spacing: int, j: int, k: int)
    requires 0 < spacing && j != k
    ensures Pos(at, spacing, j) != Pos(at, spacing, k)
  {
    if j < k {
      PosBelow(at, spacing, j, k);
    } else {
      PosBelow(at, spacing, k, j);
    }
  }

  /** n samples of a channel fit in a buffer of the given length. */
  ghost predicate Fits(length: int, at: int, spacing: int, n: int) {
    0 <= at && 0 < spacing && 0 <= n && (n > 0 ==> Pos(at, spacing, n - 1) < length)
  }

  lemma {:induction false} FitsAt(length: int, at: int, spacing: int, n: int, k: int)
    requires Fits(length, at, spacing, n) && 0 <= k < n
    ensures 0 <= at <= Pos(at, spacing, k) < length
  {
    PosFrom(at, spacing, k);
    if k < n - 1 {
      PosBelow(at, spacing, k, n - 1);
    }
  }

  /** x holds the values vs from `at` on. */
  ghost predicate Holds<T>(x: seq<T>, at: int, spacing: int, vs: seq<T>)
    requires Fits(|x|, at, spacing, |vs|)
  {
    forall k {:trigger Pos(at, spacing, k)} :: 0 <= k < |vs| ==>
      0 <= Pos(at, spacing, k) < |x| && x[Pos(at, spacing, k)] == vs[k]
  }

  ghost predicate OnStride(p: int, at: int, spacing: int, n: int) {
    exists k {:trigger Pos(at, spacing, k)} :: 0 <= k < n && p == Pos(at, spacing, k)
  }

  /** y is x with vs written from `at` on; every other entry is as it was. */
  ghost predicate Scattered<T>(y: seq<T>, x: seq<T>, at: int, spacing: int, vs: seq<T>)
  {
    && |y| == |x| && Fits(|x|, at, spacing, |vs|) && Holds(y, at, spacing, vs)
    && forall p :: 0 <= p < |x| && !OnStride(p, at, spacing, |vs|) ==> y[p] == x[p]
  }

  lemma {:induction false} OnStrideAt(at: int, spacing: int, n: int, k: int)
    requires 0 <= k < n
    ensures OnStride(Pos(at, spacing, k), at, spacing, n)
  {
  }

  lemma {:induction false} OnStrideMore(p: int, at: int, spacing: int, n: int)
    ensures OnStride(p, at, spacing, n) ==> OnStride(p, at, spacing, n + 1)
  {
    if k :| 0 <= k < n && p == Pos(at, spacing, k) {
      OnStrideAt(at, spacing, n + 1, k);
    }
  }

  /** Writing one more value. */
  lemma {:induction false} ScatterOne<T>(y: seq<T>, x: seq<T>, at: int, spacing: int, vs: seq<T>, v: T, z: seq<T>)
    requires Scattered(y, x, at, spacing, vs) && Fits(|x|, at, spacing, |vs| + 1)
    requires 0 <= Pos(at, spacing, |vs|) < |x| && z == y[Pos(at, spacing, |vs|) := v]
    ensures Scattered(z, x, at, spacing, vs + [v])
  {
    var n := |vs|;
    forall k | 0 <= k < n + 1
      ensures 0 <= Pos(at, spacing, k) < |x| && z[Pos(at, spacing, k)] == (vs + [v])[k]
    {
      if k < n {
        PosDistinct(at, spacing, k, n);
        assert y[Pos(at, spacing, k)] == vs[k];
      }
    }
    forall p | 0 <= p < |x| && !OnStride(p, at, spacing, n + 1)
      ensures z[p] == x[p]
    {
      OnStrideAt(at, spacing, n + 1, n);
      OnStrideMore(p, at, spacing, n);
    }
  }

  lemma {:induction false} OnStrideSplit(p: int, at: int, spacing: int, m: nat, n: nat)
    ensures OnStride(p, at, spacing, m + n)
         <==> OnStride(p, at, spacing, m) || OnStride(p, Pos(at, spacing, m), spacing, n)
  {
    if OnStride(p, at, spacing, m + n) {
      var k :| 0 <= k < m + n && p == Pos(at, spacing, k);
      if k < m {
        OnStrideAt(at, spacing, m, k);
      } else {
        PosShift(at, spacing, m, k - m);
        OnStrideAt(Pos(at, spacing, m), spacing, n, k - m);
      }
    }
    if OnStride(p, at, spacing, m) {
      var k :| 0 <= k < m && p == Pos(at, spacing, k);
      OnStrideAt(at, spacing, m + n, k);
    }
    if OnStride(p, Pos(at, spacing, m), spacing, n) {
      var k :| 0 <= k < n && p == Pos(Pos(at, spacing, m), spacing, k);
      PosShift(at, spacing, m, k);
      OnStrideAt(at, spacing, m + n, m + k);
    }
  }

  /** Two adjacent stretches written one after the other. */
  lemma {:induction false} ScatterTwo<T>(z: seq<T>, y: seq<T>, x: seq<T>, at: int, spacing: int, us: seq<T>, vs: seq<T>)
    requires Scattered(y, x, at, spacing, us) && Scattered(z, y, Pos(at, spacing, |us|), spacing, vs)
    requires Fits(|x|, at, spacing, |us| + |vs|)
    ensures Scattered(z, x, at, spacing, us + vs)
  {
    var m, n := |us|, |vs|;
    forall k | 0 <= k < m + n
      ensures 0 <= Pos(at, spacing, k) < |x| && z[Pos(at, spacing, k)] == (us + vs)[k]
    {
      FitsAt(|x|, at, spacing, m + n, k);
      if k < m {
        NotLater(at, spacing, m, n, k);
        assert y[Pos(at, spacing, k)] == us[k];
      } else {
        PosShift(at, spacing, m, k - m);
        assert z[Pos(Pos(at, spacing, m), spacing, k - m)] == vs[k - m];
      }
    }
    forall p | 0 <= p < |x| && !OnStride(p, at, spacing, m + n)
      ensures z[p] == x[p]
    {
      OnStrideSplit(p, at, spacing, m, n);
    }
  }

  lemma {:induction false} NotLater(at: int, spacing: int, m: nat, n: nat, k: nat)
    requires 0 < spacing && k < m
    ensures !OnStride(Pos(at, spacing, k), Pos(at, spacing, m), spacing, n)
  {
    if OnStride(Pos(at, spacing, k), Pos(at, spacing, m), spacing, n) {
      var j :| 0 <= j < n && Pos(at, spacing, k) == Pos(Pos(at, spacing, m), spacing, j);
      PosShift(at, spacing, m, j);
      PosBelow(at, spacing, k, m + j);
    }
  }

  /** The samples of a channel. */
  ghost function Gather<T>(x: seq<T>, at: int, spacing: int, n: nat): (vs: seq<T>)
    requires Fits(|x|, at, spacing, n)
    ensures |vs| == n && Holds(x, at, spacing, vs)
  {
    if n == 0 then []
    else
      FitsAt(|x|, at, spacing, n, n - 1);
      FitsLess(|x|, at, spacing, n, n - 1);
      Gather(x, at, spacing, n - 1) + [x[Pos(at, spacing, n - 1)]]
  }

  lemma {:induction false} FitsLess(length: int, at: int, spacing: int, n: int, m: int)
    requires Fits(length, at, spacing, n) && 0 <= m <= n
    ensures Fits(length, at, spacing, m)
  {
    if 0 < m {
      FitsAt(length, at, spacing, n, m - 1);
    }
  }

  lemma {:induction false} FitsTail(length: int, at: int, spacing: int, n: int, m: int)
    requires Fits(length, at, spacing, n) && 0 <= m <= n
    ensures Fits(length, Pos(at, spacing, m), spacing, n - m)
  {
    if m < n {
      PosShift(at, spacing, m, n - m - 1);
      FitsAt(length, at, spacing, n, m);
    } else {
      PosFrom(at, spacing, m);
    }
  }

  /** What a buffer holds determines what is gathered from it. */
  lemma {:induction false} GatherIs<T>(x: seq<T>, at: int, spacing: int, vs: seq<T>)
    requires Fits(|x|, at, spacing, |vs|) && Holds(x, at, spacing, vs)
    ensures Gather(x, at, spacing, |vs|) == vs
  {
    var us := Gather(x, at, spacing, |vs|);
    forall k | 0 <= k < |vs|
      ensures us[k] == vs[k]
    {
      assert us[k] == x[Pos(at, spacing, k)];
    }
  }

  // ----- copying -----

  /** Samples of a channel into a delay buffer. */
  method CopyTo(dbuf: array<int>, buf: array<int>, at: nat, spacing: nat, n: nat)
    requires buf != dbuf && n <= dbuf.Length && Fits(buf.Length, at, spacing, n)
    modifies dbuf
    ensures dbuf[..] == Gather(buf[..], at, spacing, n) + old(dbuf[n..])
  {
    ghost var vs := Gather(buf[..], at, spacing, n);
    ghost var d := dbuf[..];
    PosStep(at, spacing, 0);
    var k, i := 0, at;
    while k < n
      invariant 0 <= k <= n && i == Pos(at, spacing, k)
      invariant forall j :: 0 <= j < k ==> dbuf[j] == vs[j]
      invariant forall j :: k <= j < dbuf.Length ==> dbuf[j] == d[j]
    {
      FitsAt(buf.Length, at, spacing, n, k);
      PosStep(at, spacing, k);
      assert buf[..][Pos(at, spacing, k)] == vs[k];
      dbuf[k] := buf[i];
      k, i := k + 1, i + spacing;
    }
  }

  /** Samples of a delay buffer into a channel. */
  method CopyFrom(buf: array<int>, at: nat, dbuf: array<int>, spacing: nat, n: nat)
    requires buf != dbuf && n <= dbuf.Length && Fits(buf.Length, at, spacing, n)
    modifies buf
    ensures Scattered(buf[..], old(buf[..]), at, spacing, dbuf[..n])
  {
    ghost var x := buf[..];
    ghost var vs := dbuf[..];
    PosStep(at, spacing, 0);
    var k, i := 0, at;
    while k < n
      invariant 0 <= k <= n && i == Pos(at, spacing, k)
      invariant Scattered(buf[..], x, at, spacing, vs[..k])
    {
      FitsAt(buf.Length, at, spacing, n, k);
      FitsLess(buf.Length, at, spacing, n, k + 1);
      PosStep(at, spacing, k);
      ghost var y := buf[..];
      buf[i] := dbuf[k];
      ScatterOne(y, x, at, spacing, vs[..k], vs[k], buf[..]);
      assert vs[..k + 1] == vs[..k] + [vs[k]];
      k, i := k + 1, i + spacing;
    }
  }

  // ----- shifting in place -----

  lemma {:induction false} OnStrideFront(p: int, at: int, spacing: int, n: nat)
    ensures OnStride(p, at, spacing, n + 1) <==> p == at || OnStride(p, at + spacing, spacing, n)
  {
    PosStep(at, spacing, 0);
    OnStrideSplit(p, at, spacing, 1, n);
    assert Pos(at, spacing, 1) == at + spacing;
    if p == at {
      OnStrideAt(at, spacing, 1, 0);
    }
  }

  /** One value written in front of a stretch. */
  lemma {:induction false} ScatterFront<T>(y: seq<T>, x: seq<T>, at: int, spacing: int, vs: seq<T>, v: T, z: seq<T>)
    requires Scattered(y, x, at + spacing, spacing, vs) && Fits(|x|, at, spacing, |vs| + 1)
    requires 0 <= at < |x| && z == y[at := v]
    ensures Scattered(z, x, at, spacing, [v] + vs)
  {
    var n := |vs|;
    forall k | 0 <= k < n + 1
      ensures 0 <= Pos(at, spacing, k) < |x| && z[Pos(at, spacing, k)] == ([v] + vs)[k]
    {
      if k > 0 {
        FrontPos(at, spacing, k);
        assert y[Pos(at + spacing, spacing, k - 1)] == vs[k - 1];
      } else {
        PosStep(at, spacing, 0);
      }
    }
    forall p | 0 <= p < |x| && !OnStride(p, at, spacing, n + 1)
      ensures z[p] == x[p]
    {
      OnStrideFront(p, at, spacing, n);
    }
  }

  lemma {:induction false} FrontPos(at: int, spacing: int, k: int)
    requires 0 < spacing && 0 < k
    ensures Pos(at, spacing, k) == Pos(at + spacing, spacing, k - 1) > at
  {
    PosShift(at, spacing, 1, k - 1);
    PosStep(at, spacing, 0);
    PosBelow(at, spacing, 0, k);
  }

  lemma {:induction false} AtLeastOne(at: int, spacing: int, j: int)
    requires 0 < spacing && Pos(at, spacing, j - 1) >= at
    ensures j >= 1
  {
    if j < 1 {
      PosBelow(at, spacing, j - 1, 0);
      PosStep(at, spacing, 0);
    }
  }

  lemma {:induction false} NoneLeft(at: int, spacing: int, j: int)
    requires 0 < spacing && 0 <= j && Pos(at, spacing, j - 1) < at
    ensures j == 0
  {
    if j > 0 {
      PosFrom(at, spacing, j - 1);
    }
  }

  /** Sample j is still in place while samples j + 1 and later have been moved. */
  lemma {:induction false} ShiftReads<T>(y: seq<T>, x: seq<T>, at: int, spacing: int, n: nat, distance: nat, j: nat)
    requires Fits(|x|, at, spacing, n) && j < n
    requires Scattered(y, x, Pos(Pos(at, spacing, distance), spacing, j + 1), spacing,
                       Gather(x, at, spacing, n)[j + 1..])
    ensures 0 <= Pos(at, spacing, j) < |x| && y[Pos(at, spacing, j)] == Gather(x, at, spacing, n)[j]
  {
    FitsAt(|x|, at, spacing, n, j);
    PosShift(at, spacing, distance, j + 1);
    NotLater(at, spacing, distance + j + 1, n - j - 1, j);
    assert Gather(x, at, spacing, n)[j] == x[Pos(at, spacing, j)];
  }

  /** Sample j to its place, the later ones being in theirs. */
  method ShiftOne(buf: array<int>, at: nat, spacing: nat, n: nat, distance: nat, src: nat, dst: nat, ghost j: nat,
                  ghost x: seq<int>)
    requires Fits(|x|, at, spacing, n + distance) && Fits(|x|, at, spacing, n) && j < n
    requires src == Pos(at, spacing, j) && dst == Pos(at, spacing, j + distance)
    requires Scattered(buf[..], x, Pos(Pos(at, spacing, distance), spacing, j + 1), spacing,
                       Gather(x, at, spacing, n)[j + 1..])
    modifies buf
    ensures Scattered(buf[..], x, Pos(Pos(at, spacing, distance), spacing, j), spacing, Gather(x, at, spacing, n)[j..])
  {
    ghost var y, vs, to := buf[..], Gather(x, at, spacing, n), Pos(at, spacing, distance);
    ShiftReads(y, x, at, spacing, n, distance, j);
    FitsAt(|x|, at, spacing, n + distance, j + distance);
    FitsTail(|x|, at, spacing, n + distance, distance);
    FitsTail(|x|, to, spacing, n, j);
    PosShift(at, spacing, distance, j);
    PosStep(to, spacing, j);
    buf[dst] := buf[src];
    ScatterFront(y, x, Pos(to, spacing, j), spacing, vs[j + 1..], vs[j], buf[..]);
    assert vs[j..] == [vs[j]] + vs[j + 1..];
  }

  method ShiftNext(buf: array<int>, at: nat, spacing: nat, n: nat, distance: nat, src: int, dst: int, ghost j: nat,
                   ghost x: seq<int>)
    requires Fits(|x|, at, spacing, n + distance) && Fits(|x|, at, spacing, n) && buf.Length == |x| && j <= n
    requires at <= src == Pos(at, spacing, j - 1) && dst == Pos(at, spacing, j + distance - 1)
    requires Scattered(buf[..], x, Pos(Pos(at, spacing, distance), spacing, j), spacing, Gather(x, at, spacing, n)[j..])
    modifies buf
    ensures 1 <= j && Scattered(buf[..], x, Pos(Pos(at, spacing, distance), spacing, j - 1), spacing,
                                Gather(x, at, spacing, n)[j - 1..])
    ensures src - spacing == Pos(at, spacing, j - 2) && dst - spacing == Pos(at, spacing, j + distance - 2)
  {
    PosStep(at, spacing, j - 2);
    PosStep(at, spacing, j + distance - 2);
    AtLeastOne(at, spacing, j);
    FitsAt(buf.Length, at, spacing, n + distance, j + distance - 1);
    ShiftOne(buf, at, spacing, n, distance, src, dst, j - 1, x);
  }

  /** Moves n samples of a channel `distance` places on, last one first, within the same buffer. */
  method ShiftSamples(buf: array<int>, at: nat, spacing: nat, n: nat, distance: nat)
    requires Fits(buf.Length, at, spacing, n + distance)
    modifies buf
    ensures Fits(buf.Length, at, spacing, n)
    ensures Scattered(buf[..], old(buf[..]), Pos(at, spacing, distance), spacing, Gather(old(buf[..]), at, spacing, n))
  {
    ghost var x := buf[..];
    FitsLess(buf.Length, at, spacing, n + distance, n);
    FitsTail(buf.Length, at, spacing, n + distance, distance);
    ghost var vs, to := Gather(x, at, spacing, n), Pos(at, spacing, distance);
    ghost var j := n;
    PosIs(at, spacing, n - 1);
    PosIs(at, spacing, n + distance - 1);
    var src, dst := at + (n - 1) * spacing, at + (n + distance - 1) * spacing;
    FitsTail(buf.Length, to, spacing, n, n);
    while src >= at
      invariant 0 <= j <= n && src == Pos(at, spacing, j - 1) && dst == Pos(at, spacing, j + distance - 1)
      invariant Scattered(buf[..], x, Pos(to, spacing, j), spacing, vs[j..])
      decreases src
    {
      ShiftNext(buf, at, spacing, n, distance, src, dst, j, x);
      j, src, dst := j - 1, src - spacing, dst - spacing;
    }
    NoneLeft(at, spacing, j);
    PosStep(to, spacing, 0);
  }
}
