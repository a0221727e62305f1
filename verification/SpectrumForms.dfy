/** The other forms of the spectral product: two-lane vectors, the ordered in-place loop of the
    subsample delay, and the product with the spectrum of a unit impulse. */
module SpectrumForms {
  import opened Convolution
  import opened Spectrum
  import opened SpectrumLayout

  // ----- two-lane vectors -----

  /** Half a quad. */
  datatype Pair = Pair(lo: real, hi: real)

  function LowHalf(q: Quad): Pair {
    Pair(q.e0, q.e1)
  }

  function HighHalf(q: Quad): Pair {
    Pair(q.e2, q.e3)
  }

  function HalfAt(y: Layout, k: nat): Pair
    requires k < 2 * |y|
  {
    if k % 2 == 0 then LowHalf(y[k / 2]) else HighHalf(y[k / 2])
  }

  /** A buffer of quads seen as a buffer of pairs. */
  ghost function Halves(y: Layout): (p: seq<Pair>)
    ensures |p| == 2 * |y| && forall k :: 0 <= k < |p| ==> p[k] == HalfAt(y, k)
  {
    seq(2 * |y|, k requires 0 <= k < 2 * |y| => HalfAt(y, k))
  }

  function MulPair(a: Pair, b: Pair): Pair {
    Pair(a.lo * b.lo, a.hi * b.hi)
  }

  function AddPairs(a: Pair, b: Pair): Pair {
    Pair(a.lo + b.lo, a.hi + b.hi)
  }

  function SubPair(a: Pair, b: Pair): Pair {
    Pair(a.lo - b.lo, a.hi - b.hi)
  }

  lemma {:induction false} HalvesOfSum(e: Layout, p: Layout, k: nat)
    requires |e| == |p| && k < 2 * |e|
    ensures Halves(AddLayouts(e, p))[k] == AddPairs(Halves(e)[k], Halves(p)[k])
  {
  }

  lemma {:induction false} HalvesOfGroup(b: Layout, i: nat)
    requires i + 2 <= |b|
    ensures Halves(b)[2 * i] == LowHalf(b[i]) && Halves(b)[2 * i + 1] == HighHalf(b[i])
    ensures Halves(b)[2 * i + 2] == LowHalf(b[i + 1]) && Halves(b)[2 * i + 3] == HighHalf(b[i + 1])
  {
    assert (2 * i) / 2 == i && (2 * i + 1) / 2 == i && (2 * i + 2) / 2 == i + 1 && (2 * i + 3) / 2 == i + 1;
    assert (2 * i) % 2 == 0 && (2 * i + 1) % 2 == 1 && (2 * i + 2) % 2 == 0 && (2 * i + 3) % 2 == 1;
  }

  /** Multiplying halves is multiplying quads. */
  lemma {:induction false} MulHalves(b0: Quad, b1: Quad, c0: Quad, c1: Quad)
    ensures SubPair(MulPair(LowHalf(b0), LowHalf(c0)), MulPair(LowHalf(b1), LowHalf(c1)))
         == LowHalf(MulReal(b0, b1, c0, c1))
    ensures SubPair(MulPair(HighHalf(b0), HighHalf(c0)), MulPair(HighHalf(b1), HighHalf(c1)))
         == HighHalf(MulReal(b0, b1, c0, c1))
    ensures AddPairs(MulPair(LowHalf(b0), LowHalf(c1)), MulPair(LowHalf(b1), LowHalf(c0)))
         == LowHalf(MulImag(b0, b1, c0, c1))
    ensures AddPairs(MulPair(HighHalf(b0), HighHalf(c1)), MulPair(HighHalf(b1), HighHalf(c0)))
         == HighHalf(MulImag(b0, b1, c0, c1))
  {
  }

  /** The products of a group, one two-lane operation at a time. */
  method PairGroup(b0: Pair, b1: Pair, b2: Pair, b3: Pair, c0: Pair, c1: Pair, c2: Pair, c3: Pair, ghost u0: Quad,
                   ghost u1: Quad, ghost v0: Quad, ghost v1: Quad)
    returns (p0: Pair, p1: Pair, p2: Pair, p3: Pair)
    requires b0 == LowHalf(u0) && b1 == HighHalf(u0) && b2 == LowHalf(u1) && b3 == HighHalf(u1)
    requires c0 == LowHalf(v0) && c1 == HighHalf(v0) && c2 == LowHalf(v1) && c3 == HighHalf(v1)
    ensures p0 == LowHalf(MulReal(u0, u1, v0, v1)) && p1 == HighHalf(MulReal(u0, u1, v0, v1))
    ensures p2 == LowHalf(MulImag(u0, u1, v0, v1)) && p3 == HighHalf(MulImag(u0, u1, v0, v1))
  {
    MulHalves(u0, u1, v0, v1);
    p0 := SubPair(MulPair(b0, c0), MulPair(b2, c2));
    p1 := SubPair(MulPair(b1, c1), MulPair(b3, c3));
    p2 := AddPairs(MulPair(b0, c2), MulPair(b2, c0));
    p3 := AddPairs(MulPair(b1, c3), MulPair(b3, c1));
  }

  ghost predicate AreAt(p: seq<Pair>, n: nat, p0: Pair, p1: Pair, p2: Pair, p3: Pair) {
    n + 4 <= |p| && p0 == p[n] && p1 == p[n + 1] && p2 == p[n + 2] && p3 == p[n + 3]
  }

  method PairProducts(b: seq<Pair>, c: seq<Pair>, n: nat, ghost i: nat, ghost B: Layout, ghost C: Layout)
    returns (p0: Pair, p1: Pair, p2: Pair, p3: Pair)
    requires Multipliable(B, C) && n == 2 * i && i % 2 == 0 && i + 2 <= |B|
    requires b == Halves(B) && c == Halves(C)
    ensures AreAt(Halves(RawProduct(B, C)), n, p0, p1, p2, p3)
  {
    HalvesOfGroup(B, i);
    HalvesOfGroup(C, i);
    p0, p1, p2, p3 := PairGroup(b[n], b[n + 1], b[n + 2], b[n + 3], c[n], c[n + 1], c[n + 2], c[n + 3],
                                B[i], B[i + 1], C[i], C[i + 1]);
    RawGroup(B, C, i);
    HalvesOfGroup(RawProduct(B, C), i);
  }

  method AddHalf(d: array<Pair>, k: nat, u: Pair, ghost p: Layout, ghost e: Layout)
    requires |p| == |e| && d.Length == 2 * |p| && k < d.Length && u == Halves(p)[k]
    requires Filled(d[..], Halves(AddLayouts(e, p)), Halves(e), k)
    modifies d
    ensures Filled(d[..], Halves(AddLayouts(e, p)), Halves(e), k + 1)
  {
    ghost var y := Halves(AddLayouts(e, p));
    FilledAt(d[..], y, Halves(e), k, k);
    HalvesOfSum(e, p, k);
    StoreOne(d, k, AddPairs(d[k], u), y, Halves(e));
  }

  method StoreOne<T>(d: array<T>, k: nat, u: T, ghost y: seq<T>, ghost e: seq<T>)
    requires Filled(d[..], y, e, k) && k < d.Length && u == y[k]
    modifies d
    ensures Filled(d[..], y, e, k + 1)
  {
    d[k] := u;
    assert y[..k + 1] == y[..k] + [u];
  }

  method AddGroup(d: array<Pair>, n: nat, p0: Pair, p1: Pair, p2: Pair, p3: Pair, ghost p: Layout, ghost e: Layout)
    requires |p| == |e| && d.Length == 2 * |p| && AreAt(Halves(p), n, p0, p1, p2, p3)
    requires Filled(d[..], Halves(AddLayouts(e, p)), Halves(e), n)
    modifies d
    ensures Filled(d[..], Halves(AddLayouts(e, p)), Halves(e), n + 4)
  {
    AddHalf(d, n, p0, p, e);
    AddHalf(d, n + 1, p1, p, e);
    AddHalf(d, n + 2, p2, p, e);
    AddHalf(d, n + 3, p3, p, e);
  }

  method Sse2Loop(b: seq<Pair>, c: seq<Pair>, d: array<Pair>, loopCounter: nat, ghost B: Layout, ghost C: Layout,
                  ghost E: Layout)
    requires Multipliable(B, C) && |E| == |B| == 2 * loopCounter
    requires b == Halves(B) && c == Halves(C) && d[..] == Halves(E)
    modifies d
    ensures d[..] == Halves(AddLayouts(E, RawProduct(B, C)))
  {
    ghost var p := RawProduct(B, C);
    var i := 0;
    while i < loopCounter
      invariant 0 <= i <= loopCounter
      invariant Filled(d[..], Halves(AddLayouts(E, p)), Halves(E), 4 * i)
    {
      var n := 4 * i;
      var p0, p1, p2, p3 := PairProducts(b, c, n, 2 * i, B, C);
      AddGroup(d, n, p0, p1, p2, p3, p, E);
      i := i + 1;
    }
  }

  lemma {:induction false} HalvesOfEnds(y: Layout, s1: real, s2: real)
    requires 2 <= |y|
    ensures Halves(WithEnds(y, s1, s2)) == Halves(y)[0 := Halves(y)[0].(lo := s1)][2 := Halves(y)[2].(lo := s2)]
  {
    var h, z := Halves(WithEnds(y, s1, s2)), Halves(y)[0 := Halves(y)[0].(lo := s1)][2 := Halves(y)[2].(lo := s2)];
    forall k | 0 <= k < |h|
      ensures h[k] == z[k]
    {
      assert h[k] == HalfAt(WithEnds(y, s1, s2), k);
      assert Halves(y)[k] == HalfAt(y, k);
    }
  }

  /** The first product of a group, read from pairs. */
  function LowProduct(u: Pair, v: Pair): real {
    u.lo * v.lo
  }

  lemma {:induction false} LowIsFirst(b: Layout, c: Layout, q: nat)
    requires q < |b| && q < |c|
    ensures LowProduct(Halves(b)[2 * q], Halves(c)[2 * q]) == FirstProduct(b[q], c[q])
  {
    assert (2 * q) / 2 == q && (2 * q) % 2 == 0;
  }

  method StoreLowEnds(d: array<Pair>, s1: real, s2: real, ghost y: Layout)
    requires 2 <= |y| && d[..] == Halves(y)
    modifies d
    ensures d[..] == Halves(WithEnds(y, s1, s2))
  {
    d[0] := d[0].(lo := s1);
    d[2] := d[2].(lo := s2);
    HalvesOfEnds(y, s1, s2);
  }

  /** The two-lane vector form computes, half by half, what the scalar loop computes. */
  method Sse2ConvolveAdd(b: seq<Pair>, c: seq<Pair>, d: array<Pair>, loopCounter: nat, ghost B: Layout, ghost C: Layout,
                         ghost E: Layout)
    requires Multipliable(B, C) && |E| == |B| == 2 * loopCounter
    requires b == Halves(B) && c == Halves(C) && d[..] == Halves(E)
    modifies d
    ensures d[..] == Halves(AddLayouts(E, Product(B, C)))
  {
    var d1s, d2s := d[0].lo + LowProduct(b[0], c[0]), d[2].lo + LowProduct(b[2], c[2]);
    LowIsFirst(B, C, 0);
    LowIsFirst(B, C, 1);
    assert d[0] == HalfAt(E, 0) && d[2] == HalfAt(E, 2);
    Sse2Loop(b, c, d, loopCounter, B, C, E);
    StoreLowEnds(d, d1s, d2s, AddLayouts(E, RawProduct(B, C)));
    EndsOfSum(E, B, C);
  }

  // ----- the ordered in-place loop -----

  /** Entries below n and above size - n are final, the others untouched. */
  ghost predicate OrderedDone(b: Samples, y: Samples, e: Samples, n: nat) {
    && |b| == |y| == |e|
    && (forall k :: 0 <= k < |b| && (k < n || k > |b| - n) ==> b[k] == y[k])
    && (forall k :: n <= k <= |b| - n && k < |b| ==> b[k] == e[k])
  }

  /** Real and imaginary part of one frequency, the first overwritten before the second is computed. */
  method OrderedStep(b: array<real>, c: Samples, n: nat, ghost e: Samples)
    requires b.Length == |c| == |e| && 0 < n && 2 * n < b.Length
    requires OrderedDone(b[..], OrderedProduct(e, c), e, n)
    modifies b
    ensures OrderedDone(b[..], OrderedProduct(e, c), e, n + 1)
  {
    var size := b.Length;
    ghost var before, y := b[..], OrderedProduct(e, c);
    assert before[n] == e[n] && before[size - n] == e[size - n];
    var a := b[n];
    var re := a * c[n] - b[size - n] * c[size - n];
    var im := a * c[size - n] + b[size - n] * c[n];
    OrderedPair(e, c, n);
    assert re == y[n] && im == y[size - n];
    b[n] := re;
    b[size - n] := im;
    OrderedStore(before, b[..], y, e, n);
  }

  lemma {:induction false} OrderedPair(e: Samples, c: Samples, n: nat)
    requires |e| == |c| && 0 < n && 2 * n < |e|
    ensures OrderedProduct(e, c)[n] == e[n] * c[n] - e[|e| - n] * c[|e| - n]
    ensures OrderedProduct(e, c)[|e| - n] == e[n] * c[|e| - n] + e[|e| - n] * c[n]
  {
    assert |e| - (|e| - n) == n;
    assert OrderedProduct(e, c)[|e| - n] == OrderedAt(e, c, |e| - n);
  }

  lemma {:induction false} OrderedStore(d: Samples, d': Samples, y: Samples, e: Samples, n: nat)
    requires OrderedDone(d, y, e, n) && 0 < n && 2 * n < |d|
    requires d' == d[n := y[n]][|d| - n := y[|d| - n]]
    ensures OrderedDone(d', y, e, n + 1)
  {
  }

  /** Frequencies 0 and n/2 are real. */
  method OrderedEnd(b: array<real>, c: Samples, k: nat)
    requires b.Length == |c| && k < b.Length
    modifies b
    ensures b[..] == old(b[..])[k := EndProduct(old(b[..]), c, k)]
  {
    ghost var e := b[..];
    var u, v := b[k], c[k];
    assert e[k] == u && EndProduct(e, c, k) == u * v;
    b[k] := u * v;
    assert b[..] == e[k := u * v];
  }

  function EndProduct(x: Samples, y: Samples, k: nat): real
    requires k < |x| && k < |y|
  {
    x[k] * y[k]
  }

  lemma {:induction false} OrderedEnds(x: Samples, y: Samples)
    requires |x| == |y| >= 2 && |x| % 2 == 0
    ensures OrderedProduct(x, y)[0] == EndProduct(x, y, 0)
    ensures OrderedProduct(x, y)[|x| / 2] == EndProduct(x, y, |x| / 2)
  {
    assert OrderedProduct(x, y)[0] == OrderedAt(x, y, 0);
    assert OrderedProduct(x, y)[|x| / 2] == OrderedAt(x, y, |x| / 2);
  }

  lemma {:induction false} OrderedLast(d: Samples, d': Samples, y: Samples, e: Samples)
    requires |d| >= 2 && |d| % 2 == 0 && OrderedDone(d, y, e, |d| / 2)
    requires d' == d[|d| / 2 := y[|d| / 2]]
    ensures d' == y
  {
  }

  /** The ordered loop computes the ordered half-complex product in place. */
  method ConvolveInplaceOrdered(b: array<real>, c: Samples)
    requires b.Length == |c| >= 2 && b.Length % 2 == 0
    modifies b
    ensures b[..] == OrderedProduct(old(b[..]), c)
  {
    var size2 := b.Length / 2;
    ghost var e := b[..];
    ghost var y := OrderedProduct(e, c);
    OrderedEnds(e, c);
    OrderedEnd(b, c, 0);
    var n := 1;
    while n < size2
      invariant 1 <= n <= size2
      invariant OrderedDone(b[..], y, e, n)
    {
      OrderedStep(b, c, n, e);
      n := n + 1;
    }
    assert b[..][size2] == e[size2];
    ghost var d := b[..];
    assert EndProduct(d, c, size2) == EndProduct(e, c, size2);
    OrderedEnd(b, c, size2);
    OrderedLast(d, b[..], y, e);
  }

  // ----- the unit impulse -----

  /** Signs alternate from frequency to frequency. */
  function DiracQuad(v: Quad, fraction: real): Quad {
    Quad(v.e0 * fraction, v.e1 * -fraction, v.e2 * fraction, v.e3 * -fraction)
  }

  ghost function DiracScaled(b: Layout, fraction: real): (d: Layout)
    ensures |d| == |b| && forall q :: 0 <= q < |d| ==> d[q] == DiracQuad(b[q], fraction)
  {
    seq(|b|, q requires 0 <= q < |b| => DiracQuad(b[q], fraction))
  }

  method DiracConvolve(b: Layout, d: array<Quad>)
    requires d.Length == |b| > 0
    modifies d
    ensures d[..] == DiracScaled(b, 1.0 / (4 * |b|) as real)
  {
    var fraction := 1.0 / (4 * d.Length) as real;
    ghost var y, e := DiracScaled(b, fraction), d[..];
    var q := 0;
    while q < d.Length
      invariant 0 <= q <= d.Length
      invariant Filled(d[..], y, e, q)
    {
      StoreOne(d, q, DiracQuad(b[q], fraction), y, e);
      q := q + 1;
    }
  }

  method DiracConvolveInplace(b: array<Quad>)
    requires b.Length > 0
    modifies b
    ensures b[..] == DiracScaled(old(b[..]), 1.0 / (4 * b.Length) as real)
  {
    var fraction := 1.0 / (4 * b.Length) as real;
    ghost var e := b[..];
    ghost var y := DiracScaled(e, fraction);
    var q := 0;
    while q < b.Length
      invariant 0 <= q <= b.Length
      invariant Filled(b[..], y, e, q)
    {
      FilledAt(b[..], y, e, q, q);
      StoreOne(b, q, DiracQuad(b[q], fraction), y, e);
      q := q + 1;
    }
  }

  /** The ordered spectrum of a unit impulse delayed by half a buffer, scaled by fraction. */
  function ImpulseSpectrum(n: nat, fraction: real): (x: Samples)
    ensures |x| == n
    ensures forall k :: 0 <= k < n ==> x[k] == ImpulseAt(n, fraction, k)
  {
    seq(n, k requires 0 <= k < n => ImpulseAt(n, fraction, k))
  }

  function ImpulseAt(n: nat, fraction: real, k: nat): real {
    if 2 * k > n then 0.0 else if k % 2 == 0 then fraction else -fraction
  }

  lemma {:induction false} ImpulseReal(n: nat, fraction: real, g: nat)
    requires Divided(n) && 8 * g + 8 <= n
    ensures RealQuad(ImpulseSpectrum(n, fraction), g) == Quad(fraction, -fraction, fraction, -fraction)
  {
    var x := ImpulseSpectrum(n, fraction);
    EvenSpot(n, fraction, 2 * g);
    EvenSpot(n, fraction, 2 * g + 1);
    assert x[4 * g] == fraction && x[4 * g + 1] == -fraction;
    assert x[4 * g + 2] == fraction && x[4 * g + 3] == -fraction;
  }

  lemma {:induction false} EvenSpot(n: nat, fraction: real, h: nat)
    requires 4 * h + 2 <= n
    ensures ImpulseAt(n, fraction, 2 * h) == fraction && ImpulseAt(n, fraction, 2 * h + 1) == -fraction
  {
    assert (2 * h) % 2 == 0 && (2 * h + 1) % 2 == 1;
  }

  lemma {:induction false} ImpulseImag(n: nat, fraction: real, g: nat)
    requires Divided(n) && 8 * g + 8 <= n
    ensures ImagQuad(ImpulseSpectrum(n, fraction), g) == Quad(if g == 0 then fraction else 0.0, 0.0, 0.0, 0.0)
  {
    var x := ImpulseSpectrum(n, fraction);
    assert x[n - 4 * g - 1] == 0.0 && x[n - 4 * g - 2] == 0.0 && x[n - 4 * g - 3] == 0.0;
    if g == 0 {
      var h := n / 8;
      assert n / 2 == 2 * (2 * h) && (2 * (2 * h)) % 2 == 0;
      assert ImpulseAt(n, fraction, n / 2) == fraction;
      assert x[n / 2] == fraction;
    } else {
      assert x[n - 4 * g] == 0.0;
    }
  }

  lemma {:induction false} ImpulseQuads(c: Layout, n: nat, fraction: real, g: nat)
    requires Divided(n) && IsLayoutOf(c, ImpulseSpectrum(n, fraction)) && 8 * g + 8 <= n
    ensures c[2 * g] == Quad(fraction, -fraction, fraction, -fraction)
    ensures c[2 * g + 1] == Quad(if g == 0 then fraction else 0.0, 0.0, 0.0, 0.0)
  {
    var x := ImpulseSpectrum(n, fraction);
    ImpulseReal(n, fraction, g);
    ImpulseImag(n, fraction, g);
    assert c[2 * g] == RealQuad(x, g) && c[2 * g + 1] == ImagQuad(x, g);
  }

  lemma {:induction false} ImpulseRaw(b0: Quad, b1: Quad, f: real)
    ensures MulReal(b0, b1, Quad(f, -f, f, -f), Quad(0.0, 0.0, 0.0, 0.0)) == DiracQuad(b0, f)
    ensures MulImag(b0, b1, Quad(f, -f, f, -f), Quad(0.0, 0.0, 0.0, 0.0)) == DiracQuad(b1, f)
  {
  }

  lemma {:induction false} ImpulseFirst(b0: Quad, b1: Quad, f: real)
    ensures MulReal(b0, b1, Quad(f, -f, f, -f), Quad(f, 0.0, 0.0, 0.0)).(e0 := b0.e0 * f) == DiracQuad(b0, f)
    ensures MulImag(b0, b1, Quad(f, -f, f, -f), Quad(f, 0.0, 0.0, 0.0)).(e0 := b1.e0 * f) == DiracQuad(b1, f)
  {
  }

  lemma {:induction false} DiracGroup(b: Layout, c: Layout, n: nat, fraction: real, g: nat)
    requires Divided(n) && Multipliable(b, c) && IsLayoutOf(c, ImpulseSpectrum(n, fraction)) && 8 * g + 8 <= n
    ensures DiracScaled(b, fraction)[2 * g] == Product(b, c)[2 * g]
    ensures DiracScaled(b, fraction)[2 * g + 1] == Product(b, c)[2 * g + 1]
  {
    ImpulseQuads(c, n, fraction, g);
    ImpulseRaw(b[2 * g], b[2 * g + 1], fraction);
    ImpulseFirst(b[2 * g], b[2 * g + 1], fraction);
    RawGroup(b, c, 2 * g);
    EvenOdd(b, c, 2 * g);
  }

  lemma {:induction false} EvenOdd(b: Layout, c: Layout, q: nat)
    requires Multipliable(b, c) && q + 1 < |b|
    ensures Product(b, c)[q]
         == if q < 2 then RawProduct(b, c)[q].(e0 := FirstProduct(b[q], c[q])) else RawProduct(b, c)[q]
    ensures Product(b, c)[q + 1]
         == if q + 1 < 2 then RawProduct(b, c)[q + 1].(e0 := FirstProduct(b[q + 1], c[q + 1]))
            else RawProduct(b, c)[q + 1]
  {
    assert Product(b, c)[q] == ProductQuad(b, c, q) && Product(b, c)[q + 1] == ProductQuad(b, c, q + 1);
    RawAt(b, c, q);
    RawAt(b, c, q + 1);
  }

  /** The alternating scaling is the product with the spectrum of the delayed impulse. */
  lemma {:induction false} DiracIsProduct(b: Layout, c: Layout, n: nat, fraction: real)
    requires Divided(n) && Multipliable(b, c) && IsLayoutOf(c, ImpulseSpectrum(n, fraction))
    ensures DiracScaled(b, fraction) == Product(b, c)
  {
    forall q | 0 <= q < |b|
      ensures DiracScaled(b, fraction)[q] == Product(b, c)[q]
    {
      DiracGroup(b, c, n, fraction, q / 2);
      assert q == 2 * (q / 2) || q == 2 * (q / 2) + 1;
    }
  }
}
