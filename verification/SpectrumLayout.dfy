/** The interleaved-by-four layout of convolver buffers, and the convolution loops that work in it.

    A buffer of n reals is seen as n/4 quads of four consecutive reals. Quad 2g holds the real parts
    of frequencies 4g .. 4g+3 and quad 2g+1 their imaginary parts; frequency n/2 takes the place of
    the imaginary part of frequency 0. */
module SpectrumLayout {
  import opened Sums
  import opened Convolution
  import opened Spectrum

  datatype Quad = Quad(e0: real, e1: real, e2: real, e3: real)

  type Layout = seq<Quad>

  // ----- the permutation -----

  predicate Divided(n: nat) {
    8 <= n && n % 8 == 0
  }

  function RealQuad(x: Samples, g: nat): Quad
    requires 8 * g + 8 <= |x|
  {
    Quad(x[4 * g], x[4 * g + 1], x[4 * g + 2], x[4 * g + 3])
  }

  function ImagQuad(x: Samples, g: nat): Quad
    requires 8 * g + 8 <= |x|
  {
    var n := |x|;
    Quad(if g == 0 then x[n / 2] else x[n - 4 * g], x[n - 4 * g - 1], x[n - 4 * g - 2], x[n - 4 * g - 3])
  }

  /** y is the ordered half-complex spectrum x in layout order. */
  ghost predicate IsLayoutOf(y: Layout, x: Samples) {
    && Divided(|x|) && 4 * |y| == |x|
    && forall g: nat {:trigger RealQuad(x, g)} {:trigger ImagQuad(x, g)} ::
         8 * g + 8 <= |x| ==> y[2 * g] == RealQuad(x, g) && y[2 * g + 1] == ImagQuad(x, g)
  }

  /** Every quad belongs to a whole group. */
  lemma {:induction false} GroupFits(n: nat, q: nat)
    requires Divided(n) && 4 * q < n
    ensures 8 * (q / 2) + 8 <= n
  {
    var m := n / 8;
    assert n == 8 * m;
    assert q / 2 < m;
  }

  function QuadAt(x: Samples, q: nat): Quad
    requires Divided(|x|) && 4 * q < |x|
  {
    GroupFits(|x|, q);
    if q % 2 == 0 then RealQuad(x, q / 2) else ImagQuad(x, q / 2)
  }

  function Quads(x: Samples, m: nat): (y: Layout)
    requires Divided(|x|) && |x| == 4 * m
    ensures |y| == m && forall q :: 0 <= q < m ==> y[q] == QuadAt(x, q)
  {
    seq(m, q requires 0 <= q < m => QuadAt(x, q))
  }

  /** The number of quads. */
  function Quarter(n: nat): (m: nat)
    requires Divided(n)
    ensures n == 4 * m
  {
    n / 4
  }

  function ToLayout(x: Samples): (y: Layout)
    requires Divided(|x|)
    ensures 4 * |y| == |x| && forall q :: 0 <= q < |y| ==> y[q] == QuadAt(x, q)
  {
    Quads(x, Quarter(|x|))
  }

  lemma {:induction false} ToLayoutIsLayout(x: Samples)
    requires Divided(|x|)
    ensures IsLayoutOf(ToLayout(x), x)
  {
    var y := ToLayout(x);
    forall g: nat | 8 * g + 8 <= |x|
      ensures y[2 * g] == RealQuad(x, g) && y[2 * g + 1] == ImagQuad(x, g)
    {
      assert (2 * g) / 2 == g && (2 * g + 1) / 2 == g;
    }
  }

  /** The layout determines the spectrum, and the spectrum the layout. */
  lemma {:induction false} LayoutInjective(y: Layout, z: Layout, x: Samples, w: Samples)
    requires IsLayoutOf(y, x) && IsLayoutOf(z, w)
    ensures y == z <==> x == w
  {
    if y == z {
      forall k | 0 <= k < |x|
        ensures x[k] == w[k]
      {
        var f := if 2 * k <= |x| then k else |x| - k;
        var g := if 2 * k == |x| then 0 else f / 4;
        assert RealQuad(x, g) == RealQuad(w, g) && ImagQuad(x, g) == ImagQuad(w, g);
      }
    }
    if x == w {
      forall q | 0 <= q < |y|
        ensures y[q] == z[q]
      {
        var g := q / 2;
        assert RealQuad(x, g) == RealQuad(w, g) && ImagQuad(x, g) == ImagQuad(w, g);
        assert q == 2 * g || q == 2 * g + 1;
      }
    }
  }

  // ----- mixing and scaling -----

  function DotTerm(vals: seq<real>, scales: seq<real>): int -> real {
    i => At(vals, i) * At(scales, i)
  }

  /** One mixed sample: written out for one to four buffers, a loop for more. */
  method MixSample(vals: seq<real>, scales: seq<real>) returns (v: real)
    requires 0 < |vals| == |scales|
    ensures v == Sum(|vals|, DotTerm(vals, scales))
  {
    ghost var f := DotTerm(vals, scales);
    SumFew(f);
    assert forall i :: 0 <= i < |vals| ==> f(i) == vals[i] * scales[i];
    if |vals| == 1 {
      v := vals[0] * scales[0];
    } else if |vals| == 2 {
      v := vals[0] * scales[0] + vals[1] * scales[1];
    } else if |vals| == 3 {
      v := vals[0] * scales[0] + vals[1] * scales[1] + vals[2] * scales[2];
    } else if |vals| == 4 {
      v := vals[0] * scales[0] + vals[1] * scales[1] + vals[2] * scales[2] + vals[3] * scales[3];
    } else {
      v := vals[0] * scales[0];
      var i := 1;
      while i < |vals|
        invariant 1 <= i <= |vals|
        invariant v == Sum(i, f)
      {
        v := v + vals[i] * scales[i];
        i := i + 1;
      }
    }
  }

  lemma {:induction false} SumFew(f: int -> real)
    ensures Sum(1, f) == f(0)
    ensures Sum(2, f) == f(0) + f(1)
    ensures Sum(3, f) == f(0) + f(1) + f(2)
    ensures Sum(4, f) == f(0) + f(1) + f(2) + f(3)
  {
    assert Sum(1, f) == Sum(0, f) + f(0);
    assert Sum(2, f) == Sum(1, f) + f(1);
    assert Sum(3, f) == Sum(2, f) + f(2);
    assert Sum(4, f) == Sum(3, f) + f(3);
  }

  ghost predicate SameLength(ibufs: seq<Samples>, scales: seq<real>, n: nat) {
    0 < |ibufs| == |scales| && forall i :: 0 <= i < |ibufs| ==> |ibufs[i]| == n
  }

  /** Sample k of every buffer. */
  function Column(ibufs: seq<Samples>, k: nat): (vals: seq<real>)
    requires forall i :: 0 <= i < |ibufs| ==> k < |ibufs[i]|
    ensures |vals| == |ibufs|
  {
    seq(|ibufs|, i requires 0 <= i < |ibufs| => ibufs[i][k])
  }

  method MixAt(ibufs: seq<Samples>, scales: seq<real>, k: nat, ghost n: nat) returns (v: real)
    requires SameLength(ibufs, scales, n) && k < n
    ensures v == Mix(ibufs, scales, n)[k]
  {
    v := MixSample(Column(ibufs, k), scales);
    SumEq(|ibufs|, DotTerm(Column(ibufs, k), scales), MixTerm(ibufs, scales, k));
  }

  method MixReal(ibufs: seq<Samples>, scales: seq<real>, n: nat, g: nat) returns (v: Quad)
    requires Divided(n) && SameLength(ibufs, scales, n) && 8 * g + 8 <= n
    ensures v == RealQuad(Mix(ibufs, scales, n), g)
  {
    var e0 := MixAt(ibufs, scales, 4 * g, n);
    var e1 := MixAt(ibufs, scales, 4 * g + 1, n);
    var e2 := MixAt(ibufs, scales, 4 * g + 2, n);
    var e3 := MixAt(ibufs, scales, 4 * g + 3, n);
    v := Quad(e0, e1, e2, e3);
  }

  /** Imaginary parts are read backwards from the end of the inputs. */
  method MixImag(ibufs: seq<Samples>, scales: seq<real>, n: nat, g: nat) returns (v: Quad)
    requires Divided(n) && SameLength(ibufs, scales, n) && 8 * g + 8 <= n
    ensures v == ImagQuad(Mix(ibufs, scales, n), g)
  {
    var e0 := MixAt(ibufs, scales, if g == 0 then n / 2 else n - 4 * g, n);
    var e1 := MixAt(ibufs, scales, n - 4 * g - 1, n);
    var e2 := MixAt(ibufs, scales, n - 4 * g - 2, n);
    var e3 := MixAt(ibufs, scales, n - 4 * g - 3, n);
    v := Quad(e0, e1, e2, e3);
  }

  /** The quads of y in the first g groups that have the given parity. */
  ghost predicate PassDone(d: Layout, y: Layout, g: nat, parity: nat)
    requires |d| == |y| && parity < 2 && 2 * g <= |y|
  {
    forall q: nat {:trigger d[q]} :: q < 2 * g && q % 2 == parity ==> d[q] == y[q]
  }

  lemma {:induction false} PassStep(d: Layout, d': Layout, y: Layout, g: nat, parity: nat)
    requires |d| == |d'| == |y| && parity < 2 && 2 * g + 2 <= |y| && PassDone(d, y, g, parity)
    requires d' == d[2 * g + parity := y[2 * g + parity]]
    ensures PassDone(d', y, g + 1, parity)
  {
    forall q: nat | q < 2 * g + 2 && q % 2 == parity
      ensures d'[q] == y[q]
    {
      if q < 2 * g {
        assert d[q] == y[q];
      }
    }
  }

  /** One pass leaves the other alone. */
  method StorePass(obuf: array<Quad>, g: nat, parity: nat, v: Quad, ghost y: Layout)
    requires obuf.Length == |y| && parity < 2 && 2 * g + 2 <= |y| && v == y[2 * g + parity]
    requires PassDone(obuf[..], y, g, parity)
    modifies obuf
    ensures PassDone(obuf[..], y, g + 1, parity)
    ensures forall q :: 0 <= q < obuf.Length && q != 2 * g + parity ==> obuf[q] == old(obuf[q])
  {
    ghost var before := obuf[..];
    obuf[2 * g + parity] := v;
    PassStep(before, obuf[..], y, g, parity);
  }

  lemma {:induction false} PassKept(d: Layout, d': Layout, y: Layout, h: nat, q': nat)
    requires |d| == |d'| == |y| && 2 * h <= |y| && PassDone(d, y, h, 0) && q' % 2 == 1
    requires forall q :: 0 <= q < |d| && q != q' ==> d'[q] == d[q]
    ensures PassDone(d', y, h, 0)
  {
    forall q: nat | q < 2 * h && q % 2 == 0
      ensures d'[q] == y[q]
    {
      assert d[q] == y[q];
    }
  }

  method StoreImagPass(obuf: array<Quad>, g: nat, v: Quad, ghost y: Layout, ghost h: nat)
    requires obuf.Length == |y| == 2 * h && g < h && v == y[2 * g + 1]
    requires PassDone(obuf[..], y, h, 0) && PassDone(obuf[..], y, g, 1)
    modifies obuf
    ensures PassDone(obuf[..], y, h, 0) && PassDone(obuf[..], y, g + 1, 1)
  {
    ghost var before := obuf[..];
    StorePass(obuf, g, 1, v, y);
    PassKept(before, obuf[..], y, h, 2 * g + 1);
  }

  method RealStep(ibufs: seq<Samples>, scales: seq<real>, n: nat, obuf: array<Quad>, g: nat, ghost y: Layout)
    requires Divided(n) && SameLength(ibufs, scales, n) && 4 * obuf.Length == n && IsLayoutOf(y, Mix(ibufs, scales, n))
    requires 8 * g + 8 <= n && PassDone(obuf[..], y, g, 0)
    modifies obuf
    ensures PassDone(obuf[..], y, g + 1, 0)
  {
    var v := MixReal(ibufs, scales, n, g);
    StorePass(obuf, g, 0, v, y);
  }

  method RealPass(ibufs: seq<Samples>, scales: seq<real>, n: nat, obuf: array<Quad>, ghost y: Layout)
    requires Divided(n) && SameLength(ibufs, scales, n) && 4 * obuf.Length == n && IsLayoutOf(y, Mix(ibufs, scales, n))
    modifies obuf
    ensures PassDone(obuf[..], y, n / 8, 0)
  {
    var g := 0;
    while g < n / 8
      invariant 0 <= g <= n / 8
      invariant PassDone(obuf[..], y, g, 0)
    {
      RealStep(ibufs, scales, n, obuf, g, y);
      g := g + 1;
    }
  }

  method ImagStep(ibufs: seq<Samples>, scales: seq<real>, n: nat, obuf: array<Quad>, g: nat, ghost y: Layout)
    requires Divided(n) && SameLength(ibufs, scales, n) && 4 * obuf.Length == n && IsLayoutOf(y, Mix(ibufs, scales, n))
    requires 8 * g + 8 <= n && PassDone(obuf[..], y, n / 8, 0) && PassDone(obuf[..], y, g, 1)
    modifies obuf
    ensures PassDone(obuf[..], y, n / 8, 0) && PassDone(obuf[..], y, g + 1, 1)
  {
    var v := MixImag(ibufs, scales, n, g);
    StoreImagPass(obuf, g, v, y, n / 8);
  }

  /** Frequency n/2 takes the first place of the imaginary parts. */
  method ImagPass(ibufs: seq<Samples>, scales: seq<real>, n: nat, obuf: array<Quad>, ghost y: Layout)
    requires Divided(n) && SameLength(ibufs, scales, n) && 4 * obuf.Length == n && IsLayoutOf(y, Mix(ibufs, scales, n))
    requires PassDone(obuf[..], y, n / 8, 0)
    modifies obuf
    ensures PassDone(obuf[..], y, n / 8, 0) && PassDone(obuf[..], y, n / 8, 1)
  {
    var g := 0;
    while g < n / 8
      invariant 0 <= g <= n / 8
      invariant PassDone(obuf[..], y, n / 8, 0)
      invariant PassDone(obuf[..], y, g, 1)
    {
      ImagStep(ibufs, scales, n, obuf, g, y);
      g := g + 1;
    }
  }

  /** Mixes ordered spectra into a buffer in layout order: a pass over the real parts, then one
      over the imaginary parts. */
  method MixScaleInput(ibufs: seq<Samples>, scales: seq<real>, n: nat, obuf: array<Quad>)
    requires Divided(n) && SameLength(ibufs, scales, n) && 4 * obuf.Length == n
    modifies obuf
    ensures IsLayoutOf(obuf[..], Mix(ibufs, scales, n))
  {
    ghost var y := ToLayout(Mix(ibufs, scales, n));
    ToLayoutIsLayout(Mix(ibufs, scales, n));
    RealPass(ibufs, scales, n, obuf, y);
    ImagPass(ibufs, scales, n, obuf, y);
    PassesDone(obuf[..], y, n / 8);
  }

  lemma {:induction false} PassesDone(d: Layout, y: Layout, h: nat)
    requires |d| == |y| == 2 * h && PassDone(d, y, h, 0) && PassDone(d, y, h, 1)
    ensures d == y
  {
  }

  /** Lane j of quad q. */
  function Lane(v: Quad, j: nat): real {
    if j == 0 then v.e0 else if j == 1 then v.e1 else if j == 2 then v.e2 else v.e3
  }

  predicate SameLayoutLength(ibufs: seq<Layout>, scales: seq<real>, n: nat) {
    0 < |ibufs| == |scales| && forall i :: 0 <= i < |ibufs| ==> 4 * |ibufs[i]| == n
  }

  function LaneColumn(ibufs: seq<Layout>, q: nat, j: nat): (vals: seq<real>)
    requires forall i :: 0 <= i < |ibufs| ==> q < |ibufs[i]|
    ensures |vals| == |ibufs|
  {
    seq(|ibufs|, i requires 0 <= i < |ibufs| => Lane(ibufs[i][q], j))
  }

  /** Scaled sum of layouts, lane by lane. */
  function MixLane(ibufs: seq<Layout>, scales: seq<real>, q: nat, j: nat): real
    requires forall i :: 0 <= i < |ibufs| ==> q < |ibufs[i]|
  {
    Sum(|ibufs|, DotTerm(LaneColumn(ibufs, q, j), scales))
  }

  function MixQuad(ibufs: seq<Layout>, scales: seq<real>, q: nat): Quad
    requires forall i :: 0 <= i < |ibufs| ==> q < |ibufs[i]|
  {
    Quad(MixLane(ibufs, scales, q, 0), MixLane(ibufs, scales, q, 1), MixLane(ibufs, scales, q, 2),
         MixLane(ibufs, scales, q, 3))
  }

  function MixLayouts(ibufs: seq<Layout>, scales: seq<real>, n: nat): (y: Layout)
    requires Divided(n) && SameLayoutLength(ibufs, scales, n)
    ensures 4 * |y| == n
  {
    seq(Quarter(n), q requires 0 <= q < Quarter(n) => MixQuad(ibufs, scales, q))
  }

  method MixLanes(ibufs: seq<Layout>, scales: seq<real>, q: nat, ghost n: nat) returns (v: Quad)
    requires SameLayoutLength(ibufs, scales, n) && 4 * q < n
    ensures v == MixQuad(ibufs, scales, q)
  {
    var e0 := MixSample(LaneColumn(ibufs, q, 0), scales);
    var e1 := MixSample(LaneColumn(ibufs, q, 1), scales);
    var e2 := MixSample(LaneColumn(ibufs, q, 2), scales);
    var e3 := MixSample(LaneColumn(ibufs, q, 3), scales);
    v := Quad(e0, e1, e2, e3);
  }

  /** Entries 4g .. 4g+3 of an ordered buffer. */
  ghost predicate RealPart(x: Samples, g: nat, v: Quad)
    requires 8 * g + 8 <= |x|
  {
    RealQuad(x, g) == v
  }

  ghost predicate ImagPart(x: Samples, g: nat, v: Quad)
    requires 8 * g + 8 <= |x|
  {
    ImagQuad(x, g) == v
  }

  /** The first g groups of y hold the real parts of x. */
  ghost predicate RealDone(x: Samples, y: Layout, g: nat)
    requires |x| == 4 * |y| && 8 * g <= |x|
  {
    forall h: nat {:trigger RealPart(x, h, y[2 * h])} :: h < g ==> RealPart(x, h, y[2 * h])
  }

  ghost predicate ImagDone(x: Samples, y: Layout, g: nat)
    requires |x| == 4 * |y| && 8 * g <= |x|
  {
    forall h: nat {:trigger ImagPart(x, h, y[2 * h + 1])} :: h < g ==> ImagPart(x, h, y[2 * h + 1])
  }

  /** Writing group g of the real parts leaves the groups before it alone. */
  method StoreReal(obuf: array<real>, g: nat, v: Quad, ghost y: Layout)
    requires obuf.Length == 4 * |y| && 8 * g + 8 <= obuf.Length && v == y[2 * g]
    requires RealDone(obuf[..], y, g)
    modifies obuf
    ensures RealDone(obuf[..], y, g + 1)
  {
    ghost var before := obuf[..];
    obuf[4 * g], obuf[4 * g + 1], obuf[4 * g + 2], obuf[4 * g + 3] := v.e0, v.e1, v.e2, v.e3;
    forall h: nat | h < g + 1
      ensures RealPart(obuf[..], h, y[2 * h])
    {
      if h < g {
        assert RealPart(before, h, y[2 * h]);
      }
    }
  }

  /** Writing group g of the imaginary parts leaves the real parts and the groups before it alone. */
  method StoreImag(obuf: array<real>, g: nat, v: Quad, ghost y: Layout)
    requires obuf.Length == 4 * |y| && Divided(obuf.Length) && 8 * g + 8 <= obuf.Length && v == y[2 * g + 1]
    requires RealDone(obuf[..], y, obuf.Length / 8) && ImagDone(obuf[..], y, g)
    modifies obuf
    ensures RealDone(obuf[..], y, obuf.Length / 8) && ImagDone(obuf[..], y, g + 1)
  {
    var n := obuf.Length;
    ghost var before := obuf[..];
    obuf[if g == 0 then n / 2 else n - 4 * g] := v.e0;
    obuf[n - 4 * g - 1], obuf[n - 4 * g - 2], obuf[n - 4 * g - 3] := v.e1, v.e2, v.e3;
    forall h: nat | h < n / 8
      ensures RealPart(obuf[..], h, y[2 * h])
    {
      assert RealPart(before, h, y[2 * h]);
    }
    forall h: nat | h < g + 1
      ensures ImagPart(obuf[..], h, y[2 * h + 1])
    {
      if h < g {
        assert ImagPart(before, h, y[2 * h + 1]);
      }
    }
  }

  /** Mixes layout-order spectra into an ordered buffer: real parts upwards, imaginary parts downwards. */
  method MixScaleOutput(ibufs: seq<Layout>, scales: seq<real>, obuf: array<real>)
    requires Divided(obuf.Length) && SameLayoutLength(ibufs, scales, obuf.Length)
    modifies obuf
    ensures IsLayoutOf(MixLayouts(ibufs, scales, obuf.Length), obuf[..])
  {
    var n := obuf.Length;
    ghost var y := MixLayouts(ibufs, scales, n);
    var g := 0;
    while g < n / 8
      invariant 0 <= g <= n / 8
      invariant RealDone(obuf[..], y, g)
    {
      var v := MixLanes(ibufs, scales, 2 * g, n);
      StoreReal(obuf, g, v, y);
      g := g + 1;
    }
    g := 0;
    while g < n / 8
      invariant 0 <= g <= n / 8
      invariant RealDone(obuf[..], y, n / 8) && ImagDone(obuf[..], y, g)
    {
      var v := MixLanes(ibufs, scales, 2 * g + 1, n);
      StoreImag(obuf, g, v, y);
      g := g + 1;
    }
    DoneIsLayout(obuf[..], y);
  }

  lemma {:induction false} DoneIsLayout(x: Samples, y: Layout)
    requires Divided(|x|) && |x| == 4 * |y| && RealDone(x, y, |x| / 8) && ImagDone(x, y, |x| / 8)
    ensures IsLayoutOf(y, x)
  {
    forall h: nat | 8 * h + 8 <= |x|
      ensures y[2 * h] == RealQuad(x, h) && y[2 * h + 1] == ImagQuad(x, h)
    {
      assert RealPart(x, h, y[2 * h]) && ImagPart(x, h, y[2 * h + 1]);
    }
  }

  // ----- products -----

  function MulQuad(a: Quad, b: Quad): Quad {
    Quad(a.e0 * b.e0, a.e1 * b.e1, a.e2 * b.e2, a.e3 * b.e3)
  }

  function AddQuad(a: Quad, b: Quad): Quad {
    Quad(a.e0 + b.e0, a.e1 + b.e1, a.e2 + b.e2, a.e3 + b.e3)
  }

  function SubQuad(a: Quad, b: Quad): Quad {
    Quad(a.e0 - b.e0, a.e1 - b.e1, a.e2 - b.e2, a.e3 - b.e3)
  }

  /** Real parts of four complex products. */
  function MulReal(b0: Quad, b1: Quad, c0: Quad, c1: Quad): Quad {
    SubQuad(MulQuad(b0, c0), MulQuad(b1, c1))
  }

  /** Imaginary parts of four complex products. */
  function MulImag(b0: Quad, b1: Quad, c0: Quad, c1: Quad): Quad {
    AddQuad(MulQuad(b0, c1), MulQuad(b1, c0))
  }

  /** The product in the first place of two quads: frequencies 0 and n/2 are real. */
  function FirstProduct(u: Quad, v: Quad): real {
    u.e0 * v.e0
  }

  predicate Multipliable(b: Layout, c: Layout) {
    |b| == |c| && 0 < |b| && |b| % 2 == 0
  }

  function Paired(q: nat): (p: nat)
    ensures q % 2 == 0 ==> p == q + 1
    ensures q % 2 == 1 ==> p == q - 1
  {
    if q % 2 == 0 then q + 1 else q - 1
  }

  /** Quad q of the product when every place is taken for a complex number. */
  function RawQuad(b: Layout, c: Layout, q: nat): Quad
    requires Multipliable(b, c) && q < |b|
  {
    var p := Paired(q);
    if q % 2 == 0 then MulReal(b[q], b[p], c[q], c[p]) else MulImag(b[p], b[q], c[p], c[q])
  }

  /** Quad q of the product: frequency 0 and frequency n/2, in its first place, are real. */
  function ProductQuad(b: Layout, c: Layout, q: nat): Quad
    requires Multipliable(b, c) && q < |b|
  {
    if q < 2 then RawQuad(b, c, q).(e0 := FirstProduct(b[q], c[q])) else RawQuad(b, c, q)
  }

  function RawProduct(b: Layout, c: Layout): (d: Layout)
    requires Multipliable(b, c)
    ensures |d| == |b|
  {
    seq(|b|, q requires 0 <= q < |b| => RawQuad(b, c, q))
  }

  lemma {:induction false} RawAt(b: Layout, c: Layout, q: nat)
    requires Multipliable(b, c) && q < |b|
    ensures RawProduct(b, c)[q] == RawQuad(b, c, q)
  {
  }

  /** The product in layout order. */
  function Product(b: Layout, c: Layout): (d: Layout)
    requires Multipliable(b, c)
    ensures |d| == |b|
  {
    seq(|b|, q requires 0 <= q < |b| => ProductQuad(b, c, q))
  }

  function AddLayouts(e: Layout, y: Layout): (d: Layout)
    requires |e| == |y|
    ensures |d| == |e| && forall q :: 0 <= q < |d| ==> d[q] == AddQuad(e[q], y[q])
  {
    seq(|e|, q requires 0 <= q < |e| => AddQuad(e[q], y[q]))
  }

  lemma {:induction false} RealProductAt(b: Layout, c: Layout, x: Samples, y: Samples, g: nat)
    requires |x| == |y| && IsLayoutOf(b, x) && IsLayoutOf(c, y) && 8 * g + 8 <= |x|
    ensures ProductQuad(b, c, 2 * g) == RealQuad(OrderedProduct(x, y), g)
  {
    assert b[2 * g] == RealQuad(x, g) && b[2 * g + 1] == ImagQuad(x, g);
    assert c[2 * g] == RealQuad(y, g) && c[2 * g + 1] == ImagQuad(y, g);
    var z, v := OrderedProduct(x, y), ProductQuad(b, c, 2 * g);
    assert z[4 * g] == v.e0;
    assert z[4 * g + 1] == v.e1;
    assert z[4 * g + 2] == v.e2;
    assert z[4 * g + 3] == v.e3;
  }

  function Cross(a: real, b: real, c: real, d: real): real {
    a * b + c * d
  }

  /** The imaginary part of frequency f. */
  lemma {:induction false} UpperAt(x: Samples, y: Samples, f: nat)
    requires |x| == |y| && 0 < f && 2 * f < |x|
    ensures OrderedProduct(x, y)[|x| - f] == Cross(x[f], y[|x| - f], x[|x| - f], y[f])
  {
    assert |x| - (|x| - f) == f;
    assert OrderedProduct(x, y)[|x| - f] == OrderedAt(x, y, |x| - f);
  }

  function CrossQuad(b0: Quad, b1: Quad, c0: Quad, c1: Quad): Quad {
    Quad(Cross(b0.e0, c1.e0, b1.e0, c0.e0), Cross(b0.e1, c1.e1, b1.e1, c0.e1),
         Cross(b0.e2, c1.e2, b1.e2, c0.e2), Cross(b0.e3, c1.e3, b1.e3, c0.e3))
  }

  lemma {:induction false} CrossLanes(b0: Quad, b1: Quad, c0: Quad, c1: Quad)
    ensures MulImag(b0, b1, c0, c1) == CrossQuad(b0, b1, c0, c1)
  {
  }

  lemma {:induction false} ImagProductAt(b: Layout, c: Layout, x: Samples, y: Samples, g: nat)
    requires |x| == |y| && IsLayoutOf(b, x) && IsLayoutOf(c, y) && 8 * g + 8 <= |x|
    ensures ProductQuad(b, c, 2 * g + 1) == ImagQuad(OrderedProduct(x, y), g)
  {
    var b0, b1, c0, c1 := RealQuad(x, g), ImagQuad(x, g), RealQuad(y, g), ImagQuad(y, g);
    assert b[2 * g] == b0 && b[2 * g + 1] == b1 && c[2 * g] == c0 && c[2 * g + 1] == c1;
    assert RawQuad(b, c, 2 * g + 1) == MulImag(b0, b1, c0, c1);
    CrossLanes(b0, b1, c0, c1);
    if g > 0 {
      UpperQuad(x, y, g);
    } else {
      FirstUpperQuad(x, y);
    }
  }

  lemma {:induction false} UpperQuad(x: Samples, y: Samples, g: nat)
    requires |x| == |y| && 0 < g && 8 * g + 8 <= |x|
    ensures ImagQuad(OrderedProduct(x, y), g)
         == CrossQuad(RealQuad(x, g), ImagQuad(x, g), RealQuad(y, g), ImagQuad(y, g))
  {
    UpperAt(x, y, 4 * g);
    UpperAt(x, y, 4 * g + 1);
    UpperAt(x, y, 4 * g + 2);
    UpperAt(x, y, 4 * g + 3);
  }

  /** Frequency n/2 is real. */
  lemma {:induction false} FirstUpperQuad(x: Samples, y: Samples)
    requires |x| == |y| && 8 <= |x| && |x| % 2 == 0
    ensures ImagQuad(OrderedProduct(x, y), 0)
         == CrossQuad(RealQuad(x, 0), ImagQuad(x, 0), RealQuad(y, 0),
                      ImagQuad(y, 0)).(e0 := FirstProduct(ImagQuad(x, 0), ImagQuad(y, 0)))
  {
    UpperAt(x, y, 1);
    UpperAt(x, y, 2);
    UpperAt(x, y, 3);
    assert OrderedProduct(x, y)[|x| / 2] == OrderedAt(x, y, |x| / 2) == FirstProduct(ImagQuad(x, 0), ImagQuad(y, 0));
  }

  /** Multiplying in layout order is multiplying ordered half-complex spectra. */
  lemma {:induction false} ProductOfLayouts(b: Layout, c: Layout, x: Samples, y: Samples)
    requires |x| == |y| && IsLayoutOf(b, x) && IsLayoutOf(c, y)
    ensures IsLayoutOf(Product(b, c), OrderedProduct(x, y))
  {
    var d, z := Product(b, c), OrderedProduct(x, y);
    forall g: nat | 8 * g + 8 <= |x|
      ensures d[2 * g] == RealQuad(z, g) && d[2 * g + 1] == ImagQuad(z, g)
    {
      RealProductAt(b, c, x, y, g);
      ImagProductAt(b, c, x, y, g);
    }
  }

  // ----- convolution loops -----

  /** The first i entries hold the final values y, the others still hold e. */
  ghost predicate Filled<T>(d: seq<T>, y: seq<T>, e: seq<T>, i: nat) {
    |d| == |y| == |e| && i <= |d| && d[..i] == y[..i] && d[i..] == e[i..]
  }

  lemma {:induction false} FilledAt<T>(d: seq<T>, y: seq<T>, e: seq<T>, i: nat, q: nat)
    requires Filled(d, y, e, i) && i <= q < |d|
    ensures d[q] == e[q]
  {
    assert d[q] == d[i..][q - i];
  }

  method StorePair<T>(d: array<T>, i: nat, u: T, v: T, ghost y: seq<T>, ghost e: seq<T>)
    requires Filled(d[..], y, e, i) && i + 2 <= d.Length && u == y[i] && v == y[i + 1]
    modifies d
    ensures Filled(d[..], y, e, i + 2)
  {
    d[i] := u;
    d[i + 1] := v;
    assert y[..i + 2] == y[..i] + [u, v];
  }

  /** Frequencies 0 and n/2 are put in place after the loop. */
  ghost function WithEnds(d: Layout, s1: real, s2: real): Layout
    requires 2 <= |d|
  {
    d[0 := d[0].(e0 := s1)][1 := d[1].(e0 := s2)]
  }

  method StoreEnds(d: array<Quad>, s1: real, s2: real)
    requires 2 <= d.Length
    modifies d
    ensures d[..] == WithEnds(old(d[..]), s1, s2)
  {
    d[0] := d[0].(e0 := s1);
    d[1] := d[1].(e0 := s2);
  }

  lemma {:induction false} EndsOfProduct(b: Layout, c: Layout)
    requires Multipliable(b, c)
    ensures WithEnds(RawProduct(b, c), FirstProduct(b[0], c[0]), FirstProduct(b[1], c[1])) == Product(b, c)
  {
    var d, y := WithEnds(RawProduct(b, c), FirstProduct(b[0], c[0]), FirstProduct(b[1], c[1])), Product(b, c);
    forall q | 0 <= q < |d|
      ensures d[q] == y[q]
    {
      assert y[q] == ProductQuad(b, c, q);
      RawAt(b, c, q);
    }
  }

  lemma {:induction false} EndsOfSum(e: Layout, b: Layout, c: Layout)
    requires Multipliable(b, c) && |e| == |b|
    ensures WithEnds(AddLayouts(e, RawProduct(b, c)),
                     e[0].e0 + FirstProduct(b[0], c[0]), e[1].e0 + FirstProduct(b[1], c[1]))
         == AddLayouts(e, Product(b, c))
  {
    var raw, y := RawProduct(b, c), Product(b, c);
    EndsOfProduct(b, c);
    var s1, s2 := FirstProduct(b[0], c[0]), FirstProduct(b[1], c[1]);
    EndsOfAdd(e, raw, s1, s2);
  }

  lemma {:induction false} EndsOfAdd(e: Layout, raw: Layout, s1: real, s2: real)
    requires |e| == |raw| >= 2
    ensures WithEnds(AddLayouts(e, raw), e[0].e0 + s1, e[1].e0 + s2) == AddLayouts(e, WithEnds(raw, s1, s2))
  {
    var d, y := WithEnds(AddLayouts(e, raw), e[0].e0 + s1, e[1].e0 + s2), AddLayouts(e, WithEnds(raw, s1, s2));
    forall q | 0 <= q < |d|
      ensures d[q] == y[q]
    {
    }
  }

  lemma {:induction false} RawGroup(b: Layout, c: Layout, i: nat)
    requires Multipliable(b, c) && i + 2 <= |b| && i % 2 == 0
    ensures RawProduct(b, c)[i] == MulReal(b[i], b[i + 1], c[i], c[i + 1])
    ensures RawProduct(b, c)[i + 1] == MulImag(b[i], b[i + 1], c[i], c[i + 1])
  {
    RawAt(b, c, i);
    RawAt(b, c, i + 1);
  }

  /** The quads of a group of two factors. */
  ghost predicate IsGroup(b: Layout, c: Layout, i: nat, b0: Quad, b1: Quad, c0: Quad, c1: Quad) {
    && Multipliable(b, c) && i + 2 <= |b| && i % 2 == 0
    && b0 == b[i] && b1 == b[i + 1] && c0 == c[i] && c1 == c[i + 1]
  }

  /** Eight reals at a time, each product written out. */
  method MultiplyGroup(b0: Quad, b1: Quad, c0: Quad, c1: Quad, ghost b: Layout, ghost c: Layout, ghost i: nat)
    returns (re: Quad, im: Quad)
    requires IsGroup(b, c, i, b0, b1, c0, c1)
    ensures re == RawProduct(b, c)[i] && im == RawProduct(b, c)[i + 1]
  {
    RawGroup(b, c, i);
    re := Quad(b0.e0 * c0.e0 - b1.e0 * c1.e0, b0.e1 * c0.e1 - b1.e1 * c1.e1,
               b0.e2 * c0.e2 - b1.e2 * c1.e2, b0.e3 * c0.e3 - b1.e3 * c1.e3);
    im := Quad(b0.e0 * c1.e0 + b1.e0 * c0.e0, b0.e1 * c1.e1 + b1.e1 * c0.e1,
               b0.e2 * c1.e2 + b1.e2 * c0.e2, b0.e3 * c1.e3 + b1.e3 * c0.e3);
  }

  /** Adds a pair to what the output held. */
  method AddPair(d: array<Quad>, i: nat, u: Quad, v: Quad, ghost p: Layout, ghost e: Layout)
    requires d.Length == |p| == |e| && i + 2 <= |p| && u == p[i] && v == p[i + 1]
    requires Filled(d[..], AddLayouts(e, p), e, i)
    modifies d
    ensures Filled(d[..], AddLayouts(e, p), e, i + 2)
  {
    FilledAt(d[..], AddLayouts(e, p), e, i, i);
    FilledAt(d[..], AddLayouts(e, p), e, i, i + 1);
    StorePair(d, i, AddQuad(d[i], u), AddQuad(d[i + 1], v), AddLayouts(e, p), e);
  }

  method StoreGroup(b: Layout, c: Layout, d: array<Quad>, i: nat, ghost y: Layout, ghost e: Layout)
    requires Multipliable(b, c) && d.Length == |b| && i + 2 <= |b| && i % 2 == 0 && y == RawProduct(b, c)
    requires Filled(d[..], y, e, i)
    modifies d
    ensures Filled(d[..], y, e, i + 2)
  {
    var re, im := MultiplyGroup(b[i], b[i + 1], c[i], c[i + 1], b, c, i);
    StorePair(d, i, re, im, y, e);
  }

  method ConvolveLoop(b: Layout, c: Layout, d: array<Quad>)
    requires Multipliable(b, c) && d.Length == |b|
    modifies d
    ensures d[..] == RawProduct(b, c)
  {
    ghost var y, e := RawProduct(b, c), d[..];
    var i := 0;
    while i < d.Length
      invariant 0 <= i <= d.Length && i % 2 == 0
      invariant Filled(d[..], y, e, i)
    {
      StoreGroup(b, c, d, i, y, e);
      i := i + 2;
    }
  }

  method Convolve(b: Layout, c: Layout, d: array<Quad>)
    requires Multipliable(b, c) && d.Length == |b|
    modifies d
    ensures d[..] == Product(b, c)
  {
    var d1s, d2s := FirstProduct(b[0], c[0]), FirstProduct(b[1], c[1]);
    ConvolveLoop(b, c, d);
    StoreEnds(d, d1s, d2s);
    EndsOfProduct(b, c);
  }

  method InplaceLoop(b: array<Quad>, c: Layout, ghost e: Layout)
    requires e == b[..] && Multipliable(e, c)
    modifies b
    ensures b[..] == RawProduct(e, c)
  {
    ghost var y := RawProduct(e, c);
    var i := 0;
    while i < b.Length
      invariant 0 <= i <= b.Length && i % 2 == 0
      invariant Filled(b[..], y, e, i)
    {
      FilledAt(b[..], y, e, i, i);
      FilledAt(b[..], y, e, i, i + 1);
      var a := b[i];
      var re, im := MultiplyGroup(a, b[i + 1], c[i], c[i + 1], e, c, i);
      StorePair(b, i, re, im, y, e);
      i := i + 2;
    }
  }

  /** The same, overwriting the first factor group by group. */
  method ConvolveInplace(b: array<Quad>, c: Layout)
    requires Multipliable(b[..], c)
    modifies b
    ensures b[..] == Product(old(b[..]), c)
  {
    ghost var e := b[..];
    var d1s, d2s := FirstProduct(b[0], c[0]), FirstProduct(b[1], c[1]);
    InplaceLoop(b, c, e);
    StoreEnds(b, d1s, d2s);
    EndsOfProduct(e, c);
  }

  method AddLoop(b: Layout, c: Layout, d: array<Quad>)
    requires Multipliable(b, c) && d.Length == |b|
    modifies d
    ensures d[..] == AddLayouts(old(d[..]), RawProduct(b, c))
  {
    ghost var p, e := RawProduct(b, c), d[..];
    var i := 0;
    while i < d.Length
      invariant 0 <= i <= d.Length && i % 2 == 0
      invariant Filled(d[..], AddLayouts(e, p), e, i)
    {
      var re, im := MultiplyGroup(b[i], b[i + 1], c[i], c[i + 1], b, c, i);
      AddPair(d, i, re, im, p, e);
      i := i + 2;
    }
  }

  /** Adds the product to what the output holds. */
  method ConvolveAdd(b: Layout, c: Layout, d: array<Quad>)
    requires Multipliable(b, c) && d.Length == |b|
    modifies d
    ensures d[..] == AddLayouts(old(d[..]), Product(b, c))
  {
    ghost var e := d[..];
    var d1s, d2s := d[0].e0 + FirstProduct(b[0], c[0]), d[1].e0 + FirstProduct(b[1], c[1]);
    AddLoop(b, c, d);
    StoreEnds(d, d1s, d2s);
    EndsOfSum(e, b, c);
  }

  /** The same products, one four-lane operation at a time. */
  method VectorGroup(b0: Quad, b1: Quad, c0: Quad, c1: Quad, ghost b: Layout, ghost c: Layout, ghost i: nat)
    returns (re: Quad, im: Quad)
    requires IsGroup(b, c, i, b0, b1, c0, c1)
    ensures re == RawProduct(b, c)[i] && im == RawProduct(b, c)[i + 1]
  {
    RawGroup(b, c, i);
    var p00, p11, p01, p10 := MulQuad(b0, c0), MulQuad(b1, c1), MulQuad(b0, c1), MulQuad(b1, c0);
    re := SubQuad(p00, p11);
    im := AddQuad(p01, p10);
  }

  method SseLoop(b: Layout, c: Layout, d: array<Quad>, loopCounter: nat)
    requires Multipliable(b, c) && d.Length == |b| == 2 * loopCounter
    modifies d
    ensures d[..] == AddLayouts(old(d[..]), RawProduct(b, c))
  {
    ghost var p, e := RawProduct(b, c), d[..];
    var i := 0;
    while i < loopCounter
      invariant 0 <= i <= loopCounter
      invariant Filled(d[..], AddLayouts(e, p), e, 2 * i)
    {
      var n := 2 * i;
      var re, im := VectorGroup(b[n], b[n + 1], c[n], c[n + 1], b, c, n);
      AddPair(d, n, re, im, p, e);
      i := i + 1;
    }
  }

  /** The four-lane vector form. */
  method SseConvolveAdd(b: Layout, c: Layout, d: array<Quad>, loopCounter: nat)
    requires Multipliable(b, c) && d.Length == |b| == 2 * loopCounter
    modifies d
    ensures d[..] == AddLayouts(old(d[..]), Product(b, c))
  {
    ghost var e := d[..];
    var d1s, d2s := d[0].e0 + FirstProduct(b[0], c[0]), d[1].e0 + FirstProduct(b[1], c[1]);
    SseLoop(b, c, d, loopCounter);
    StoreEnds(d, d1s, d2s);
    EndsOfSum(e, b, c);
  }
}
