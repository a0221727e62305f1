/** What the spectral buffers mean: every operation on layout-order buffers is an operation
    on the time sequences whose half-complex spectra they hold.

    The partitioned filter (module PartitionedFir) computes with the time sequences themselves;
    these lemmas justify each of its operations. */
module Representation {
  import opened Sums
  import opened Convolution
  import opened Spectrum
  import opened SpectrumLayout
  import opened SpectrumForms
  import opened PartitionedFir

  /** Buffer b holds, in layout order, the half-complex spectrum of x. */
  ghost predicate Represents(tw: Twiddles, b: Layout, x: Samples) {
    tw.Valid() && Divided(tw.n) && |x| == tw.n && IsLayoutOf(b, HalfComplex(tw, x))
  }

  lemma {:induction false} RepresentsMultipliable(tw: Twiddles, b: Layout, x: Samples, c: Layout, h: Samples)
    requires Represents(tw, b, x) && Represents(tw, c, h)
    ensures Multipliable(b, c)
  {
    assert tw.n == 8 * (tw.n / 8);
    assert |b| == 2 * (tw.n / 8);
  }

  /** Multiplying buffers convolves the sequences, circularly. */
  lemma {:induction false} ProductRepresents(tw: Twiddles, b: Layout, x: Samples, c: Layout, h: Samples)
    requires Represents(tw, b, x) && Represents(tw, c, h)
    ensures Multipliable(b, c) && Represents(tw, Product(b, c), Circ(x, h))
  {
    RepresentsMultipliable(tw, b, x, c, h);
    ProductOfLayouts(b, c, HalfComplex(tw, x), HalfComplex(tw, h));
    SpectrumOfCirc(tw, x, h);
  }

  // ----- sums -----

  lemma {:induction false} TransformOfAdd(x: Samples, y: Samples, f: int -> real)
    requires |x| == |y|
    ensures Transform(Add(x, y), f) == Transform(x, f) + Transform(y, f)
  {
    forall j | 0 <= j < |x|
      ensures TransformTerm(Add(x, y), f)(j) == TransformTerm(x, f)(j) + TransformTerm(y, f)(j)
    {
      AddTimes(x[j], y[j], f(j));
    }
    SumAdd(|x|, TransformTerm(x, f), TransformTerm(y, f), TransformTerm(Add(x, y), f));
  }

  lemma {:induction false} AddTimes(a: real, b: real, c: real)
    ensures (a + b) * c == a * c + b * c
  {
  }

  lemma {:induction false} SpectrumOfAdd(tw: Twiddles, x: Samples, y: Samples)
    requires |x| == |y|
    ensures HalfComplex(tw, Add(x, y)) == Add(HalfComplex(tw, x), HalfComplex(tw, y))
  {
    var z, w := HalfComplex(tw, Add(x, y)), Add(HalfComplex(tw, x), HalfComplex(tw, y));
    forall k | 0 <= k < |x|
      ensures z[k] == w[k]
    {
      TransformOfAdd(x, y, tw.CosWave(k));
      TransformOfAdd(x, y, tw.SinWave(|x| - k));
    }
  }

  lemma {:induction false} AddedQuads(u: Samples, v: Samples, g: nat)
    requires |u| == |v| && 8 * g + 8 <= |u|
    ensures RealQuad(Add(u, v), g) == AddQuad(RealQuad(u, g), RealQuad(v, g))
    ensures ImagQuad(Add(u, v), g) == AddQuad(ImagQuad(u, g), ImagQuad(v, g))
  {
    var w, n := Add(u, v), |u|;
    assert w[4 * g] == u[4 * g] + v[4 * g] && w[4 * g + 1] == u[4 * g + 1] + v[4 * g + 1];
    assert w[4 * g + 2] == u[4 * g + 2] + v[4 * g + 2] && w[4 * g + 3] == u[4 * g + 3] + v[4 * g + 3];
    var k := if g == 0 then n / 2 else n - 4 * g;
    assert w[k] == u[k] + v[k];
  }

  /** Adding buffers adds the sequences. */
  lemma {:induction false} SumRepresents(tw: Twiddles, d: Layout, x: Samples, e: Layout, y: Samples)
    requires Represents(tw, d, x) && Represents(tw, e, y)
    ensures |d| == |e| && Represents(tw, AddLayouts(d, e), Add(x, y))
  {
    var u, v := HalfComplex(tw, x), HalfComplex(tw, y);
    SpectrumOfAdd(tw, x, y);
    forall g: nat | 8 * g + 8 <= tw.n
      ensures AddLayouts(d, e)[2 * g] == RealQuad(Add(u, v), g) && AddLayouts(d, e)[2 * g + 1] == ImagQuad(Add(u, v), g)
    {
      AddedQuads(u, v, g);
      assert d[2 * g] == RealQuad(u, g) && d[2 * g + 1] == ImagQuad(u, g);
      assert e[2 * g] == RealQuad(v, g) && e[2 * g + 1] == ImagQuad(v, g);
    }
  }

  // ----- mixing -----

  function Spectra(tw: Twiddles, xs: seq<Samples>): (ys: seq<Samples>)
    ensures |ys| == |xs| && forall i :: 0 <= i < |xs| ==> ys[i] == HalfComplex(tw, xs[i])
  {
    seq(|xs|, i requires 0 <= i < |xs| => HalfComplex(tw, xs[i]))
  }

  ghost predicate AllOfLength(xs: seq<Samples>, n: nat) {
    forall i :: 0 <= i < |xs| ==> |xs[i]| == n
  }

  function MixCell(xs: seq<Samples>, scales: seq<real>, f: int -> real): (int, int) -> real {
    (j, i) => MixTerm(xs, scales, j)(i) * f(j)
  }

  function MixColumn(xs: seq<Samples>, scales: seq<real>, f: int -> real): int -> real {
    i => if 0 <= i < |xs| then Transform(xs[i], f) * At(scales, i) else 0.0
  }

  lemma {:induction false} MixCellAt(xs: seq<Samples>, scales: seq<real>, f: int -> real, j: nat, i: nat)
    requires i < |xs|
    ensures MixCell(xs, scales, f)(j, i) == f(j) * MixTerm(xs, scales, j)(i)
    ensures MixCell(xs, scales, f)(j, i) == At(scales, i) * TransformTerm(xs[i], f)(j)
  {
    var a, b, c := At(xs[i], j), At(scales, i), f(j);
    assert MixTerm(xs, scales, j)(i) == a * b;
    assert TransformTerm(xs[i], f)(j) == a * c;
    Commute(a, b, c);
  }

  lemma {:induction false} Commute(a: real, b: real, c: real)
    ensures (a * b) * c == c * (a * b) == b * (a * c)
  {
  }

  lemma {:induction false} MixRow(xs: seq<Samples>, scales: seq<real>, n: nat, f: int -> real, j: nat)
    requires j < n
    ensures TransformTerm(Mix(xs, scales, n), f)(j) == Sum(|xs|, i => MixCell(xs, scales, f)(j, i))
  {
    var g := i => MixCell(xs, scales, f)(j, i);
    forall i | 0 <= i < |xs|
      ensures g(i) == f(j) * MixTerm(xs, scales, j)(i)
    {
      MixCellAt(xs, scales, f, j, i);
    }
    SumScale(|xs|, f(j), MixTerm(xs, scales, j), g);
    SumEq(|xs|, g, i => MixCell(xs, scales, f)(j, i));
  }

  lemma {:induction false} MixColumnAt(xs: seq<Samples>, scales: seq<real>, n: nat, f: int -> real, i: nat)
    requires AllOfLength(xs, n) && i < |xs|
    ensures MixColumn(xs, scales, f)(i) == Sum(n, j => MixCell(xs, scales, f)(j, i))
  {
    var g := j => MixCell(xs, scales, f)(j, i);
    forall j | 0 <= j < n
      ensures g(j) == At(scales, i) * TransformTerm(xs[i], f)(j)
    {
      MixCellAt(xs, scales, f, j, i);
    }
    SumScale(n, At(scales, i), TransformTerm(xs[i], f), g);
    SumEq(n, g, j => MixCell(xs, scales, f)(j, i));
  }

  /** The transform of a mix is the mix of the transforms. */
  lemma {:induction false} TransformOfMix(xs: seq<Samples>, scales: seq<real>, n: nat, f: int -> real)
    requires AllOfLength(xs, n)
    ensures Transform(Mix(xs, scales, n), f) == Sum(|xs|, MixColumn(xs, scales, f))
  {
    var row, col, cell := TransformTerm(Mix(xs, scales, n), f), MixColumn(xs, scales, f), MixCell(xs, scales, f);
    forall j | 0 <= j < n
      ensures row(j) == Sum(|xs|, i => cell(j, i))
    {
      MixRow(xs, scales, n, f, j);
    }
    forall i | 0 <= i < |xs|
      ensures col(i) == Sum(n, j => cell(j, i))
    {
      MixColumnAt(xs, scales, n, f, i);
    }
    SumSwap(n, |xs|, cell, row, col);
  }

  lemma {:induction false} RealEntries(tw: Twiddles, xs: seq<Samples>, scales: seq<real>, n: nat, k: nat)
    requires AllOfLength(xs, n) && k < n && k <= n / 2
    ensures Sum(|xs|, MixTerm(Spectra(tw, xs), scales, k)) == Sum(|xs|, MixColumn(xs, scales, tw.CosWave(k)))
  {
    var col, t := MixColumn(xs, scales, tw.CosWave(k)), MixTerm(Spectra(tw, xs), scales, k);
    forall i | 0 <= i < |xs|
      ensures t(i) == col(i)
    {
      assert Spectra(tw, xs)[i][k] == Transform(xs[i], tw.CosWave(k));
    }
    SumEq(|xs|, t, col);
  }

  lemma {:induction false} ImaginaryEntries(tw: Twiddles, xs: seq<Samples>, scales: seq<real>, n: nat, k: nat)
    requires AllOfLength(xs, n) && n / 2 < k < n
    ensures Sum(|xs|, MixTerm(Spectra(tw, xs), scales, k)) == -Sum(|xs|, MixColumn(xs, scales, tw.SinWave(n - k)))
  {
    var col, t := MixColumn(xs, scales, tw.SinWave(n - k)), MixTerm(Spectra(tw, xs), scales, k);
    forall i | 0 <= i < |xs|
      ensures t(i) == -1.0 * col(i)
    {
      var v := Transform(xs[i], tw.SinWave(n - k));
      assert Spectra(tw, xs)[i][k] == -v;
      TimesNegative(v, At(scales, i));
    }
    SumScale(|xs|, -1.0, col, t);
  }

  lemma {:induction false} SpectrumOfMixAt(tw: Twiddles, xs: seq<Samples>, scales: seq<real>, n: nat, k: nat)
    requires AllOfLength(xs, n) && k < n
    ensures HalfComplex(tw, Mix(xs, scales, n))[k] == Mix(Spectra(tw, xs), scales, n)[k]
  {
    if k <= n / 2 {
      TransformOfMix(xs, scales, n, tw.CosWave(k));
      RealEntries(tw, xs, scales, n, k);
    } else {
      TransformOfMix(xs, scales, n, tw.SinWave(n - k));
      ImaginaryEntries(tw, xs, scales, n, k);
    }
  }

  lemma {:induction false} SpectrumOfMix(tw: Twiddles, xs: seq<Samples>, scales: seq<real>, n: nat)
    requires AllOfLength(xs, n)
    ensures HalfComplex(tw, Mix(xs, scales, n)) == Mix(Spectra(tw, xs), scales, n)
  {
    var y, z := HalfComplex(tw, Mix(xs, scales, n)), Mix(Spectra(tw, xs), scales, n);
    forall k | 0 <= k < n
      ensures y[k] == z[k]
    {
      SpectrumOfMixAt(tw, xs, scales, n, k);
    }
  }

  /** Mixing ordered spectra into a layout buffer mixes the sequences. */
  lemma {:induction false} InputMixRepresents(tw: Twiddles, b: Layout, xs: seq<Samples>, scales: seq<real>)
    requires tw.Valid() && Divided(tw.n) && AllOfLength(xs, tw.n)
    requires IsLayoutOf(b, Mix(Spectra(tw, xs), scales, tw.n))
    ensures Represents(tw, b, Mix(xs, scales, tw.n))
  {
    SpectrumOfMix(tw, xs, scales, tw.n);
  }

  ghost predicate AllRepresent(tw: Twiddles, bs: seq<Layout>, xs: seq<Samples>) {
    |bs| == |xs| && forall i :: 0 <= i < |bs| ==> Represents(tw, bs[i], xs[i])
  }

  /** Lane j of quad q of a layout holds one entry of the ordered spectrum. */
  function Place(n: nat, q: nat, j: nat): int {
    if q % 2 == 0 then 4 * (q / 2) + j
    else if q == 1 && j == 0 then n / 2
    else n - 4 * (q / 2) - j
  }

  lemma {:induction false} PlaceInRange(n: nat, q: nat, j: nat)
    requires Divided(n) && 4 * q < n && j < 4
    ensures 0 <= Place(n, q, j) < n
  {
  }

  lemma {:induction false} LaneHolds(b: Layout, x: Samples, q: nat, j: nat)
    requires IsLayoutOf(b, x) && q < |b| && j < 4
    ensures 0 <= Place(|x|, q, j) < |x| && Lane(b[q], j) == x[Place(|x|, q, j)]
  {
    var g := q / 2;
    assert 8 * g + 8 <= |x|;
    assert b[2 * g] == RealQuad(x, g) && b[2 * g + 1] == ImagQuad(x, g);
    assert q == 2 * g || q == 2 * g + 1;
  }

  lemma {:induction false} MixLaneHolds(tw: Twiddles, bs: seq<Layout>, xs: seq<Samples>, scales: seq<real>, q: nat,
                                        j: nat)
    requires AllRepresent(tw, bs, xs) && |bs| == |scales| > 0 && 4 * q < tw.n && j < 4
    ensures 0 <= Place(tw.n, q, j) < tw.n
    ensures forall i :: 0 <= i < |bs| ==> q < |bs[i]|
    ensures MixLane(bs, scales, q, j) == Mix(Spectra(tw, xs), scales, tw.n)[Place(tw.n, q, j)]
  {
    assert Represents(tw, bs[0], xs[0]);
    PlaceInRange(tw.n, q, j);
    var k, ys := Place(tw.n, q, j), Spectra(tw, xs);
    forall i | 0 <= i < |bs|
      ensures q < |bs[i]|
    {
      assert Represents(tw, bs[i], xs[i]);
    }
    var f, g := DotTerm(LaneColumn(bs, q, j), scales), MixTerm(ys, scales, k);
    forall i | 0 <= i < |bs|
      ensures f(i) == g(i)
    {
      assert Represents(tw, bs[i], xs[i]);
      LaneHolds(bs[i], ys[i], q, j);
    }
    SumEq(|bs|, f, g);
  }

  lemma {:induction false} PlaceOfQuad(x: Samples, q: nat, j: nat)
    requires Divided(|x|) && 4 * q < |x| && j < 4
    ensures 0 <= Place(|x|, q, j) < |x| && Lane(QuadAt(x, q), j) == x[Place(|x|, q, j)]
  {
    PlaceInRange(|x|, q, j);
    assert 2 * (q / 2) == q || 2 * (q / 2) + 1 == q;
  }

  lemma {:induction false} SameLanes(u: Quad, v: Quad)
    requires Lane(u, 0) == Lane(v, 0) && Lane(u, 1) == Lane(v, 1) && Lane(u, 2) == Lane(v, 2)
    requires Lane(u, 3) == Lane(v, 3)
    ensures u == v
  {
  }

  lemma {:induction false} MixLaneAt(tw: Twiddles, bs: seq<Layout>, xs: seq<Samples>, scales: seq<real>, q: nat, j: nat)
    requires AllRepresent(tw, bs, xs) && |bs| == |scales| > 0 && Divided(tw.n) && 4 * q < tw.n && j < 4
    ensures forall i :: 0 <= i < |bs| ==> q < |bs[i]|
    ensures Lane(MixQuad(bs, scales, q), j) == Lane(QuadAt(Mix(Spectra(tw, xs), scales, tw.n), q), j)
  {
    MixLaneHolds(tw, bs, xs, scales, q, j);
    PlaceOfQuad(Mix(Spectra(tw, xs), scales, tw.n), q, j);
  }

  lemma {:induction false} MixQuadHolds(tw: Twiddles, bs: seq<Layout>, xs: seq<Samples>, scales: seq<real>, q: nat)
    requires AllRepresent(tw, bs, xs) && |bs| == |scales| > 0 && Divided(tw.n) && 4 * q < tw.n
    ensures forall i :: 0 <= i < |bs| ==> q < |bs[i]|
    ensures MixQuad(bs, scales, q) == QuadAt(Mix(Spectra(tw, xs), scales, tw.n), q)
  {
    MixLaneAt(tw, bs, xs, scales, q, 0);
    MixLaneAt(tw, bs, xs, scales, q, 1);
    MixLaneAt(tw, bs, xs, scales, q, 2);
    MixLaneAt(tw, bs, xs, scales, q, 3);
    SameLanes(MixQuad(bs, scales, q), QuadAt(Mix(Spectra(tw, xs), scales, tw.n), q));
  }

  /** Mixing layout buffers quad by quad gives the layout of the mixed spectra. */
  lemma {:induction false} MixedLayouts(tw: Twiddles, bs: seq<Layout>, xs: seq<Samples>, scales: seq<real>)
    requires AllRepresent(tw, bs, xs) && SameLayoutLength(bs, scales, tw.n) && Divided(tw.n)
    ensures IsLayoutOf(MixLayouts(bs, scales, tw.n), Mix(Spectra(tw, xs), scales, tw.n))
  {
    var y, z := MixLayouts(bs, scales, tw.n), Mix(Spectra(tw, xs), scales, tw.n);
    forall q | 0 <= q < |y|
      ensures y[q] == ToLayout(z)[q]
    {
      MixQuadHolds(tw, bs, xs, scales, q);
    }
    assert y == ToLayout(z);
    ToLayoutIsLayout(z);
  }

  /** Mixing layout buffers into an ordered buffer leaves there the spectrum of the mixed sequences. */
  lemma {:induction false} OutputMixRepresents(tw: Twiddles, bs: seq<Layout>, xs: seq<Samples>, scales: seq<real>,
                                               obuf: Samples)
    requires AllRepresent(tw, bs, xs) && SameLayoutLength(bs, scales, tw.n) && Divided(tw.n)
    requires |obuf| == tw.n && IsLayoutOf(MixLayouts(bs, scales, tw.n), obuf)
    ensures obuf == HalfComplex(tw, Mix(xs, scales, tw.n))
  {
    var y, z := MixLayouts(bs, scales, tw.n), Mix(Spectra(tw, xs), scales, tw.n);
    MixedLayouts(tw, bs, xs, scales);
    LayoutInjective(y, y, obuf, z);
    forall i | 0 <= i < |xs|
      ensures |xs[i]| == tw.n
    {
      assert Represents(tw, bs[i], xs[i]);
    }
    SpectrumOfMix(tw, xs, scales, tw.n);
  }

  // ----- the unit impulse -----

  /** The cosine of k half turns. */
  lemma {:induction false} HalfTurns(tw: Twiddles, k: nat)
    requires tw.Valid()
    ensures tw.cos(k * (tw.n / 2)) == (if k % 2 == 0 then 1.0 else -1.0)
  {
    var h := tw.n / 2;
    if k > 0 {
      HalfTurns(tw, k - 1);
      HalfTurn(tw, 1);
      var a := (k - 1) * h;
      assert k * h == a + h && h * 1 == h;
      assert tw.Adds(a, h);
    } else {
      assert k * h == 0;
    }
  }

  lemma {:induction false} ImpulseSample(L: nat, i: nat)
    requires 0 < L && i < 2 * L
    ensures At(CoeffSpectrum([1.0], L), i) == (if i == L then Inverse(2 * L) else 0.0)
  {
    assert Padded([1.0], L)[i] == (if i == L then 1.0 else 0.0);
  }

  lemma {:induction false} ZeroTimes(a: real, b: real)
    requires a == 0.0
    ensures a * b == 0.0
  {
  }

  lemma {:induction false} SingleTransform(x: Samples, p: nat, f: int -> real)
    requires p < |x| && forall i {:trigger At(x, i)} :: 0 <= i < |x| && i != p ==> At(x, i) == 0.0
    ensures Transform(x, f) == At(x, p) * f(p)
  {
    var t := TransformTerm(x, f);
    forall i | 0 <= i < |x| && i != p
      ensures t(i) == 0.0
    {
      ZeroTimes(At(x, i), f(i));
    }
    SumSingle(|x|, t, p);
  }

  lemma {:induction false} ImpulseTransform(L: nat, f: int -> real, w: real)
    requires 0 < L && f(L) == w
    ensures Transform(CoeffSpectrum([1.0], L), f) == Inverse(2 * L) * w
  {
    var x := CoeffSpectrum([1.0], L);
    forall i {:trigger At(x, i)} | 0 <= i < |x| && i != L
      ensures At(x, i) == 0.0
    {
      ImpulseSample(L, i);
    }
    ImpulseSample(L, L);
    SingleTransform(x, L, f);
  }

  /** The ordered spectrum of the unit coefficient set alternates in sign. */
  lemma {:induction false} SpectrumOfImpulse(tw: Twiddles)
    requires tw.Valid()
    ensures HalfComplex(tw, CoeffSpectrum([1.0], tw.n / 2)) == ImpulseSpectrum(tw.n, Inverse(tw.n))
  {
    var L := tw.n / 2;
    assert 2 * L == tw.n;
    var y, z := HalfComplex(tw, CoeffSpectrum([1.0], L)), ImpulseSpectrum(tw.n, Inverse(tw.n));
    forall k | 0 <= k < tw.n
      ensures y[k] == z[k]
    {
      if k <= L {
        HalfTurns(tw, k);
        ImpulseTransform(L, tw.CosWave(k), if k % 2 == 0 then 1.0 else -1.0);
      } else {
        HalfTurn(tw, tw.n - k);
        assert (tw.n - k) * L == L * (tw.n - k);
        ImpulseTransform(L, tw.SinWave(tw.n - k), 0.0);
      }
    }
  }

  /** Scaling by alternating signs convolves with the unit coefficient set. */
  lemma {:induction false} DiracRepresents(tw: Twiddles, b: Layout, x: Samples)
    requires Represents(tw, b, x)
    ensures Represents(tw, DiracScaled(b, 1.0 / (4 * |b|) as real), Circ(x, CoeffSpectrum([1.0], tw.n / 2)))
  {
    var h := CoeffSpectrum([1.0], tw.n / 2);
    var c := ToLayout(HalfComplex(tw, h));
    ToLayoutIsLayout(HalfComplex(tw, h));
    SpectrumOfImpulse(tw);
    ProductRepresents(tw, b, x, c, h);
    DiracIsProduct(b, c, tw.n, Inverse(tw.n));
  }
}
