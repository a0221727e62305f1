/** Half-complex transforms: the ordered half-complex product is the transform of the circular convolution.

    The transform is the real-to-half-complex one: entry k <= n/2 is the real part of frequency k,
    entry n - k is its imaginary part. Nothing is needed of cosine and sine but the addition theorems. */
module Spectrum {
  import opened Sums
  import opened Convolution

  // ----- transforms of circular convolutions -----

  function TransformTerm(x: Samples, f: int -> real): int -> real {
    j => At(x, j) * f(j)
  }

  /** The inner product of x with a wave f. */
  function Transform(x: Samples, f: int -> real): real {
    Sum(|x|, TransformTerm(x, f))
  }

  /** Index p + j, wrapped around a buffer of length n. */
  function WrapSum(p: int, j: int, n: int): int {
    if p + j < n then p + j else p + j - n
  }

  function ShiftedTerm(x: Samples, f: int -> real, j: int): int -> real {
    p => At(x, p) * f(WrapSum(p, j, |x|))
  }

  function ColumnTerm(x: Samples, f: int -> real, j: int): int -> real {
    m => At(x, Wrapped(m, j, |x|)) * f(m)
  }

  /** Delaying x by j against the wave is advancing the wave by j against x. */
  lemma {:induction false} ShiftTransform(x: Samples, f: int -> real, j: nat)
    requires j < |x|
    ensures Sum(|x|, ColumnTerm(x, f, j)) == Sum(|x|, ShiftedTerm(x, f, j))
  {
    var n := |x|;
    var g, f' := ColumnTerm(x, f, j), ShiftedTerm(x, f, j);
    var head, tail := i => f'(n - j + i), i => f'(i);
    forall i | 0 <= i < j
      ensures g(i) == head(i)
    {
      assert WrapSum(n - j + i, j, n) == i && Wrapped(i, j, n) == n - j + i;
    }
    forall i | 0 <= i < n - j
      ensures tail(i) == g(j + i)
    {
      assert WrapSum(i, j, n) == j + i && Wrapped(j + i, j, n) == i;
    }
    SumRotate(n, n - j, f', g, head, tail);
  }

  /** What a wave must satisfy: shifted by j it is a combination of two waves. */
  ghost predicate Splits(n: nat, f: int -> real, f1: int -> real, g1: int -> real, f2: int -> real, g2: int -> real) {
    forall p, j {:trigger WrapSum(p, j, n)} :: 0 <= p < n && 0 <= j < n ==>
      f(WrapSum(p, j, n)) == f1(p) * g1(j) + f2(p) * g2(j)
  }

  lemma {:induction false} SplitShifted(x: Samples, f: int -> real, f1: int -> real, g1: int -> real, f2: int -> real,
                                        g2: int -> real, j: nat)
    requires j < |x| && Splits(|x|, f, f1, g1, f2, g2)
    ensures Sum(|x|, ShiftedTerm(x, f, j)) == g1(j) * Transform(x, f1) + g2(j) * Transform(x, f2)
  {
    var h, h1, h2 := ShiftedTerm(x, f, j), TransformTerm(x, f1), TransformTerm(x, f2);
    forall p | 0 <= p < |x|
      ensures h(p) == g1(j) * h1(p) + g2(j) * h2(p)
    {
      var v := At(x, p);
      assert h(p) == v * (f1(p) * g1(j) + f2(p) * g2(j));
      SplitProduct(v, f1(p), g1(j), f2(p), g2(j));
    }
    SumCombine(|x|, g1(j), h1, g2(j), h2, h);
  }

  lemma {:induction false} SplitProduct(x: real, a: real, b: real, c: real, d: real)
    ensures x * (a * b + c * d) == b * (x * a) + d * (x * c)
  {
  }

  function CellTerm(x: Samples, h: Samples, f: int -> real): (int, int) -> real {
    (m, j) => (At(h, j) * At(x, Wrapped(m, j, |x|))) * f(m)
  }

  lemma {:induction false} CellAt(x: Samples, h: Samples, f: int -> real, m: nat, j: nat)
    ensures CellTerm(x, h, f)(m, j) == f(m) * CircTerm(x, h, m)(j)
    ensures CellTerm(x, h, f)(m, j) == At(h, j) * ColumnTerm(x, f, j)(m)
  {
    var a, b, c := At(h, j), At(x, Wrapped(m, j, |x|)), f(m);
    assert CellTerm(x, h, f)(m, j) == (a * b) * c;
    assert CircTerm(x, h, m)(j) == a * b;
    assert ColumnTerm(x, f, j)(m) == b * c;
    ScaleProduct(a, b, c);
  }

  /** Row m of the double sum: sample m of the circular convolution against the wave. */
  lemma {:induction false} CellRow(x: Samples, h: Samples, f: int -> real, m: nat)
    requires |x| == |h| && m < |x|
    ensures TransformTerm(Circ(x, h), f)(m) == Sum(|x|, j => CellTerm(x, h, f)(m, j))
  {
    var g := j => CellTerm(x, h, f)(m, j);
    forall j | 0 <= j < |x|
      ensures g(j) == f(m) * CircTerm(x, h, m)(j)
    {
      CellAt(x, h, f, m, j);
    }
    SumScale(|x|, f(m), CircTerm(x, h, m), g);
    SumEq(|x|, g, j => CellTerm(x, h, f)(m, j));
  }

  /** Column j of the double sum: tap j times the shifted transform. */
  lemma {:induction false} CellColumn(x: Samples, h: Samples, f: int -> real, j: nat)
    requires |x| == |h| && j < |x|
    ensures Sum(|x|, m => CellTerm(x, h, f)(m, j)) == At(h, j) * Sum(|x|, ColumnTerm(x, f, j))
  {
    var g := m => CellTerm(x, h, f)(m, j);
    forall m | 0 <= m < |x|
      ensures g(m) == At(h, j) * ColumnTerm(x, f, j)(m)
    {
      CellAt(x, h, f, m, j);
    }
    SumScale(|x|, At(h, j), ColumnTerm(x, f, j), g);
    SumEq(|x|, g, m => CellTerm(x, h, f)(m, j));
  }

  function CombinedTerm(x: Samples, h: Samples, f1: int -> real, g1: int -> real, f2: int -> real, g2: int -> real)
    : int -> real
  {
    j => Transform(x, f1) * TransformTerm(h, g1)(j) + Transform(x, f2) * TransformTerm(h, g2)(j)
  }

  lemma {:induction false} ColumnAt(x: Samples, h: Samples, f: int -> real, f1: int -> real, g1: int -> real,
                                    f2: int -> real, g2: int -> real, j: nat)
    requires |x| == |h| && j < |x| && Splits(|x|, f, f1, g1, f2, g2)
    ensures CombinedTerm(x, h, f1, g1, f2, g2)(j) == Sum(|x|, m => CellTerm(x, h, f)(m, j))
  {
    var v, t1, t2 := At(h, j), Transform(x, f1), Transform(x, f2);
    CellColumn(x, h, f, j);
    ShiftTransform(x, f, j);
    SplitShifted(x, f, f1, g1, f2, g2, j);
    assert Sum(|x|, m => CellTerm(x, h, f)(m, j)) == v * (g1(j) * t1 + g2(j) * t2);
    CombinedAt(x, h, f1, g1, f2, g2, j, t1, t2);
  }

  lemma {:induction false} CombinedAt(x: Samples, h: Samples, f1: int -> real, g1: int -> real, f2: int -> real,
                                      g2: int -> real, j: nat, t1: real, t2: real)
    requires t1 == Transform(x, f1) && t2 == Transform(x, f2)
    ensures CombinedTerm(x, h, f1, g1, f2, g2)(j) == At(h, j) * (g1(j) * t1 + g2(j) * t2)
  {
    SplitProduct(At(h, j), g1(j), t1, g2(j), t2);
    var u1, u2 := TransformTerm(h, g1)(j), TransformTerm(h, g2)(j);
    assert u1 == At(h, j) * g1(j) && u2 == At(h, j) * g2(j);
    assert CombinedTerm(x, h, f1, g1, f2, g2)(j) == t1 * u1 + t2 * u2;
  }

  lemma {:induction false} SumByColumns(x: Samples, h: Samples, f: int -> real, f1: int -> real, g1: int -> real,
                                        f2: int -> real, g2: int -> real)
    requires |x| == |h| && Splits(|x|, f, f1, g1, f2, g2)
    ensures Transform(Circ(x, h), f) == Sum(|x|, CombinedTerm(x, h, f1, g1, f2, g2))
  {
    var n, cell := |x|, CellTerm(x, h, f);
    var row, col := TransformTerm(Circ(x, h), f), CombinedTerm(x, h, f1, g1, f2, g2);
    forall m | 0 <= m < n
      ensures row(m) == Sum(n, j => cell(m, j))
    {
      CellRow(x, h, f, m);
    }
    forall j | 0 <= j < n
      ensures col(j) == Sum(n, m => cell(m, j))
    {
      ColumnAt(x, h, f, f1, g1, f2, g2, j);
    }
    SumSwap(n, n, cell, row, col);
  }

  /** The transform of a circular convolution is bilinear in the transforms of its factors. */
  lemma {:induction false} TransformOfCirc(x: Samples, h: Samples, f: int -> real, f1: int -> real, g1: int -> real,
                                           f2: int -> real, g2: int -> real)
    requires |x| == |h| && Splits(|x|, f, f1, g1, f2, g2)
    ensures Transform(Circ(x, h), f) == Transform(x, f1) * Transform(h, g1) + Transform(x, f2) * Transform(h, g2)
  {
    SumByColumns(x, h, f, f1, g1, f2, g2);
    SumCombine(|x|, Transform(x, f1), TransformTerm(h, g1), Transform(x, f2), TransformTerm(h, g2),
               CombinedTerm(x, h, f1, g1, f2, g2));
  }

  // ----- half-complex spectra -----

  /** Cosine and sine of the angles 2*pi*a/n, known only by their addition theorems and period. */
  datatype Twiddles = Twiddles(n: nat, cos: int -> real, sin: int -> real)
  {
    ghost predicate Adds(a: int, b: int) {
      && cos(a + b) == cos(a) * cos(b) - sin(a) * sin(b)
      && sin(a + b) == sin(a) * cos(b) + cos(a) * sin(b)
    }

    ghost predicate Valid() {
      && n > 0 && n % 2 == 0
      && cos(0) == 1.0 && sin(0) == 0.0
      && cos(n) == 1.0 && sin(n) == 0.0
      && cos(n / 2) == -1.0
      && forall a, b :: Adds(a, b)
    }

    function CosWave(k: int): int -> real {
      j => cos(k * j)
    }

    function SinWave(k: int): int -> real {
      j => sin(k * j)
    }

    function NegSinWave(k: int): int -> real {
      j => -sin(k * j)
    }
  }

  /** The half-complex spectrum of x. */
  function HalfComplex(tw: Twiddles, x: Samples): (y: Samples)
    ensures |y| == |x|
  {
    seq(|x|, k requires 0 <= k < |x| =>
      if k <= |x| / 2 then Transform(x, tw.CosWave(k)) else -Transform(x, tw.SinWave(|x| - k)))
  }

  /** The product of two half-complex spectra, as complex numbers frequency by frequency. */
  function OrderedProduct(x: Samples, y: Samples): (z: Samples)
    requires |x| == |y|
    ensures |z| == |x|
  {
    seq(|x|, k requires 0 <= k < |x| => OrderedAt(x, y, k))
  }

  function OrderedAt(x: Samples, y: Samples, k: nat): real
    requires |x| == |y| && k < |x|
  {
    var n := |x|;
    if k == 0 || 2 * k == n then x[k] * y[k]
    else if 2 * k < n then x[k] * y[k] - x[n - k] * y[n - k]
    else x[n - k] * y[k] + x[k] * y[n - k]
  }

  lemma {:induction false} Period(tw: Twiddles, a: int, k: nat)
    requires tw.Valid()
    ensures tw.cos(a - k * tw.n) == tw.cos(a) && tw.sin(a - k * tw.n) == tw.sin(a)
  {
    if k > 0 {
      Period(tw, a, k - 1);
      var b := a - k * tw.n;
      assert b + tw.n == a - (k - 1) * tw.n;
      assert tw.Adds(b, tw.n);
    }
  }

  /** Angle of a wrapped index. */
  lemma {:induction false} WrapAngle(tw: Twiddles, k: nat, p: int, j: int)
    requires tw.Valid()
    ensures tw.cos(k * WrapSum(p, j, tw.n)) == tw.cos(k * p + k * j)
    ensures tw.sin(k * WrapSum(p, j, tw.n)) == tw.sin(k * p + k * j)
  {
    assert k * (p + j) == k * p + k * j;
    if p + j >= tw.n {
      assert k * (p + j - tw.n) == k * p + k * j - k * tw.n;
      Period(tw, k * p + k * j, k);
    }
  }

  lemma {:induction false} CosSplits(tw: Twiddles, k: nat)
    requires tw.Valid()
    ensures Splits(tw.n, tw.CosWave(k), tw.CosWave(k), tw.CosWave(k), tw.SinWave(k), tw.NegSinWave(k))
  {
    forall p, j | 0 <= p < tw.n && 0 <= j < tw.n
      ensures tw.CosWave(k)(WrapSum(p, j, tw.n))
           == tw.CosWave(k)(p) * tw.CosWave(k)(j) + tw.SinWave(k)(p) * tw.NegSinWave(k)(j)
    {
      WrapAngle(tw, k, p, j);
      var a, b := k * p, k * j;
      assert tw.Adds(a, b);
    }
  }

  lemma {:induction false} SinSplits(tw: Twiddles, k: nat)
    requires tw.Valid()
    ensures Splits(tw.n, tw.SinWave(k), tw.SinWave(k), tw.CosWave(k), tw.CosWave(k), tw.SinWave(k))
  {
    forall p, j | 0 <= p < tw.n && 0 <= j < tw.n
      ensures tw.SinWave(k)(WrapSum(p, j, tw.n))
           == tw.SinWave(k)(p) * tw.CosWave(k)(j) + tw.CosWave(k)(p) * tw.SinWave(k)(j)
    {
      WrapAngle(tw, k, p, j);
      var a, b := k * p, k * j;
      assert tw.Adds(a, b);
    }
  }

  lemma {:induction false} NegTransform(tw: Twiddles, x: Samples, k: int)
    ensures Transform(x, tw.NegSinWave(k)) == -Transform(x, tw.SinWave(k))
  {
    SumScale(|x|, -1.0, TransformTerm(x, tw.SinWave(k)), TransformTerm(x, tw.NegSinWave(k)));
  }

  /** The sine of half a turn, and of every multiple of it, is zero. */
  lemma {:induction false} HalfTurn(tw: Twiddles, j: nat)
    requires tw.Valid()
    ensures tw.sin((tw.n / 2) * j) == 0.0
  {
    var h := tw.n / 2;
    var c, s := tw.cos(h), tw.sin(h);
    assert h + h == tw.n;
    assert tw.Adds(h, h);
    HalfTurnSine(c, s);
    if j > 0 {
      HalfTurn(tw, j - 1);
      var a := h * (j - 1);
      assert h * j == a + h;
      assert tw.Adds(a, h);
    } else {
      assert h * j == 0;
    }
  }

  lemma {:induction false} HalfTurnSine(c: real, s: real)
    requires c * c - s * s == 1.0 && s * c + c * s == 0.0
    ensures s == 0.0
  {
    assert s * s >= 0.0;
    assert c * s == 0.0;
    assert c * c >= 1.0;
    NoZeroDivisor(c, s);
  }

  lemma {:induction false} NoZeroDivisor(c: real, s: real)
    requires c * s == 0.0 && c * c >= 1.0
    ensures s == 0.0
  {
    assert c * (c * s) == (c * c) * s;
  }

  /** Frequencies 0 and n/2 have no imaginary part. */
  lemma {:induction false} RealFrequency(tw: Twiddles, x: Samples, k: nat)
    requires tw.Valid() && (k == 0 || 2 * k == tw.n)
    ensures Transform(x, tw.SinWave(k)) == 0.0
  {
    forall j | 0 <= j < |x|
      ensures TransformTerm(x, tw.SinWave(k))(j) == 0.0
    {
      if k != 0 {
        HalfTurn(tw, j);
      } else {
        assert k * j == 0;
      }
      assert tw.SinWave(k)(j) == 0.0;
    }
    SumZero(|x|, TransformTerm(x, tw.SinWave(k)));
  }

  /** The half-complex product of two spectra is the spectrum of the circular convolution. */
  lemma {:induction false} SpectrumOfCirc(tw: Twiddles, x: Samples, h: Samples)
    requires tw.Valid() && |x| == |h| == tw.n
    ensures HalfComplex(tw, Circ(x, h)) == OrderedProduct(HalfComplex(tw, x), HalfComplex(tw, h))
  {
    var n := tw.n;
    var y, z := HalfComplex(tw, Circ(x, h)), OrderedProduct(HalfComplex(tw, x), HalfComplex(tw, h));
    forall k | 0 <= k < n
      ensures y[k] == z[k]
    {
      SpectrumOfCircAt(tw, x, h, k);
    }
  }

  lemma {:induction false} CosOfCirc(tw: Twiddles, x: Samples, h: Samples, f: nat)
    requires tw.Valid() && |x| == |h| == tw.n
    ensures Transform(Circ(x, h), tw.CosWave(f))
         == Transform(x, tw.CosWave(f)) * Transform(h, tw.CosWave(f))
           - Transform(x, tw.SinWave(f)) * Transform(h, tw.SinWave(f))
  {
    CosSplits(tw, f);
    TransformOfCirc(x, h, tw.CosWave(f), tw.CosWave(f), tw.CosWave(f), tw.SinWave(f), tw.NegSinWave(f));
    NegTransform(tw, h, f);
    TimesNegative(Transform(x, tw.SinWave(f)), Transform(h, tw.SinWave(f)));
  }

  lemma {:induction false} TimesNegative(a: real, b: real)
    ensures a * -b == -(a * b) && -a * b == -(a * b)
  {
  }

  lemma {:induction false} SinOfCirc(tw: Twiddles, x: Samples, h: Samples, f: nat)
    requires tw.Valid() && |x| == |h| == tw.n
    ensures Transform(Circ(x, h), tw.SinWave(f))
         == Transform(x, tw.SinWave(f)) * Transform(h, tw.CosWave(f))
           + Transform(x, tw.CosWave(f)) * Transform(h, tw.SinWave(f))
  {
    SinSplits(tw, f);
    TransformOfCirc(x, h, tw.SinWave(f), tw.SinWave(f), tw.CosWave(f), tw.CosWave(f), tw.SinWave(f));
  }

  /** One frequency of a product of spectra, from real and imaginary parts (the imaginary part is -sine). */
  lemma {:induction false} ProductAt(xc: real, xs: real, hc: real, hs: real)
    ensures xc * hc - xs * hs == xc * hc - (-xs) * (-hs)
    ensures -(xs * hc + xc * hs) == xc * (-hs) + (-xs) * hc
  {
  }

  /** Frequency f of the spectra of x and h, as real and imaginary parts. */
  lemma {:induction false} Entries(tw: Twiddles, x: Samples, f: nat)
    requires |x| == tw.n && 2 * f <= tw.n && f < tw.n
    ensures HalfComplex(tw, x)[f] == Transform(x, tw.CosWave(f))
    ensures 0 < f && 2 * f < tw.n ==> HalfComplex(tw, x)[tw.n - f] == -Transform(x, tw.SinWave(f))
  {
  }

  lemma {:induction false} LowerEntry(tw: Twiddles, x: Samples, h: Samples, f: nat)
    requires tw.Valid() && |x| == |h| == tw.n && 2 * f <= tw.n && f < tw.n
    ensures HalfComplex(tw, Circ(x, h))[f] == OrderedAt(HalfComplex(tw, x), HalfComplex(tw, h), f)
  {
    CosOfCirc(tw, x, h, f);
    Entries(tw, x, f);
    Entries(tw, h, f);
    Entries(tw, Circ(x, h), f);
    if f == 0 || 2 * f == tw.n {
      RealFrequency(tw, x, f);
    } else {
      ProductAt(Transform(x, tw.CosWave(f)), Transform(x, tw.SinWave(f)), Transform(h, tw.CosWave(f)),
                Transform(h, tw.SinWave(f)));
    }
  }

  lemma {:induction false} UpperEntry(tw: Twiddles, x: Samples, h: Samples, f: nat)
    requires tw.Valid() && |x| == |h| == tw.n && 0 < f && 2 * f < tw.n
    ensures HalfComplex(tw, Circ(x, h))[tw.n - f] == OrderedAt(HalfComplex(tw, x), HalfComplex(tw, h), tw.n - f)
  {
    SinOfCirc(tw, x, h, f);
    Entries(tw, x, f);
    Entries(tw, h, f);
    Entries(tw, Circ(x, h), f);
    ProductAt(Transform(x, tw.CosWave(f)), Transform(x, tw.SinWave(f)), Transform(h, tw.CosWave(f)),
              Transform(h, tw.SinWave(f)));
    assert tw.n - (tw.n - f) == f;
  }

  lemma {:induction false} SpectrumOfCircAt(tw: Twiddles, x: Samples, h: Samples, k: nat)
    requires tw.Valid() && |x| == |h| == tw.n && k < tw.n
    ensures HalfComplex(tw, Circ(x, h))[k] == OrderedAt(HalfComplex(tw, x), HalfComplex(tw, h), k)
  {
    if 2 * k <= tw.n {
      LowerEntry(tw, x, h, k);
    } else {
      UpperEntry(tw, x, h, tw.n - k);
    }
  }
}
