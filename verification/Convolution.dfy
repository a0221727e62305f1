/** Direct and circular convolution, and the overlap-save identity between them.

    A frequency-domain buffer of the program is represented by the time sequence
    whose transform it holds. The transforms themselves are not computed here:
    an unnormalised inverse transform multiplies by the transform length, and the
    product of two spectra represents the circular convolution of the two
    sequences (module Spectrum proves the latter for the half-complex product). */
module Convolution {
  import opened Sums

  type Samples = seq<real>

  function At(x: Samples, i: int): real {
    if 0 <= i < |x| then x[i] else 0.0
  }

  function Zeros(n: nat): (z: Samples)
    ensures |z| == n && forall i :: 0 <= i < n ==> z[i] == 0.0
  {
    seq(n, _ => 0.0)
  }

  function Scale(a: real, x: Samples): (y: Samples)
    ensures |y| == |x| && forall i :: 0 <= i < |x| ==> y[i] == a * x[i]
  {
    seq(|x|, i requires 0 <= i < |x| => a * x[i])
  }

  function Add(x: Samples, y: Samples): (z: Samples)
    ensures |z| == |x| && forall i :: 0 <= i < |x| ==> z[i] == x[i] + At(y, i)
  {
    seq(|x|, i requires 0 <= i < |x| => x[i] + At(y, i))
  }

  function MixTerm(xs: seq<Samples>, scales: seq<real>, j: int): int -> real {
    i => if 0 <= i < |xs| then At(xs[i], j) * At(scales, i) else 0.0
  }

  /** Scaled sum of buffers of length len. */
  function Mix(xs: seq<Samples>, scales: seq<real>, len: nat): (y: Samples)
    ensures |y| == len
    ensures forall j :: 0 <= j < len ==> y[j] == Sum(|xs|, MixTerm(xs, scales, j))
  {
    seq(len, j => Sum(|xs|, MixTerm(xs, scales, j)))
  }

  lemma {:induction false} MixSilent(xs: seq<Samples>, scales: seq<real>, len: nat)
    requires forall i :: 0 <= i < |xs| ==> xs[i] == Zeros(len)
    ensures Mix(xs, scales, len) == Zeros(len)
  {
    forall j | 0 <= j < len
      ensures Mix(xs, scales, len)[j] == 0.0
    {
      SumZero(|xs|, MixTerm(xs, scales, j));
    }
  }

  // ----- direct form -----

  function FirTerm(h: Samples, x: Samples, n: int): int -> real {
    k => At(h, k) * At(x, n - k)
  }

  /** Sample n of the direct-form FIR filter h over the stream x, which is silent before its start. */
  function Fir(h: Samples, x: Samples, n: int): real {
    Sum(|h|, FirTerm(h, x, n))
  }

  /** The same with the first len taps only. */
  function FirOf(len: nat, h: Samples, x: Samples, n: int): real {
    Sum(len, FirTerm(h, x, n))
  }

  /** Trailing taps beyond the end of h contribute nothing. */
  lemma {:induction false} FirExtend(h: Samples, x: Samples, n: int, len: nat)
    requires |h| <= len
    ensures FirOf(len, h, x, n) == Fir(h, x, n)
  {
    var rest := k => FirTerm(h, x, n)(|h| + k);
    SumSplit(|h|, len - |h|, FirTerm(h, x, n), rest);
    SumZero(len - |h|, rest);
  }

  // ----- circular form -----

  /** Index m - j, wrapped around a buffer of length n, for indices 0 <= m, j < n. */
  function Wrapped(m: int, j: int, n: int): int {
    if m >= j then m - j else m - j + n
  }

  function CircTerm(x: Samples, h: Samples, m: int): int -> real {
    j => At(h, j) * At(x, Wrapped(m, j, |x|))
  }

  /** Circular convolution of x with a sequence of the same length. */
  function Circ(x: Samples, h: Samples): (y: Samples)
    ensures |y| == |x|
    ensures forall m :: 0 <= m < |x| ==> y[m] == Sum(|x|, CircTerm(x, h, m))
  {
    seq(|x|, m requires 0 <= m < |x| => Sum(|x|, CircTerm(x, h, m)))
  }

  lemma {:induction false} CircZero(n: nat, h: Samples)
    ensures Circ(Zeros(n), h) == Zeros(n)
  {
    var x := Zeros(n);
    forall m | 0 <= m < |x|
      ensures Circ(x, h)[m] == 0.0
    {
      forall j | 0 <= j < |x|
        ensures CircTerm(x, h, m)(j) == 0.0
      {
        assert At(x, Wrapped(m, j, |x|)) == 0.0;
      }
      SumZero(|x|, CircTerm(x, h, m));
    }
  }

  lemma {:induction false} CircScale(x: Samples, a: real, h: Samples)
    requires |x| == |h| > 0
    ensures Circ(x, Scale(a, h)) == Scale(a, Circ(x, h))
  {
    var y, z := Circ(x, Scale(a, h)), Scale(a, Circ(x, h));
    forall m | 0 <= m < |x|
      ensures y[m] == z[m]
    {
      CircScaleAt(x, a, h, m);
    }
  }

  lemma {:induction false} CircScaleAt(x: Samples, a: real, h: Samples, m: int)
    requires |x| == |h| > 0
    ensures Sum(|x|, CircTerm(x, Scale(a, h), m)) == a * Sum(|x|, CircTerm(x, h, m))
  {
    var f, g := CircTerm(x, h, m), CircTerm(x, Scale(a, h), m);
    forall j | 0 <= j < |x|
      ensures g(j) == a * f(j)
    {
      CircTermScale(x, a, h, m, j);
    }
    SumScale(|x|, a, f, g);
  }

  lemma {:induction false} CircTermScale(x: Samples, a: real, h: Samples, m: int, j: int)
    requires |x| == |h| > 0 && 0 <= j < |x|
    ensures CircTerm(x, Scale(a, h), m)(j) == a * CircTerm(x, h, m)(j)
  {
    ScaleProduct(a, h[j], At(x, Wrapped(m, j, |x|)));
  }

  lemma {:induction false} ScaleProduct(a: real, b: real, c: real)
    ensures (a * b) * c == a * (b * c)
  {
  }

  // ----- overlap-save -----

  /** L zeros, then at most L coefficients, then zeros up to length 2L. */
  function Padded(h: Samples, L: nat): (c: Samples)
    requires |h| <= L
    ensures |c| == 2 * L
  {
    Zeros(L) + h + Zeros(L - |h|)
  }

  /** The len samples of stream s from position base on; positions before 0 are silent. */
  function Window(s: Samples, base: int, len: nat): (w: Samples)
    ensures |w| == len
    ensures forall j :: 0 <= j < len ==> w[j] == At(s, base + j)
  {
    seq(len, j => At(s, base + j))
  }

  /** The first half of the circular convolution of a frame with padded coefficients
      is the direct form over the frame's own samples. */
  lemma {:induction false} OverlapSave(frame: Samples, h: Samples, L: nat, m: nat)
    requires 0 < L && |frame| == 2 * L && |h| <= L && m < L
    ensures Circ(frame, Padded(h, L))[m] == Sum(L, OverlapTerm(frame, h, L, m))
  {
    var c := Padded(h, L);
    var f := CircTerm(frame, c, m);
    var g := OverlapTerm(frame, h, L, m);
    forall k | 0 <= k < L
      ensures g(k) == f(L + k)
    {
      assert c[L + k] == At(h, k);
    }
    SumSplit(L, L, f, g);
    SumZero(L, f);
  }

  function OverlapTerm(frame: Samples, h: Samples, L: int, m: int): int -> real {
    k => At(h, k) * At(frame, m + L - k)
  }

  /** Over a window of a stream the overlap-save result is the direct form
      at the position that the second half of the window has in the stream. */
  lemma {:induction false} OverlapSaveStream(s: Samples, base: int, h: Samples, L: nat, m: nat)
    requires 0 < L && |h| <= L && m < L
    ensures Circ(Window(s, base, 2 * L), Padded(h, L))[m] == Fir(h, s, base + L + m)
  {
    var frame := Window(s, base, 2 * L);
    OverlapSave(frame, h, L, m);
    var f, g := OverlapTerm(frame, h, L, m), FirTerm(h, s, base + L + m);
    forall k | 0 <= k < L
      ensures f(k) == g(k)
    {
      assert At(frame, m + L - k) == At(s, base + L + m - k);
    }
    SumEq(L, f, g);
    FirExtend(h, s, base + L + m, L);
  }
}
