/** The unnormalised inverse of the half-complex transform multiplies by the length. Needed beside the addition theorems
    is only that the angle is a primitive one: no multiple of it below the length has cosine one. */
module Inversion {
  import opened Sums
  import opened Convolution
  import opened Spectrum

  ghost predicate Primitive(tw: Twiddles) {
    tw.Valid() && forall d :: 0 < d < tw.n ==> tw.cos(d) != 1.0
  }

  // ----- the unit circle -----

  function Norm(tw: Twiddles, a: int): real {
    tw.cos(a) * tw.cos(a) + tw.sin(a) * tw.sin(a)
  }

  lemma {:induction false} NormOfProduct(c: real, s: real, d: real, t: real)
    ensures (c * d - s * t) * (c * d - s * t) + (s * d + c * t) * (s * d + c * t) == (c * c + s * s) * (d * d + t * t)
  {
    var cd, st, sd, ct := c * d, s * t, s * d, c * t;
    assert cd * st == sd * ct;
    assert (cd - st) * (cd - st) == cd * cd - 2.0 * (cd * st) + st * st;
    assert (sd + ct) * (sd + ct) == sd * sd + 2.0 * (sd * ct) + ct * ct;
    SquareOfProduct(c, d);
    SquareOfProduct(s, t);
    SquareOfProduct(s, d);
    SquareOfProduct(c, t);
    var cc, ss, dd, tt := c * c, s * s, d * d, t * t;
    assert (cc + ss) * (dd + tt) == cc * dd + cc * tt + ss * dd + ss * tt;
  }

  lemma {:induction false} SquareOfProduct(a: real, b: real)
    ensures (a * b) * (a * b) == (a * a) * (b * b)
  {
  }

  lemma {:induction false} NormAdds(tw: Twiddles, a: int, b: int)
    requires tw.Valid()
    ensures Norm(tw, a + b) == Norm(tw, a) * Norm(tw, b)
  {
    assert tw.Adds(a, b);
    NormOfProduct(tw.cos(a), tw.sin(a), tw.cos(b), tw.sin(b));
  }

  function Power(t: real, k: nat): real {
    if k == 0 then 1.0 else Power(t, k - 1) * t
  }

  lemma {:induction false} NormIsPower(tw: Twiddles, k: nat)
    requires tw.Valid()
    ensures Norm(tw, k) == Power(Norm(tw, 1), k)
  {
    if k > 0 {
      NormIsPower(tw, k - 1);
      NormAdds(tw, k - 1, 1);
    }
  }

  /** A positive power of a number that is not negative lies on the same side of one. */
  lemma {:induction false} PowerSide(t: real, k: nat)
    requires 0.0 <= t && 0 < k
    ensures t > 1.0 ==> Power(t, k) > 1.0
    ensures t < 1.0 ==> 0.0 <= Power(t, k) < 1.0
  {
    if k == 1 {
      assert Power(t, 1) == Power(t, 0) * t == t;
    } else {
      PowerSide(t, k - 1);
      SideOfProduct(Power(t, k - 1), t);
    }
  }

  lemma {:induction false} SideOfProduct(p: real, t: real)
    ensures p > 1.0 && t > 1.0 ==> p * t > 1.0
    ensures 0.0 <= p < 1.0 && 0.0 <= t < 1.0 ==> 0.0 <= p * t < 1.0
  {
    var a, b := p - 1.0, t - 1.0;
    assert p * t == a * b + a + b + 1.0;
    if p > 1.0 && t > 1.0 {
      PositiveProduct(a, b);
    }
    if 0.0 <= p < 1.0 && 0.0 <= t < 1.0 {
      assert p * t == t - (1.0 - p) * t;
      PositiveProduct(1.0 - p, t);
      PositiveProduct(p, t);
    }
  }

  lemma {:induction false} PositiveProduct(a: real, b: real)
    requires a >= 0.0 && b >= 0.0
    ensures a * b >= 0.0 && (a > 0.0 && b > 0.0 ==> a * b > 0.0)
  {
  }

  /** All angles are on the unit circle. */
  lemma {:induction false} UnitCircle(tw: Twiddles, a: nat)
    requires tw.Valid()
    ensures Norm(tw, a) == 1.0
  {
    var t := Norm(tw, 1);
    assert t >= 0.0 by {
      SquarePositive(tw.cos(1));
      SquarePositive(tw.sin(1));
    }
    NormIsPower(tw, tw.n);
    PowerSide(t, tw.n);
    assert Norm(tw, tw.n) == 1.0;
    NormIsPower(tw, a);
    PowerOfOne(a);
  }

  lemma {:induction false} SquarePositive(a: real)
    ensures a * a >= 0.0
  {
  }

  lemma {:induction false} PowerOfOne(k: nat)
    ensures Power(1.0, k) == 1.0
  {
    if k > 0 {
      PowerOfOne(k - 1);
    }
  }

  // ----- orthogonality -----

  /** The sum of a wave over a whole period. */
  lemma {:induction false} ShiftedSum(n: nat, f: int -> real, g: int -> real)
    requires forall j :: 0 <= j < n ==> g(j) == f(j + 1)
    requires f(n) == f(0)
    ensures Sum(n, g) == Sum(n, f)
  {
    if n > 0 {
      SumSplit(1, n - 1, f, g);
      assert Sum(1, f) == Sum(0, f) + f(0);
    }
  }

  lemma {:induction false} Turns(tw: Twiddles, d: nat)
    requires tw.Valid()
    ensures tw.cos(d * tw.n) == 1.0 && tw.sin(d * tw.n) == 0.0
  {
    Period(tw, d * tw.n, d);
    assert d * tw.n - d * tw.n == 0;
  }

  function LaterCosine(tw: Twiddles, d: nat): int -> real {
    j => tw.cos(d * (j + 1))
  }

  function LaterSine(tw: Twiddles, d: nat): int -> real {
    j => tw.sin(d * (j + 1))
  }

  lemma {:induction false} LaterAt(tw: Twiddles, d: nat, j: int)
    requires tw.Valid()
    ensures LaterCosine(tw, d)(j) == tw.cos(d) * tw.CosWave(d)(j) + (-tw.sin(d)) * tw.SinWave(d)(j)
    ensures LaterSine(tw, d)(j) == tw.sin(d) * tw.CosWave(d)(j) + tw.cos(d) * tw.SinWave(d)(j)
  {
    var a := d * j;
    assert d * (j + 1) == d + a;
    assert tw.Adds(d, a);
  }

  /** Taking a wave one step later over a whole period changes nothing. */
  lemma {:induction false} LaterSums(tw: Twiddles, d: nat)
    requires tw.Valid()
    ensures Sum(tw.n, LaterCosine(tw, d)) == Sum(tw.n, tw.CosWave(d))
    ensures Sum(tw.n, LaterSine(tw, d)) == Sum(tw.n, tw.SinWave(d))
  {
    Turns(tw, d);
    assert d * 0 == 0;
    ShiftedSum(tw.n, tw.CosWave(d), LaterCosine(tw, d));
    ShiftedSum(tw.n, tw.SinWave(d), LaterSine(tw, d));
  }

  lemma {:induction false} ShiftedCosines(tw: Twiddles, d: nat, c: real, s: real)
    requires tw.Valid() && c == tw.cos(d) && s == -tw.sin(d)
    ensures Sum(tw.n, LaterCosine(tw, d)) == c * Sum(tw.n, tw.CosWave(d)) + s * Sum(tw.n, tw.SinWave(d))
  {
    forall j | 0 <= j < tw.n
      ensures LaterCosine(tw, d)(j) == c * tw.CosWave(d)(j) + s * tw.SinWave(d)(j)
    {
      LaterAt(tw, d, j);
    }
    SumCombine(tw.n, c, tw.CosWave(d), s, tw.SinWave(d), LaterCosine(tw, d));
  }

  lemma {:induction false} ShiftedSines(tw: Twiddles, d: nat, c: real, s: real)
    requires tw.Valid() && c == tw.cos(d) && s == tw.sin(d)
    ensures Sum(tw.n, LaterSine(tw, d)) == s * Sum(tw.n, tw.CosWave(d)) + c * Sum(tw.n, tw.SinWave(d))
  {
    forall j | 0 <= j < tw.n
      ensures LaterSine(tw, d)(j) == s * tw.CosWave(d)(j) + c * tw.SinWave(d)(j)
    {
      LaterAt(tw, d, j);
    }
    SumCombine(tw.n, s, tw.CosWave(d), c, tw.SinWave(d), LaterSine(tw, d));
  }

  lemma {:induction false} ShiftedWaves(tw: Twiddles, d: nat, c: real, s: real, x: real, y: real)
    requires tw.Valid() && c == tw.cos(d) && s == tw.sin(d)
    requires x == Sum(tw.n, tw.CosWave(d)) && y == Sum(tw.n, tw.SinWave(d))
    ensures c * x - s * y == x && s * x + c * y == y
  {
    LaterSums(tw, d);
    ShiftedCosines(tw, d, c, -s);
    ShiftedSines(tw, d, c, s);
    assert (-s) * y == -(s * y);
  }

  lemma {:induction false} NullSum(c: real, s: real, x: real, y: real)
    requires c != 1.0 && c * x - s * y == x && s * x + c * y == y
    ensures x == 0.0
  {
    var e := c - 1.0;
    assert e * x == s * y && s * x == -(e * y);
    assert e * (e * x) == s * (e * y) == -(s * (s * x));
    assert (e * e + s * s) * x == 0.0;
    SquarePositive(s);
    assert e * e > 0.0;
  }

  /** The sum of the cosines of all multiples of an angle. */
  lemma {:induction false} Orthogonal(tw: Twiddles, d: nat)
    requires Primitive(tw) && d < tw.n
    ensures Sum(tw.n, tw.CosWave(d)) == if d == 0 then tw.n as real else 0.0
  {
    if d == 0 {
      SumOfOnes(tw, tw.n);
    } else {
      var x, y := Sum(tw.n, tw.CosWave(d)), Sum(tw.n, tw.SinWave(d));
      ShiftedWaves(tw, d, tw.cos(d), tw.sin(d), x, y);
      NullSum(tw.cos(d), tw.sin(d), x, y);
    }
  }

  lemma {:induction false} SumOfOnes(tw: Twiddles, k: nat)
    requires tw.Valid()
    ensures Sum(k, tw.CosWave(0)) == k as real
  {
    if k > 0 {
      SumOfOnes(tw, k - 1);
      assert 0 * (k - 1) == 0;
    }
  }

  // ----- sums taken in pairs -----

  function Later(f: int -> real): int -> real {
    k => f(1 + k)
  }

  function Backwards(n: nat, f: int -> real): int -> real {
    k => f(n - 1 - k)
  }

  /** Terms k + 1 and n - 1 - k. */
  function InPairs(n: nat, f: int -> real): int -> real {
    k => f(1 + k) + f(n - 1 - k)
  }

  lemma {:induction false} SumFirst(n: nat, f: int -> real)
    requires n > 0
    ensures Sum(n, f) == f(0) + Sum(n - 1, Later(f))
  {
    SumSplit(1, n - 1, f, Later(f));
    assert Sum(1, f) == Sum(0, f) + f(0);
  }

  lemma {:induction false} SumBackwards(n: nat, f: int -> real, r: int -> real)
    requires forall i :: 0 <= i < n ==> r(i) == f(n - 1 - i)
    ensures Sum(n, r) == Sum(n, f)
  {
    if n > 0 {
      SumFirst(n, r);
      SumBackwards(n - 1, f, Later(r));
    }
  }

  /** Every term but the first is met twice in the pairs. */
  lemma {:induction false} PairsAreTwice(n: nat, f: int -> real)
    requires n > 0
    ensures Sum(n - 1, InPairs(n, f)) == Sum(n - 1, Later(f)) + Sum(n - 1, Later(f))
  {
    SumBackwards(n - 1, Later(f), Backwards(n, f));
    SumAdd(n - 1, Later(f), Backwards(n, f), InPairs(n, f));
  }

  /** Terms k and n - k may be exchanged for others of the same sum. */
  lemma {:induction false} SumPaired(n: nat, f: int -> real, g: int -> real)
    requires n > 0 && f(0) == g(0)
    requires forall k :: 0 <= k < n - 1 ==> InPairs(n, f)(k) == InPairs(n, g)(k)
    ensures Sum(n, f) == Sum(n, g)
  {
    PairsAreTwice(n, f);
    PairsAreTwice(n, g);
    SumEq(n - 1, InPairs(n, f), InPairs(n, g));
    SumFirst(n, f);
    SumFirst(n, g);
  }

  // ----- the inverse transform -----

  /** Entry k of a half-complex spectrum in sample j: the entries between the first and the middle one stand for a
      frequency and its mirror image. */
  function InverseTerm(tw: Twiddles, h: Samples, j: nat): int -> real {
    k =>
      if k == 0 || 2 * k == |h| then At(h, k) * tw.cos(k * j)
      else if 2 * k < |h| then 2.0 * (At(h, k) * tw.cos(k * j))
      else -2.0 * (At(h, k) * tw.sin((|h| - k) * j))
  }

  /** The unnormalised inverse transform. */
  function InverseTransform(tw: Twiddles, h: Samples): (y: Samples)
    ensures |y| == |h|
  {
    seq(|h|, j requires 0 <= j < |h| => Sum(|h|, InverseTerm(tw, h, j)))
  }

  /** What sample m of the sequence contributes to sample j of the inverse, by way of entry k. */
  function Kernel(tw: Twiddles, j: nat, m: int): int -> real {
    k =>
      if k == 0 || 2 * k == tw.n then tw.cos(k * m) * tw.cos(k * j)
      else if 2 * k < tw.n then 2.0 * (tw.cos(k * m) * tw.cos(k * j))
      else 2.0 * (tw.sin((tw.n - k) * m) * tw.sin((tw.n - k) * j))
  }

  lemma {:induction false} UnitSplit(c: real, s: real, d: real, t: real)
    requires c * c + s * s == 1.0
    ensures c * (c * d - s * t) + s * (s * d + c * t) == d
  {
    assert c * (c * d - s * t) == (c * c) * d - c * (s * t);
    assert s * (s * d + c * t) == (s * s) * d + s * (c * t);
    assert c * (s * t) == s * (c * t);
    assert (c * c) * d + (s * s) * d == (c * c + s * s) * d;
  }

  /** The cosine of the difference of two angles, b + d and b. */
  lemma {:induction false} CosineOfGap(tw: Twiddles, b: nat, d: nat)
    requires tw.Valid()
    ensures tw.cos(b) * tw.cos(b + d) + tw.sin(b) * tw.sin(b + d) == tw.cos(d)
  {
    assert tw.Adds(b, d);
    UnitCircle(tw, b);
    UnitSplit(tw.cos(b), tw.sin(b), tw.cos(d), tw.sin(d));
  }

  function Gap(j: nat, m: nat): nat {
    if j < m then m - j else j - m
  }

  lemma {:induction false} CosineOfDifference(tw: Twiddles, f: nat, j: nat, m: nat)
    requires tw.Valid()
    ensures tw.cos(f * m) * tw.cos(f * j) + tw.sin(f * m) * tw.sin(f * j) == tw.cos(Gap(j, m) * f)
  {
    var d := Gap(j, m);
    if j < m {
      assert f * m == f * j + d * f;
      CosineOfGap(tw, f * j, d * f);
    } else {
      assert f * j == f * m + d * f;
      CosineOfGap(tw, f * m, d * f);
    }
  }

  lemma {:induction false} Mirror(tw: Twiddles, d: nat, a: nat)
    requires tw.Valid() && a <= tw.n
    ensures tw.cos(d * (tw.n - a)) == tw.cos(d * a)
  {
    var p, q := d * a, d * (tw.n - a);
    assert p + q == d * tw.n;
    Turns(tw, d);
    CosineOfGap(tw, p, q);
    assert tw.cos(p) * 1.0 + tw.sin(p) * 0.0 == tw.cos(q);
  }

  lemma {:induction false} KernelPair(tw: Twiddles, j: nat, m: nat, a: nat)
    requires tw.Valid() && 0 < a && 2 * a < tw.n
    ensures Kernel(tw, j, m)(a) + Kernel(tw, j, m)(tw.n - a) == 2.0 * tw.cos(Gap(j, m) * a)
  {
    CosineOfDifference(tw, a, j, m);
    assert Kernel(tw, j, m)(a) == 2.0 * (tw.cos(a * m) * tw.cos(a * j));
    assert tw.n - (tw.n - a) == a;
    assert Kernel(tw, j, m)(tw.n - a) == 2.0 * (tw.sin(a * m) * tw.sin(a * j));
  }

  lemma {:induction false} KernelMiddle(tw: Twiddles, j: nat, m: nat, a: nat)
    requires tw.Valid() && 2 * a == tw.n
    ensures Kernel(tw, j, m)(a) == tw.cos(Gap(j, m) * a)
  {
    CosineOfDifference(tw, a, j, m);
    HalfTurn(tw, m);
    assert a == tw.n / 2;
    assert tw.sin(a * m) * tw.sin(a * j) == 0.0;
  }

  /** Kernels k and n - k together. */
  lemma {:induction false} KernelPairs(tw: Twiddles, j: nat, m: nat, a: nat)
    requires tw.Valid() && 0 < a < tw.n
    ensures Kernel(tw, j, m)(a) + Kernel(tw, j, m)(tw.n - a)
         == tw.CosWave(Gap(j, m))(a) + tw.CosWave(Gap(j, m))(tw.n - a)
  {
    Mirror(tw, Gap(j, m), a);
    if 2 * a < tw.n {
      KernelPair(tw, j, m, a);
    } else if 2 * a == tw.n {
      KernelMiddle(tw, j, m, a);
    } else {
      KernelPair(tw, j, m, tw.n - a);
      assert tw.n - (tw.n - a) == a;
    }
  }

  /** A sample contributes to itself alone, once for every entry. */
  lemma {:induction false} KernelSum(tw: Twiddles, j: nat, m: nat)
    requires Primitive(tw) && j < tw.n && m < tw.n
    ensures Sum(tw.n, Kernel(tw, j, m)) == if j == m then tw.n as real else 0.0
  {
    var f, g := Kernel(tw, j, m), tw.CosWave(Gap(j, m));
    forall k | 0 <= k < tw.n - 1
      ensures InPairs(tw.n, f)(k) == InPairs(tw.n, g)(k)
    {
      KernelPairs(tw, j, m, 1 + k);
      assert tw.n - (1 + k) == tw.n - 1 - k;
    }
    assert 0 * m == 0 && 0 * j == 0 && Gap(j, m) * 0 == 0;
    SumPaired(tw.n, f, g);
    Orthogonal(tw, Gap(j, m));
  }

  // ----- inversion -----

  function KernelCell(tw: Twiddles, x: Samples, j: nat): (int, int) -> real {
    (k, m) => At(x, m) * Kernel(tw, j, m)(k)
  }

  lemma {:induction false} KernelCellAt(tw: Twiddles, x: Samples, j: nat, k: int, m: int)
    ensures KernelCell(tw, x, j)(k, m) == At(x, m) * Kernel(tw, j, m)(k)
  {
  }

  lemma {:induction false} ThreeFactors(a: real, b: real, c: real)
    ensures a * (b * c) == c * (a * b) && a * (2.0 * (b * c)) == (2.0 * c) * (a * b)
  {
  }

  lemma {:induction false} TwiceProduct(a: real, b: real)
    ensures 2.0 * (a * b) == (2.0 * b) * a && -2.0 * ((-a) * b) == (2.0 * b) * a
  {
  }

  /** What an entry contributes, as a sum over the samples that it is made of: wave f with factor c. */
  lemma {:induction false} EntryRow(tw: Twiddles, x: Samples, j: nat, k: nat, f: int -> real, c: real)
    requires k < |x|
    requires forall m {:trigger Kernel(tw, j, m)} :: 0 <= m < |x| ==>
      At(x, m) * Kernel(tw, j, m)(k) == c * (At(x, m) * f(m))
    ensures c * Transform(x, f) == Sum(|x|, m => KernelCell(tw, x, j)(k, m))
  {
    var g := m => KernelCell(tw, x, j)(k, m);
    forall m | 0 <= m < |x|
      ensures g(m) == c * TransformTerm(x, f)(m)
    {
      KernelCellAt(tw, x, j, k, m);
    }
    SumScale(|x|, c, TransformTerm(x, f), g);
    SumEq(|x|, g, m => KernelCell(tw, x, j)(k, m));
  }

  lemma {:induction false} LowEntry(tw: Twiddles, x: Samples, j: nat, k: nat)
    requires tw.Valid() && |x| == tw.n && k < tw.n && 2 * k <= tw.n
    ensures InverseTerm(tw, HalfComplex(tw, x), j)(k) == Sum(|x|, m => KernelCell(tw, x, j)(k, m))
  {
    var f, h := tw.CosWave(k), HalfComplex(tw, x);
    var v := tw.cos(k * j);
    var c := if k == 0 || 2 * k == tw.n then v else 2.0 * v;
    assert h[k] == Transform(x, f);
    forall m {:trigger Kernel(tw, j, m)} | 0 <= m < |x|
      ensures At(x, m) * Kernel(tw, j, m)(k) == c * (At(x, m) * f(m))
    {
      ThreeFactors(At(x, m), tw.cos(k * m), v);
    }
    EntryRow(tw, x, j, k, f, c);
    TwiceProduct(h[k], v);
  }

  lemma {:induction false} HighEntry(tw: Twiddles, x: Samples, j: nat, k: nat)
    requires tw.Valid() && |x| == tw.n && k < tw.n < 2 * k
    ensures InverseTerm(tw, HalfComplex(tw, x), j)(k) == Sum(|x|, m => KernelCell(tw, x, j)(k, m))
  {
    var f, h := tw.SinWave(tw.n - k), HalfComplex(tw, x);
    var v := tw.sin((tw.n - k) * j);
    assert h[k] == -Transform(x, f);
    forall m {:trigger Kernel(tw, j, m)} | 0 <= m < |x|
      ensures At(x, m) * Kernel(tw, j, m)(k) == (2.0 * v) * (At(x, m) * f(m))
    {
      ThreeFactors(At(x, m), tw.sin((tw.n - k) * m), v);
    }
    EntryRow(tw, x, j, k, f, 2.0 * v);
    TwiceProduct(Transform(x, f), v);
    assert |h| == tw.n && At(h, k) == h[k];
    assert InverseTerm(tw, h, j)(k) == -2.0 * (h[k] * v);
  }

  function KernelColumn(tw: Twiddles, x: Samples, j: nat): int -> real {
    m => At(x, m) * Sum(tw.n, Kernel(tw, j, m))
  }

  lemma {:induction false} KernelColumnAt(tw: Twiddles, x: Samples, j: nat, m: int)
    ensures KernelColumn(tw, x, j)(m) == Sum(tw.n, k => KernelCell(tw, x, j)(k, m))
  {
    var g := k => KernelCell(tw, x, j)(k, m);
    forall k | 0 <= k < tw.n
      ensures g(k) == At(x, m) * Kernel(tw, j, m)(k)
    {
      KernelCellAt(tw, x, j, k, m);
    }
    SumScale(tw.n, At(x, m), Kernel(tw, j, m), g);
    SumEq(tw.n, g, k => KernelCell(tw, x, j)(k, m));
  }

  lemma {:induction false} EntryAt(tw: Twiddles, x: Samples, j: nat, k: nat)
    requires tw.Valid() && |x| == tw.n && k < tw.n
    ensures InverseTerm(tw, HalfComplex(tw, x), j)(k) == Sum(tw.n, m => KernelCell(tw, x, j)(k, m))
  {
    if 2 * k <= tw.n {
      LowEntry(tw, x, j, k);
    } else {
      HighEntry(tw, x, j, k);
    }
  }

  /** Entry by entry or sample by sample. */
  lemma {:induction false} InverseBySamples(tw: Twiddles, x: Samples, j: nat)
    requires tw.Valid() && |x| == tw.n
    ensures Sum(tw.n, InverseTerm(tw, HalfComplex(tw, x), j)) == Sum(tw.n, KernelColumn(tw, x, j))
  {
    var n, row, col, cell := tw.n, InverseTerm(tw, HalfComplex(tw, x), j), KernelColumn(tw, x, j), KernelCell(tw, x, j);
    forall k | 0 <= k < n
      ensures row(k) == Sum(n, m => cell(k, m))
    {
      EntryAt(tw, x, j, k);
    }
    forall m | 0 <= m < n
      ensures col(m) == Sum(n, k => cell(k, m))
    {
      KernelColumnAt(tw, x, j, m);
    }
    SumSwap(n, n, cell, row, col);
  }

  lemma {:induction false} ColumnIs(tw: Twiddles, x: Samples, j: nat, m: nat)
    requires Primitive(tw) && |x| == tw.n && j < tw.n && m < tw.n
    ensures KernelColumn(tw, x, j)(m) == if m == j then tw.n as real * x[j] else 0.0
  {
    KernelSum(tw, j, m);
    ColumnProduct(At(x, m), Sum(tw.n, Kernel(tw, j, m)), if m == j then tw.n as real else 0.0);
  }

  lemma {:induction false} ColumnProduct(a: real, s: real, v: real)
    requires s == v
    ensures a * s == v * a
  {
  }

  lemma {:induction false} InverseSample(tw: Twiddles, x: Samples, j: nat)
    requires Primitive(tw) && |x| == tw.n && j < tw.n
    ensures Sum(tw.n, InverseTerm(tw, HalfComplex(tw, x), j)) == tw.n as real * x[j]
  {
    InverseBySamples(tw, x, j);
    forall m | 0 <= m < tw.n && m != j
      ensures KernelColumn(tw, x, j)(m) == 0.0
    {
      ColumnIs(tw, x, j, m);
    }
    SumSingle(tw.n, KernelColumn(tw, x, j), j);
    ColumnIs(tw, x, j, j);
  }

  /** The inverse transform of the transform is the sequence, times its length. */
  lemma {:induction false} InverseOfTransform(tw: Twiddles, x: Samples)
    requires Primitive(tw) && |x| == tw.n
    ensures InverseTransform(tw, HalfComplex(tw, x)) == Scale(tw.n as real, x)
  {
    var h, y, z := HalfComplex(tw, x), InverseTransform(tw, HalfComplex(tw, x)), Scale(tw.n as real, x);
    forall j | 0 <= j < tw.n
      ensures y[j] == z[j]
    {
      InverseAt(tw, h, j);
      InverseSample(tw, x, j);
    }
  }

  lemma {:induction false} InverseAt(tw: Twiddles, h: Samples, j: nat)
    requires j < |h|
    ensures InverseTransform(tw, h)[j] == Sum(|h|, InverseTerm(tw, h, j))
  {
  }

  /** A spectrum determines its sequence. */
  lemma {:induction false} TransformInjective(tw: Twiddles, x: Samples, y: Samples)
    requires Primitive(tw) && |x| == |y| == tw.n && HalfComplex(tw, x) == HalfComplex(tw, y)
    ensures x == y
  {
    InverseOfTransform(tw, x);
    InverseOfTransform(tw, y);
    ScaleInjective(tw.n as real, x, y);
  }

  lemma {:induction false} ScaleInjective(a: real, x: Samples, y: Samples)
    requires a != 0.0 && |x| == |y| && Scale(a, x) == Scale(a, y)
    ensures x == y
  {
    forall j | 0 <= j < |x|
      ensures x[j] == y[j]
    {
      assert a * x[j] == Scale(a, x)[j] == Scale(a, y)[j] == a * y[j];
      Cancelled(a, x[j], y[j]);
    }
  }

  lemma {:induction false} Cancelled(a: real, b: real, c: real)
    requires a != 0.0 && a * b == a * c
    ensures b == c
  {
    assert a * (b - c) == 0.0;
  }
}
