/** The partitioned filter on real sample streams: coefficient loading, input framing,
    and the theorem that every output block is the direct-form FIR of the whole stream. */
module PartitionedFir {
  import opened Sums
  import opened Convolution
  import opened PartitionedFilter

  // ----- buffers of the program -----

  function Inverse(n: nat): real
    requires n > 0
  {
    1.0 / n as real
  }

  /** A coefficient buffer: padded taps with the 1/n_fft that makes up for the unnormalised transforms. */
  function CoeffSpectrum(taps: Samples, L: nat): (c: Samples)
    requires 0 < L && |taps| <= L
    ensures |c| == 2 * L
  {
    Scale(Inverse(2 * L), Padded(taps, L))
  }

  /** The unnormalised inverse transform. */
  function FreqToTime(x: Samples): (y: Samples)
    ensures |y| == |x|
  {
    Scale(|x| as real, x)
  }

  function Ops(L: nat): SpectrumOps<Samples>
    requires 0 < L
  {
    SpectrumOps(Zeros(2 * L),
                CoeffSpectrum([1.0], L),
                (x, c) => Circ(x, c),
                (x, y) => Add(x, y),
                (xs, scales) => Mix(xs, scales, 2 * L))
  }

  lemma {:induction false} OpsLawful(L: nat)
    requires 0 < L
    ensures Ops(L).Lawful()
  {
    var ops := Ops(L);
    forall c
      ensures ops.convolve(ops.silence, c) == ops.silence
    {
      CircZero(2 * L, c);
    }
    forall x
      ensures ops.add(x, ops.silence) == x
    {
      assert Add(x, Zeros(2 * L)) == x;
    }
    forall xs, scales | ops.AllSilent(xs)
      ensures ops.mix(xs, scales) == ops.silence
    {
      MixSilent(xs, scales, 2 * L);
    }
  }

  // ----- coefficient slicing -----

  /** Taps i*L, ..., i*L + L - 1, as far as they exist. */
  function Slice(taps: Samples, i: nat, L: nat): (s: Samples)
    ensures |s| <= L
  {
    if i * L >= |taps| then [] else if i * L + L > |taps| then taps[i * L..] else taps[i * L..i * L + L]
  }

  lemma {:induction false} SliceAt(taps: Samples, i: nat, L: nat, k: nat)
    requires k < L
    ensures At(Slice(taps, i, L), k) == At(taps, i * L + k)
  {
  }

  /** A coefficient set cut into partitions. */
  function CoeffParts(taps: Samples, n: nat, L: nat): (parts: seq<Samples>)
    requires 0 < L
    ensures |parts| == n
    ensures forall i :: 0 <= i < n ==> parts[i] == CoeffSpectrum(Slice(taps, i, L), L)
  {
    seq(n, i requires 0 <= i < n => CoeffSpectrum(Slice(taps, i, L), L))
  }

  lemma {:induction false} PartsExtend(taps: Samples, n: nat, L: nat, s: Samples)
    requires 0 < L && |s| <= L && Padded(s, L) == Padded(Slice(taps, n, L), L)
    ensures CoeffParts(taps, n, L) + [CoeffSpectrum(s, L)] == CoeffParts(taps, n + 1, L)
  {
  }

  lemma {:induction false} PaddedZeros(L: nat)
    ensures Padded(Zeros(L), L) == Padded([], L)
  {
    assert Zeros(L) + Zeros(0) == Zeros(L);
    assert [] + Zeros(L) == Zeros(L);
    assert Zeros(L) + Zeros(L) + Zeros(0) == Zeros(L) + (Zeros(L) + Zeros(0));
  }

  /** The slicing loop of load_coeff(), with its three cases, applied to scaled taps. */
  method LoadCoeff(taps: Samples, scale: real, nBlocks: nat, L: nat) returns (cbuf: seq<Samples>)
    requires 0 < L
    ensures cbuf == CoeffParts(Scale(scale, taps), nBlocks, L)
  {
    var coeffs := Scale(scale, taps);
    var zbuf := Zeros(L);
    cbuf := [];
    var n, start := 0, 0;
    while n < nBlocks
      invariant 0 <= n <= nBlocks && start == n * L
      invariant cbuf == CoeffParts(coeffs, n, L)
    {
      var block;
      if start > |taps| {
        block := zbuf;
        PaddedZeros(L);
      } else if start + L > |taps| {
        block := coeffs[start..];
      } else {
        block := coeffs[start..start + L];
      }
      PartsExtend(coeffs, n, L, block);
      cbuf := cbuf + [CoeffSpectrum(block, L)];
      n, start := n + 1, start + L;
    }
  }

  // ----- from partition sums to the direct form -----

  /** What the transform scaling contributes cancels. */
  lemma {:induction false} ScalingCancels(x: Samples, h: Samples, L: nat, m: nat)
    requires 0 < L && |x| == 2 * L && |h| <= L && m < 2 * L
    ensures FreqToTime(Circ(x, CoeffSpectrum(h, L)))[m] == Circ(x, Padded(h, L))[m]
  {
    var n := 2 * L;
    CircScale(x, Inverse(n), Padded(h, L));
    InverseCancels(n, Circ(x, Padded(h, L))[m]);
  }

  lemma {:induction false} InverseCancels(n: nat, y: real)
    requires n > 0
    ensures n as real * (Inverse(n) * y) == y
  {
    assert n as real * Inverse(n) == 1.0;
    ScaleProduct(n as real, Inverse(n), y);
  }

  lemma {:induction false} TimeAdd(x: Samples, y: Samples, m: nat)
    requires m < |x| == |y|
    ensures FreqToTime(Add(x, y))[m] == FreqToTime(x)[m] + FreqToTime(y)[m]
  {
    Distributes(|x| as real, x[m], y[m]);
  }

  lemma {:induction false} Distributes(a: real, b: real, c: real)
    ensures a * (b + c) == a * b + a * c
  {
  }

  /** One partition over its frame is the FIR of its slice. */
  lemma {:induction false} PartitionFir(slice: Samples, L: nat, s: Samples, base: int, m: nat)
    requires 0 < L && |slice| <= L && m < L
    ensures FreqToTime(Circ(Window(s, base, 2 * L), CoeffSpectrum(slice, L)))[m] == Fir(slice, s, base + L + m)
  {
    ScalingCancels(Window(s, base, 2 * L), slice, L, m);
    OverlapSaveStream(s, base, slice, L, m);
  }

  /** Sums of buffers of the right size keep the size, and measure as the sum of the measurements. */
  ghost predicate Linear(ops: SpectrumOps<Samples>, ok: Samples -> bool, measure: Samples -> real) {
    forall x, y {:trigger ops.add(x, y)} :: ok(x) && ok(y) ==>
      ok(ops.add(x, y)) && measure(ops.add(x, y)) == measure(x) + measure(y)
  }

  ghost predicate MeasuresProduct(ops: SpectrumOps<Samples>, ok: Samples -> bool, measure: Samples -> real,
                                  frame: Samples, part: Samples, value: real) {
    ok(ops.convolve(frame, part)) && measure(ops.convolve(frame, part)) == value
  }

  /** Product i measures g(i). */
  ghost predicate Measured(ops: SpectrumOps<Samples>, ok: Samples -> bool, measure: Samples -> real,
                           frames: seq<Samples>, parts: seq<Samples>, n: nat, g: int -> real) {
    && n <= |frames| && n <= |parts|
    && forall i {:trigger g(i)} :: 0 <= i < n ==> MeasuresProduct(ops, ok, measure, frames[i], parts[i], g(i))
  }

  /** A linear measurement of a partition sum is the sum of the measurements of its products. */
  lemma {:induction false} PartSumLinear(ops: SpectrumOps<Samples>, ok: Samples -> bool, measure: Samples -> real,
                                         frames: seq<Samples>, parts: seq<Samples>, n: nat, g: int -> real)
    requires 0 < n <= |frames| && n <= |parts|
    requires Linear(ops, ok, measure) && Measured(ops, ok, measure, frames, parts, n, g)
    ensures ok(ops.PartSum(frames, parts, n)) && measure(ops.PartSum(frames, parts, n)) == Sum(n, g)
  {
    assert MeasuresProduct(ops, ok, measure, frames[n - 1], parts[n - 1], g(n - 1));
    if n > 1 {
      PartSumLinear(ops, ok, measure, frames, parts, n - 1, g);
    }
  }

  lemma {:induction false} FullSumLinear(ops: SpectrumOps<Samples>, ok: Samples -> bool, measure: Samples -> real,
                                         frames: seq<Samples>, parts: seq<Samples>, g: int -> real, v: real)
    requires 0 < |frames| == |parts| && v == Sum(|parts|, g)
    requires Linear(ops, ok, measure) && Measured(ops, ok, measure, frames, parts, |parts|, g)
    ensures ok(ops.FullSum(frames, parts)) && measure(ops.FullSum(frames, parts)) == v
  {
    PartSumLinear(ops, ok, measure, frames, parts, |frames|, g);
  }

  function SliceTerm(taps: Samples, L: nat, s: Samples, p: int): int -> real {
    i => if i >= 0 then Fir(Slice(taps, i, L), s, p - i * L) else 0.0
  }

  /** The FIR of the slice that starts at tap o is the run of L terms from term o on. */
  lemma {:induction false} SliceFir(taps: Samples, slice: Samples, o: int, L: nat, s: Samples, p: int, g: int -> real)
    requires |slice| <= L
    requires forall k :: 0 <= k < L ==> At(slice, k) == At(taps, o + k)
    requires forall k :: 0 <= k < L ==> g(k) == FirTerm(taps, s, p)(o + k)
    ensures Fir(slice, s, p - o) == Sum(L, g)
  {
    var f := FirTerm(slice, s, p - o);
    forall k | 0 <= k < L
      ensures f(k) == g(k)
    {
      assert p - o - k == p - (o + k);
    }
    SumEq(L, f, g);
    FirExtend(slice, s, p - o, L);
  }

  /** The FIRs of n slices, each delayed by its position, add up to the FIR of the first n*L taps. */
  lemma {:induction false} SlicesFir(taps: Samples, n: nat, len: nat, L: nat, s: Samples, p: int)
    requires len == n * L
    ensures Sum(n, SliceTerm(taps, L, s, p)) == FirOf(len, taps, s, p)
  {
    var f, row := FirTerm(taps, s, p), SliceTerm(taps, L, s, p);
    var cell := (r, k) => f(r * L + k);
    forall r | 0 <= r < n
      ensures row(r) == Sum(L, k => cell(r, k))
    {
      var g := k => cell(r, k);
      forall k | 0 <= k < L
        ensures At(Slice(taps, r, L), k) == At(taps, r * L + k)
      {
        SliceAt(taps, r, L, k);
      }
      SliceFir(taps, Slice(taps, r, L), r * L, L, s, p, g);
      SumEq(L, g, k => cell(r, k));
    }
    SumRows(n, L, f, row, cell);
  }

  /** frames are the windows of s that start at base, base - L, base - 2L, ... */
  ghost predicate SlidingFrames(frames: seq<Samples>, s: Samples, base: int, L: nat) {
    forall i :: 0 <= i < |frames| ==> frames[i] == Window(s, base - i * L, 2 * L)
  }

  function TimeSample(m: nat): Samples -> real {
    x => if m < |x| then FreqToTime(x)[m] else 0.0
  }

  lemma {:induction false} MeasurePartition(taps: Samples, i: nat, o: nat, L: nat, s: Samples, base: int, m: nat)
    requires 0 < L && m < L && o == i * L
    ensures TimeSample(m)(Circ(Window(s, base - o, 2 * L), CoeffSpectrum(Slice(taps, i, L), L)))
         == SliceTerm(taps, L, s, base + L + m)(i)
  {
    PartitionFir(Slice(taps, i, L), L, s, base - o, m);
    assert base - o + L + m == base + L + m - o;
  }

  predicate FullSize(x: Samples, L: nat) {
    |x| == 2 * L
  }

  function SizeCheck(L: nat): Samples -> bool {
    x => FullSize(x, L)
  }

  lemma {:induction false} MeasureIsLinear(L: nat, m: nat)
    requires 0 < L && m < L
    ensures Linear(Ops(L), SizeCheck(L), TimeSample(m))
  {
    forall x, y {:trigger Ops(L).add(x, y)} | SizeCheck(L)(x) && SizeCheck(L)(y)
      ensures SizeCheck(L)(Ops(L).add(x, y))
      ensures TimeSample(m)(Ops(L).add(x, y)) == TimeSample(m)(x) + TimeSample(m)(y)
    {
      TimeAdd(x, y, m);
    }
  }

  lemma {:induction false} MeasureProduct(frame: Samples, part: Samples, taps: Samples, i: nat, L: nat, s: Samples,
                                          base: int, m: nat)
    requires 0 < L && m < L && frame == Window(s, base - i * L, 2 * L) && part == CoeffSpectrum(Slice(taps, i, L), L)
    ensures MeasuresProduct(Ops(L), SizeCheck(L), TimeSample(m), frame, part, SliceTerm(taps, L, s, base + L + m)(i))
  {
    MeasurePartition(taps, i, i * L, L, s, base, m);
    assert Ops(L).convolve(frame, part) == Circ(frame, part);
  }

  lemma {:induction false} MeasureProducts(frames: seq<Samples>, parts: seq<Samples>, taps: Samples, L: nat, s: Samples,
                                           base: int, m: nat)
    requires 0 < L && m < L && |parts| == |frames| && SlidingFrames(frames, s, base, L)
    requires parts == CoeffParts(taps, |parts|, L)
    ensures Measured(Ops(L), SizeCheck(L), TimeSample(m), frames, parts, |parts|, SliceTerm(taps, L, s, base + L + m))
  {
    var g := SliceTerm(taps, L, s, base + L + m);
    forall i {:trigger g(i)} | 0 <= i < |parts|
      ensures MeasuresProduct(Ops(L), SizeCheck(L), TimeSample(m), frames[i], parts[i], g(i))
    {
      assert frames[i] == Window(s, base - i * L, 2 * L);
      MeasureProduct(frames[i], parts[i], taps, i, L, s, base, m);
    }
  }

  lemma {:induction false} FullSumMeasure(ops: SpectrumOps<Samples>, frames: seq<Samples>, parts: seq<Samples>,
                                          taps: Samples, L: nat, s: Samples, base: int, m: nat, v: real)
    requires 0 < L && m < L && 0 < |parts| == |frames| && SlidingFrames(frames, s, base, L) && ops == Ops(L)
    requires parts == CoeffParts(taps, |parts|, L) && v == Sum(|parts|, SliceTerm(taps, L, s, base + L + m))
    ensures SizeCheck(L)(ops.FullSum(frames, parts))
    ensures TimeSample(m)(ops.FullSum(frames, parts)) == v
  {
    MeasureIsLinear(L, m);
    MeasureProducts(frames, parts, taps, L, s, base, m);
    FullSumLinear(ops, SizeCheck(L), TimeSample(m), frames, parts, SliceTerm(taps, L, s, base + L + m), v);
  }

  /** The first half of the time-domain result of all partitions is the FIR of the taps they cover. */
  lemma {:induction false} FullSumFir(ops: SpectrumOps<Samples>, frames: seq<Samples>, parts: seq<Samples>,
                                      taps: Samples, len: nat, L: nat, s: Samples, base: int, m: nat)
    requires 0 < L && m < L && 0 < |parts| == |frames| && SlidingFrames(frames, s, base, L) && ops == Ops(L)
    requires parts == CoeffParts(taps, |parts|, L) && len == |parts| * L
    ensures SizeCheck(L)(ops.FullSum(frames, parts))
    ensures TimeSample(m)(ops.FullSum(frames, parts)) == FirOf(len, taps, s, base + L + m)
  {
    var v := SlicesTotal(taps, |parts|, len, L, s, base + L + m);
    FullSumMeasure(ops, frames, parts, taps, L, s, base, m, v);
  }

  lemma {:induction false} SlicesTotal(taps: Samples, n: nat, len: nat, L: nat, s: Samples, p: int) returns (v: real)
    requires len == n * L
    ensures v == Sum(n, SliceTerm(taps, L, s, p)) && v == FirOf(len, taps, s, p)
  {
    SlicesFir(taps, n, len, L, s, p);
    v := FirOf(len, taps, s, p);
  }
}
