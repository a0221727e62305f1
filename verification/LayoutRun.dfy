/** The partitioned filter on the buffers of the program: half-complex spectra in layout order. Whatever it
    computes with them represents what it computes with the time sequences they stand for, so that its
    output, transformed back, is the direct-form FIR. */
module LayoutRun {
  import opened Sums
  import opened Convolution
  import opened PartitionedFilter
  import opened PartitionedFir
  import opened FilterRun
  import opened Spectrum
  import opened SpectrumLayout
  import opened SpectrumForms
  import opened Representation
  import opened Morphism
  import opened Inversion

  function SilentQuad(): Quad {
    Quad(0.0, 0.0, 0.0, 0.0)
  }

  function SilentLayout(n: nat): (b: Layout)
    requires Divided(n)
    ensures 4 * |b| == n
  {
    seq(Quarter(n), _ => SilentQuad())
  }

  function ProductOf(b: Layout, c: Layout): Layout {
    if Multipliable(b, c) then Product(b, c) else b
  }

  function SumOf(b: Layout, c: Layout): Layout {
    if |b| == |c| then AddLayouts(b, c) else b
  }

  function MixOf(bs: seq<Layout>, scales: seq<real>, n: nat): Layout
    requires Divided(n)
  {
    if SameLayoutLength(bs, scales, n) then MixLayouts(bs, scales, n) else SilentLayout(n)
  }

  /** The convolver's operations on layout buffers of n reals. */
  function LayoutOps(n: nat): SpectrumOps<Layout>
    requires Divided(n)
  {
    SpectrumOps(SilentLayout(n),
                ToLayout(ImpulseSpectrum(n, Inverse(n))),
                (b, c) => ProductOf(b, c),
                (b, c) => SumOf(b, c),
                (bs, scales) => MixOf(bs, scales, n))
  }

  // ----- silence -----

  lemma {:induction false} SilentProduct(n: nat, c: Layout)
    requires Divided(n)
    ensures ProductOf(SilentLayout(n), c) == SilentLayout(n)
  {
    var b := SilentLayout(n);
    if Multipliable(b, c) {
      forall q | 0 <= q < |b|
        ensures Product(b, c)[q] == b[q]
      {
        assert Product(b, c)[q] == ProductQuad(b, c, q);
        SilentProductQuad(b, c, q);
      }
    }
  }

  lemma {:induction false} SilentProductQuad(b: Layout, c: Layout, q: nat)
    requires Multipliable(b, c) && q < |b| && forall p :: 0 <= p < |b| ==> b[p] == SilentQuad()
    ensures ProductQuad(b, c, q) == SilentQuad()
  {
    var p := Paired(q);
    assert b[q] == SilentQuad() && b[p] == SilentQuad();
  }

  lemma {:induction false} SilentSum(n: nat, b: Layout)
    requires Divided(n)
    ensures SumOf(b, SilentLayout(n)) == b
  {
    var c := SilentLayout(n);
    if |b| == |c| {
      forall q | 0 <= q < |b|
        ensures AddLayouts(b, c)[q] == b[q]
      {
        assert c[q] == SilentQuad();
      }
    }
  }

  lemma {:induction false} SilentMix(bs: seq<Layout>, scales: seq<real>, n: nat)
    requires Divided(n) && forall i :: 0 <= i < |bs| ==> bs[i] == SilentLayout(n)
    ensures MixOf(bs, scales, n) == SilentLayout(n)
  {
    if SameLayoutLength(bs, scales, n) {
      var y := MixLayouts(bs, scales, n);
      forall q | 0 <= q < |y|
        ensures y[q] == SilentQuad()
      {
        SilentMixLane(bs, scales, n, q, 0);
        SilentMixLane(bs, scales, n, q, 1);
        SilentMixLane(bs, scales, n, q, 2);
        SilentMixLane(bs, scales, n, q, 3);
      }
    }
  }

  lemma {:induction false} SilentMixLane(bs: seq<Layout>, scales: seq<real>, n: nat, q: nat, j: nat)
    requires Divided(n) && SameLayoutLength(bs, scales, n) && 4 * q < n && j < 4
    requires forall i :: 0 <= i < |bs| ==> bs[i] == SilentLayout(n)
    ensures MixLane(bs, scales, q, j) == 0.0
  {
    var f := DotTerm(LaneColumn(bs, q, j), scales);
    forall i | 0 <= i < |bs|
      ensures f(i) == 0.0
    {
      assert bs[i][q] == SilentQuad();
      assert LaneColumn(bs, q, j)[i] == 0.0;
    }
    SumZero(|bs|, f);
  }

  lemma {:induction false} LayoutOpsLawful(n: nat)
    requires Divided(n)
    ensures LayoutOps(n).Lawful()
  {
    var ops := LayoutOps(n);
    forall c
      ensures ops.convolve(ops.silence, c) == ops.silence
    {
      SilentProduct(n, c);
    }
    forall x
      ensures ops.add(x, ops.silence) == x
    {
      SilentSum(n, x);
    }
    forall bs, scales | ops.AllSilent(bs)
      ensures ops.mix(bs, scales) == ops.silence
    {
      SilentMix(bs, scales, n);
    }
  }

  // ----- representation -----

  lemma {:induction false} SilentTransform(n: nat, f: int -> real)
    ensures Transform(Zeros(n), f) == 0.0
  {
    var x := Zeros(n);
    forall i | 0 <= i < n
      ensures TransformTerm(x, f)(i) == 0.0
    {
      ZeroTimes(At(x, i), f(i));
    }
    SumZero(n, TransformTerm(x, f));
  }

  lemma {:induction false} SilenceRepresents(tw: Twiddles)
    requires tw.Valid() && Divided(tw.n)
    ensures Represents(tw, SilentLayout(tw.n), Zeros(tw.n))
  {
    var y := HalfComplex(tw, Zeros(tw.n));
    forall k | 0 <= k < tw.n
      ensures y[k] == 0.0
    {
      SilentTransform(tw.n, tw.CosWave(k));
      SilentTransform(tw.n, tw.SinWave(tw.n - k));
    }
    forall g: nat | 8 * g + 8 <= tw.n
      ensures SilentLayout(tw.n)[2 * g] == RealQuad(y, g) && SilentLayout(tw.n)[2 * g + 1] == ImagQuad(y, g)
    {
    }
  }

  lemma {:induction false} DiracSetRepresents(tw: Twiddles)
    requires tw.Valid() && Divided(tw.n)
    ensures Represents(tw, LayoutOps(tw.n).dirac, CoeffSpectrum([1.0], tw.n / 2))
  {
    SpectrumOfImpulse(tw);
    ToLayoutIsLayout(ImpulseSpectrum(tw.n, Inverse(tw.n)));
  }

  lemma {:induction false} MixRepresents(tw: Twiddles, bs: seq<Layout>, xs: seq<Samples>, scales: seq<real>)
    requires tw.Valid() && Divided(tw.n) && AllRepresent(tw, bs, xs) && |scales| == |bs|
    ensures Represents(tw, MixOf(bs, scales, tw.n), Mix(xs, scales, tw.n))
  {
    forall i | 0 <= i < |bs|
      ensures 4 * |bs[i]| == tw.n && |xs[i]| == tw.n
    {
      assert Represents(tw, bs[i], xs[i]);
    }
    if |bs| == 0 {
      SilenceRepresents(tw);
      assert Mix(xs, scales, tw.n) == Zeros(tw.n);
    } else {
      MixedLayouts(tw, bs, xs, scales);
      InputMixRepresents(tw, MixLayouts(bs, scales, tw.n), xs, scales);
    }
  }

  /** Mixing ordered spectra in INPUT mode leaves the same buffer. */
  lemma {:induction false} InputModeIsMix(tw: Twiddles, b: Layout, bs: seq<Layout>, xs: seq<Samples>, scales: seq<real>)
    requires tw.Valid() && Divided(tw.n) && AllRepresent(tw, bs, xs) && |scales| == |bs| > 0
    requires IsLayoutOf(b, Mix(Spectra(tw, xs), scales, tw.n))
    ensures b == LayoutOps(tw.n).mix(bs, scales)
  {
    forall i | 0 <= i < |bs|
      ensures 4 * |bs[i]| == tw.n
    {
      assert Represents(tw, bs[i], xs[i]);
    }
    MixedLayouts(tw, bs, xs, scales);
    LayoutInjective(b, MixLayouts(bs, scales, tw.n), Mix(Spectra(tw, xs), scales, tw.n),
                    Mix(Spectra(tw, xs), scales, tw.n));
  }

  /** Represents, as a relation. */
  ghost function Meaning(tw: Twiddles): (Layout, Samples) -> bool {
    (b, x) => Represents(tw, b, x)
  }

  /** The operations on layout buffers represent those on sequences. */
  lemma {:induction false} OperationsRepresent(tw: Twiddles)
    requires tw.Valid() && Divided(tw.n)
    ensures Keeps(Meaning(tw), LayoutOps(tw.n), Ops(tw.n / 2))
  {
    var a, b := LayoutOps(tw.n), Ops(tw.n / 2);
    SilenceRepresents(tw);
    forall x, y, c, d | Represents(tw, x, y) && Represents(tw, c, d)
      ensures Represents(tw, a.convolve(x, c), b.convolve(y, d)) && Represents(tw, a.add(x, c), b.add(y, d))
    {
      ProductRepresents(tw, x, y, c, d);
      SumRepresents(tw, x, y, c, d);
    }
  }

  // ----- runs -----

  ghost predicate CoeffRepresents(tw: Twiddles, a: Coeff<Layout>, b: Coeff<Samples>) {
    match a
    case Dirac => b.Dirac?
    case Partitions(blocks) => b.Partitions? && AllRepresent(tw, blocks, b.blocks)
  }

  lemma {:induction false} UsedPartsRepresent(tw: Twiddles, a: Coeff<Layout>, b: Coeff<Samples>, d: nat, nBlocks: nat)
    requires tw.Valid() && Divided(tw.n) && CoeffRepresents(tw, a, b) && d < nBlocks
    requires a.Partitions? ==> |a.blocks| > 0
    ensures b.Partitions? ==> |b.blocks| > 0
    ensures AllRelated(Meaning(tw), UsedParts(LayoutOps(tw.n), a, d, nBlocks), UsedParts(Ops(tw.n / 2), b, d, nBlocks))
  {
    DiracSetRepresents(tw);
  }

  /** A filter on layout buffers that has processed t blocks. */
  ghost predicate LayoutFilterAt(tw: Twiddles, L: nat, f: FilterState<Layout>, mixed: Samples, st: Stage, nBlocks: nat,
                                 powersave: bool, t: nat)
    reads f.Repr()
  {
    && tw.Valid() && Divided(tw.n) && tw.n == 2 * L && nBlocks > 0 && t <= |st.choices|
    && ValidStage(st, |st.choices|, nBlocks, powersave)
    && f.ops == LayoutOps(tw.n) && f.nBlocks == nBlocks && f.powersave == powersave && f.Valid()
    && SameHistory(Meaning(tw), f.history, RunHistory(mixed, st.choices, ClampDelay(st.delay, nBlocks), nBlocks, L, t))
  }

  /** The spectra of a block, one for each channel, and the coefficients chosen for it. */
  datatype Feed = Feed(spectra: seq<Layout>, coeff: Coeff<Layout>)

  /** The frames of the channels from `base` on, and the coefficients c. */
  ghost predicate Feeds(tw: Twiddles, feed: Feed, chans: seq<Samples>, c: Coeff<Samples>, base: int) {
    AllRepresent(tw, feed.spectra, Windows(chans, base, tw.n)) && CoeffRepresents(tw, feed.coeff, c)
  }

  /** The block that the sequence history gains. */
  ghost function NextBlock(mixed: Samples, c: Coeff<Samples>, d: nat, nBlocks: nat, L: nat, base: int): Block<Samples>
    requires L > 0 && d < nBlocks && (c.Partitions? ==> 0 < |c.blocks| <= nBlocks)
  {
    Block(Window(mixed, base, 2 * L), d, UsedParts(Ops(L), c, d, nBlocks))
  }

  lemma {:induction false} ChosenSizes(st: Stage, nBlocks: nat, L: nat, powersave: bool, t: nat)
    requires L > 0 && nBlocks > 0 && t < |st.choices| && ValidStage(st, |st.choices|, nBlocks, powersave)
    ensures CoeffOf(st.choices[t], L).Partitions? ==> 0 < |CoeffOf(st.choices[t], L).blocks| <= nBlocks
  {
    assert ValidChoice(st.choices[t], nBlocks);
    UsedPartsAre(st.choices[t], ClampDelay(st.delay, nBlocks), nBlocks, L);
  }

  lemma {:induction false} HistoryGains(mixed: Samples, st: Stage, nBlocks: nat, L: nat, powersave: bool, t: nat,
                                        base: int)
    requires L > 0 && nBlocks > 0 && t < |st.choices| && ValidStage(st, |st.choices|, nBlocks, powersave)
    requires base == t * L - L
    requires CoeffOf(st.choices[t], L).Partitions? ==> 0 < |CoeffOf(st.choices[t], L).blocks| <= nBlocks
    ensures var d := ClampDelay(st.delay, nBlocks);
      RunHistory(mixed, st.choices, d, nBlocks, L, t)
        + [NextBlock(mixed, CoeffOf(st.choices[t], L), d, nBlocks, L, base)]
      == RunHistory(mixed, st.choices, d, nBlocks, L, t + 1)
  {
    var d := ClampDelay(st.delay, nBlocks);
    UsedPartsAre(st.choices[t], d, nBlocks, L);
    RunHistoryStep(mixed, st.choices, d, nBlocks, L, t,
                   NextBlock(mixed, CoeffOf(st.choices[t], L), d, nBlocks, L, base));
  }

  /** What block t of the filter stands for. */
  ghost predicate StandsForBlock(tw: Twiddles, L: nat, ocbuf: Layout, y: Samples, mixed: Samples, st: Stage,
                                 nBlocks: nat, t: nat)
    requires nBlocks > 0 && t < |st.choices|
  {
    && Represents(tw, ocbuf, y) && L <= |y|
    && IsStageBlock(FreqToTime(y)[..L], mixed, st, nBlocks, L, t)
  }

  function SilentFlags(spectra: seq<Layout>, silence: Layout, powersave: bool): (zeros: seq<bool>)
    ensures |zeros| == |spectra| && forall i :: 0 <= i < |spectra| && zeros[i] ==> spectra[i] == silence
  {
    seq(|spectra|, i requires 0 <= i < |spectra| => powersave && spectra[i] == silence)
  }

  lemma {:induction false} CoeffSizes(tw: Twiddles, a: Coeff<Layout>, b: Coeff<Samples>, nBlocks: nat)
    requires CoeffRepresents(tw, a, b) && (b.Partitions? ==> 0 < |b.blocks| <= nBlocks)
    ensures a.Partitions? ==> 0 < |a.blocks| <= nBlocks
  {
  }

  lemma {:induction false} MixedFrame(tw: Twiddles, spectra: seq<Layout>, windows: seq<Samples>, scales: seq<real>,
                                      chans: seq<Samples>, mixed: Samples, base: int)
    requires tw.Valid() && Divided(tw.n) && AllRepresent(tw, spectra, windows) && windows == Windows(chans, base, tw.n)
    requires |scales| == |chans| && Lengths(chans, |mixed|) && mixed == MixedStream(chans, scales, |mixed|)
    ensures Represents(tw, LayoutOps(tw.n).mix(spectra, scales), Window(mixed, base, tw.n))
  {
    MixWindows(chans, scales, |mixed|, base, tw.n);
    MixRepresents(tw, spectra, windows, scales);
  }

  lemma {:induction false} FeedParts(tw: Twiddles, a: Coeff<Layout>, b: Coeff<Samples>, d: nat, nBlocks: nat)
    requires tw.Valid() && Divided(tw.n) && d < nBlocks
    requires CoeffRepresents(tw, a, b) && (b.Partitions? ==> 0 < |b.blocks| <= nBlocks)
    ensures a.Partitions? ==> 0 < |a.blocks| <= nBlocks
    ensures AllRelated(Meaning(tw), UsedParts(LayoutOps(tw.n), a, d, nBlocks), UsedParts(Ops(tw.n / 2), b, d, nBlocks))
  {
    CoeffSizes(tw, a, b, nBlocks);
    UsedPartsRepresent(tw, a, b, d, nBlocks);
  }

  /** The block that the filter's history gains. */
  lemma {:induction false} FeedRepresents(tw: Twiddles, feed: Feed, scales: seq<real>, chans: seq<Samples>,
                                          mixed: Samples, c: Coeff<Samples>, nBlocks: nat, base: int,
                                          last: Block<Samples>)
    requires tw.Valid() && Divided(tw.n) && last.delay < nBlocks
    requires |scales| == |chans| && Lengths(chans, |mixed|) && mixed == MixedStream(chans, scales, |mixed|)
    requires AllRepresent(tw, feed.spectra, Windows(chans, base, tw.n)) && last.frame == Window(mixed, base, tw.n)
    requires CoeffRepresents(tw, feed.coeff, c) && (c.Partitions? ==> 0 < |c.blocks| <= nBlocks)
    requires last.parts == UsedParts(Ops(tw.n / 2), c, last.delay, nBlocks)
    ensures feed.coeff.Partitions? ==> 0 < |feed.coeff.blocks| <= nBlocks
    ensures SameBlock(Meaning(tw), Block(LayoutOps(tw.n).mix(feed.spectra, scales), last.delay,
                                UsedParts(LayoutOps(tw.n), feed.coeff, last.delay, nBlocks)), last)
  {
    MixedFrame(tw, feed.spectra, Windows(chans, base, tw.n), scales, chans, mixed, base);
    FeedParts(tw, feed.coeff, c, last.delay, nBlocks);
  }

  lemma {:induction false} NextRepresents(tw: Twiddles, feed: Feed, scales: seq<real>, chans: seq<Samples>,
                                          mixed: Samples, c: Coeff<Samples>, d: nat, nBlocks: nat, L: nat, base: int)
    requires tw.Valid() && Divided(tw.n) && 2 * L == tw.n && d < nBlocks
    requires AllRepresent(tw, feed.spectra, Windows(chans, base, tw.n)) && CoeffRepresents(tw, feed.coeff, c)
    requires c.Partitions? ==> 0 < |c.blocks| <= nBlocks
    requires |scales| == |chans| && Lengths(chans, |mixed|) && mixed == MixedStream(chans, scales, |mixed|)
    ensures feed.coeff.Partitions? ==> 0 < |feed.coeff.blocks| <= nBlocks
    ensures SameBlock(Meaning(tw),
                      Block(LayoutOps(tw.n).mix(feed.spectra, scales), d,
                            UsedParts(LayoutOps(tw.n), feed.coeff, d, nBlocks)),
                      NextBlock(mixed, c, d, nBlocks, L, base))
  {
    FeedRepresents(tw, feed, scales, chans, mixed, c, nBlocks, base, NextBlock(mixed, c, d, nBlocks, L, base));
  }

  lemma {:induction false} FeedNext(tw: Twiddles, feed: Feed, scales: seq<real>, chans: seq<Samples>, mixed: Samples,
                                    st: Stage, nBlocks: nat, L: nat, powersave: bool, t: nat)
    returns (last: Block<Samples>)
    requires tw.Valid() && Divided(tw.n) && 2 * L == tw.n && nBlocks > 0 && t < |st.choices|
    requires ValidStage(st, |st.choices|, nBlocks, powersave)
    requires Feeds(tw, feed, chans, CoeffOf(st.choices[t], L), t * L - L)
    requires |scales| == |chans| && Lengths(chans, |mixed|) && mixed == MixedStream(chans, scales, |mixed|)
    ensures feed.coeff.Partitions? ==> 0 < |feed.coeff.blocks| <= nBlocks
    ensures var d := ClampDelay(st.delay, nBlocks);
      && SameBlock(Meaning(tw),
                   Block(LayoutOps(tw.n).mix(feed.spectra, scales), d,
                         UsedParts(LayoutOps(tw.n), feed.coeff, d, nBlocks)),
                   last)
      && RunHistory(mixed, st.choices, d, nBlocks, L, t) + [last] == RunHistory(mixed, st.choices, d, nBlocks, L, t + 1)
  {
    var d, base, c := ClampDelay(st.delay, nBlocks), t * L - L, CoeffOf(st.choices[t], L);
    ChosenSizes(st, nBlocks, L, powersave, t);
    NextRepresents(tw, feed, scales, chans, mixed, c, d, nBlocks, L, base);
    HistoryGains(mixed, st, nBlocks, L, powersave, t, base);
    last := NextBlock(mixed, c, d, nBlocks, L, base);
  }

  /** The output buffer stands for the block. */
  lemma {:induction false} OutputStandsFor(tw: Twiddles, ocbuf: Layout, a: seq<Block<Layout>>, mixed: Samples,
                                           st: Stage, nBlocks: nat, L: nat, powersave: bool, t: nat)
    returns (y: Samples)
    requires tw.Valid() && Divided(tw.n) && L == tw.n / 2
    requires nBlocks > 0 && t < |st.choices| && ValidStage(st, |st.choices|, nBlocks, powersave)
    requires SameHistory(Meaning(tw), a,
                         RunHistory(mixed, st.choices, ClampDelay(st.delay, nBlocks), nBlocks, L, t + 1))
    requires |a| == t + 1 && |a[t].parts| > 0 && (Regular(a, powersave) ==> ocbuf == Expected(LayoutOps(tw.n), a))
    ensures StandsForBlock(tw, L, ocbuf, y, mixed, st, nBlocks, t)
  {
    var d := ClampDelay(st.delay, nBlocks);
    var b := RunHistory(mixed, st.choices, d, nBlocks, L, t + 1);
    RunRegular(mixed, st.choices, d, nBlocks, L, t, powersave);
    SameRegular(Meaning(tw), a, b, powersave);
    OperationsRepresent(tw);
    ExpectedRelated(Meaning(tw), LayoutOps(tw.n), Ops(L), a, b);
    y := Expected(Ops(L), b);
    FirstHalfIsFir(y, mixed, st, nBlocks, L, t);
  }

  lemma {:induction false} FirstHalfIsFir(y: Samples, mixed: Samples, st: Stage, nBlocks: nat, L: nat, t: nat)
    requires L > 0 && nBlocks > 0 && t < |st.choices| && ValidChoices(st.choices, nBlocks)
    requires y == Expected(Ops(L), RunHistory(mixed, st.choices, ClampDelay(st.delay, nBlocks), nBlocks, L, t + 1))
    ensures |y| == 2 * L && IsStageBlock(FreqToTime(y)[..L], mixed, st, nBlocks, L, t)
  {
    var d := ClampDelay(st.delay, nBlocks);
    ExpectedIsFir(y, mixed, st.choices, d, nBlocks, L, t, 0);
    var block := FreqToTime(y)[..L];
    forall m | 0 <= m < L
      ensures block[m] == RunSample(mixed, st.choices, d, nBlocks, L, t, m)
    {
      ExpectedIsFir(y, mixed, st.choices, d, nBlocks, L, t, m);
    }
  }

  /** Feed t holds the frames of the channels and the coefficients of the stage. */
  ghost predicate FeedAt(tw: Twiddles, L: nat, feed: Feed, chans: seq<Samples>, st: Stage, nBlocks: nat, t: nat)
    requires L > 0 && nBlocks > 0 && t < |st.choices|
  {
    CounterSafe(t, nBlocks) && Feeds(tw, feed, chans, CoeffOf(st.choices[t], L), t * L - L)
  }

  ghost predicate AllFeed(tw: Twiddles, L: nat, feeds: seq<Feed>, chans: seq<Samples>, st: Stage, nBlocks: nat)
    requires L > 0 && nBlocks > 0 && |feeds| == |st.choices|
  {
    forall t: nat :: t < |feeds| ==> FeedAt(tw, L, feeds[t], chans, st, nBlocks, t)
  }

  /** One block of a filter on layout buffers. */
  method LayoutBlock(f: FilterState<Layout>, feed: Feed, scales: seq<real>, st: Stage, nBlocks: nat, powersave: bool,
                     ghost tw: Twiddles, ghost L: nat, ghost chans: seq<Samples>, ghost mixed: Samples, ghost t: nat)
    returns (ghost y: Samples)
    requires LayoutFilterAt(tw, L, f, mixed, st, nBlocks, powersave, t) && t < |st.choices|
    requires FeedAt(tw, L, feed, chans, st, nBlocks, t)
    requires |scales| == |chans| && Lengths(chans, |mixed|) && mixed == MixedStream(chans, scales, |mixed|)
    modifies f.Repr()
    ensures LayoutFilterAt(tw, L, f, mixed, st, nBlocks, powersave, t + 1)
    ensures StandsForBlock(tw, L, f.ocbuf, y, mixed, st, nBlocks, t)
  {
    ghost var h := f.history;
    ghost var b := RunHistory(mixed, st.choices, ClampDelay(st.delay, nBlocks), nBlocks, L, t);
    ghost var last := FeedNext(tw, feed, scales, chans, mixed, st, nBlocks, L, powersave, t);
    f.ProcessBlock(feed.spectra, SilentFlags(feed.spectra, f.ops.silence, powersave), scales, feed.coeff, st.delay);
    SameHistoryMore(Meaning(tw), h, b, f.history[t], last);
    y := OutputStandsFor(tw, f.ocbuf, f.history, mixed, st, nBlocks, L, powersave, t);
  }

  /** An output buffer stands for a sequence whose scaled first half is block t. */
  ghost predicate StandsForSome(tw: Twiddles, L: nat, ocbuf: Layout, mixed: Samples, st: Stage, nBlocks: nat, t: nat)
    requires nBlocks > 0 && t < |st.choices|
  {
    exists y :: StandsForBlock(tw, L, ocbuf, y, mixed, st, nBlocks, t)
  }

  ghost predicate AllStandForBlocks(tw: Twiddles, L: nat, output: seq<Layout>, mixed: Samples, st: Stage, nBlocks: nat)
    requires nBlocks > 0 && |output| <= |st.choices|
  {
    forall t :: 0 <= t < |output| ==> StandsForSome(tw, L, output[t], mixed, st, nBlocks, t)
  }

  lemma {:induction false} StandForMore(tw: Twiddles, L: nat, output: seq<Layout>, mixed: Samples, st: Stage,
                                        nBlocks: nat, ocbuf: Layout, y: Samples)
    requires nBlocks > 0 && |output| < |st.choices| && AllStandForBlocks(tw, L, output, mixed, st, nBlocks)
    requires StandsForBlock(tw, L, ocbuf, y, mixed, st, nBlocks, |output|)
    ensures AllStandForBlocks(tw, L, output + [ocbuf], mixed, st, nBlocks)
  {
    assert StandsForSome(tw, L, ocbuf, mixed, st, nBlocks, |output|);
  }

  method RunFeeds(f: FilterState<Layout>, feeds: seq<Feed>, scales: seq<real>, st: Stage, nBlocks: nat, powersave: bool,
                  ghost tw: Twiddles, ghost L: nat, ghost chans: seq<Samples>, ghost mixed: Samples)
    returns (output: seq<Layout>)
    requires LayoutFilterAt(tw, L, f, mixed, st, nBlocks, powersave, 0) && |feeds| == |st.choices|
    requires |scales| == |chans| && Lengths(chans, |mixed|) && mixed == MixedStream(chans, scales, |mixed|)
    requires AllFeed(tw, L, feeds, chans, st, nBlocks)
    modifies f.Repr()
    ensures |output| == |feeds| && AllStandForBlocks(tw, L, output, mixed, st, nBlocks)
  {
    output := [];
    while |output| < |feeds|
      invariant |output| <= |feeds|
      invariant LayoutFilterAt(tw, L, f, mixed, st, nBlocks, powersave, |output|)
      invariant AllStandForBlocks(tw, L, output, mixed, st, nBlocks)
    {
      ghost var y := LayoutBlock(f, feeds[|output|], scales, st, nBlocks, powersave, tw, L, chans, mixed, |output|);
      StandForMore(tw, L, output, mixed, st, nBlocks, f.ocbuf, y);
      output := output + [f.ocbuf];
    }
  }

  /** Runs a filter on the spectra of whole channels, block by block: every output buffer holds, in layout order, the
      spectrum of a sequence whose scaled first half is the block of the direct-form FIR. */
  method RunLayouts(feeds: seq<Feed>, scales: seq<real>, st: Stage, nBlocks: nat, n: nat, powersave: bool,
                    ghost tw: Twiddles, ghost L: nat, ghost chans: seq<Samples>)
    returns (output: seq<Layout>)
    requires tw.Valid() && tw.n == n == 2 * L && Divided(n) && nBlocks > 0
    requires ValidStage(st, |feeds|, nBlocks, powersave)
    requires |scales| == |chans| && Lengths(chans, |feeds| * L) && AllFeed(tw, L, feeds, chans, st, nBlocks)
    ensures |output| == |feeds|
    ensures AllStandForBlocks(tw, L, output, MixedStream(chans, scales, |feeds| * L), st, nBlocks)
  {
    LayoutOpsLawful(n);
    var f := new FilterState(LayoutOps(n), nBlocks, powersave);
    output := RunFeeds(f, feeds, scales, st, nBlocks, powersave, tw, L, chans, MixedStream(chans, scales, |feeds| * L));
  }

  // ----- back to samples -----

  /** A buffer stands for one sequence. */
  lemma {:induction false} OneMeaning(tw: Twiddles, b: Layout, x: Samples, y: Samples)
    requires Primitive(tw) && Represents(tw, b, x) && Represents(tw, b, y)
    ensures x == y
  {
    LayoutInjective(b, b, HalfComplex(tw, x), HalfComplex(tw, y));
    TransformInjective(tw, x, y);
  }

  /** The ordered spectrum of an output buffer, transformed back, starts with the block of the direct-form FIR. */
  lemma {:induction false} TransformedBack(tw: Twiddles, L: nat, ocbuf: Layout, mixed: Samples, st: Stage, nBlocks: nat,
                                           t: nat, ordered: Samples)
    requires Primitive(tw) && 0 < nBlocks && t < |st.choices| && IsLayoutOf(ocbuf, ordered)
    requires StandsForSome(tw, L, ocbuf, mixed, st, nBlocks, t)
    ensures L <= |ordered| && IsStageBlock(InverseTransform(tw, ordered)[..L], mixed, st, nBlocks, L, t)
    ensures L > 0 && ValidChoices(st.choices, nBlocks) ==>
      DirectBlock(InverseTransform(tw, ordered)[..L], mixed, st, nBlocks, L, t)
  {
    var y :| StandsForBlock(tw, L, ocbuf, y, mixed, st, nBlocks, t);
    LayoutInjective(ocbuf, ocbuf, ordered, HalfComplex(tw, y));
    InverseOfTransform(tw, y);
    assert InverseTransform(tw, ordered) == FreqToTime(y);
    if L > 0 && ValidChoices(st.choices, nBlocks) {
      StageBlockIsDirect(InverseTransform(tw, ordered)[..L], mixed, st, nBlocks, L, t);
    }
  }
}
