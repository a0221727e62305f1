/** All filters of one process: channels and filters feed filters, in the order in which they are processed. */
module Network {
  import opened Sums
  import opened Convolution
  import opened PartitionedFilter
  import opened PartitionedFir
  import opened FilterRun
  import opened Cascade

  /** The channels and the filters that a filter reads, each with a scale, and its coefficients and pre-delay. */
  datatype Filter = Filter(channels: seq<nat>, scales: seq<real>, upstream: seq<nat>, fscales: seq<real>, stage: Stage)

  function Pick<T>(xs: seq<T>, indices: seq<nat>): (ys: seq<T>)
    requires forall k :: 0 <= k < |indices| ==> indices[k] < |xs|
    ensures |ys| == |indices|
  {
    seq(|indices|, k requires 0 <= k < |indices| => xs[indices[k]])
  }

  /** Filters in processing order, and the whole input: so many blocks of every channel. */
  datatype Net = Net(chans: seq<Samples>, filters: seq<Filter>, blocks: nat, nBlocks: nat, partLen: nat,
                     powersave: bool)
  {
    ghost predicate Valid() {
      && partLen > 0 && nBlocks > 0 && Lengths(chans, Length())
      && (forall t :: 0 <= t < blocks ==> CounterSafe(t, nBlocks))
      && forall f :: 0 <= f < |filters| ==> ValidFilter(f)
    }

    function Length(): nat {
      blocks * partLen
    }

    /** A filter reads only filters that are processed before it. */
    ghost predicate ValidFilter(f: nat)
      requires f < |filters| && nBlocks > 0
    {
      var x := filters[f];
      && |x.scales| == |x.channels| && |x.fscales| == |x.upstream|
      && (forall k :: 0 <= k < |x.channels| ==> x.channels[k] < |chans|)
      && (forall k :: 0 <= k < |x.upstream| ==> x.upstream[k] < f)
      && ValidStage(x.stage, blocks, nBlocks, powersave)
    }

    /** The whole output of filter f: the direct-form FIR of its whole input. */
    ghost function Output(f: nat): (y: Samples)
      requires Valid() && f < |filters|
      ensures |y| == Length()
      decreases f, 4
    {
      assert ValidFilter(f);
      StageOutput(Input(f), filters[f].stage, nBlocks, partLen)
    }

    /** The whole outputs of the filters that f reads. */
    ghost function Upstream(f: nat): (ys: seq<Samples>)
      requires Valid() && f < |filters|
      ensures |ys| == |filters[f].upstream|
      decreases f, 0
    {
      assert ValidFilter(f);
      seq(|filters[f].upstream|, k requires 0 <= k < |filters[f].upstream| => Output(filters[f].upstream[k]))
    }

    ghost function Between(f: nat): (y: Samples)
      requires Valid() && f < |filters|
      ensures |y| == Length()
      decreases f, 1
    {
      Mix(Upstream(f), filters[f].fscales, Length())
    }

    /** What a filter mixes: its channels and, with scale one, the mix of the filters it reads. */
    ghost function Inputs(f: nat): (xs: seq<Samples>)
      requires Valid() && f < |filters|
      ensures Lengths(xs, Length())
      decreases f, 2
    {
      assert ValidFilter(f);
      var direct := Pick(chans, filters[f].channels);
      if filters[f].upstream == [] then direct else direct + [Between(f)]
    }

    function Scales(f: nat): seq<real>
      requires f < |filters|
    {
      if filters[f].upstream == [] then filters[f].scales else filters[f].scales + [1.0]
    }

    ghost function Input(f: nat): Samples
      requires Valid() && f < |filters|
      decreases f, 3
    {
      MixedStream(Inputs(f), Scales(f), Length())
    }
  }

  lemma {:induction false} UpstreamAt(net: Net, f: nat, k: nat)
    requires net.Valid() && f < |net.filters| && k < |net.filters[f].upstream|
    ensures net.filters[f].upstream[k] < f && net.Upstream(f)[k] == net.Output(net.filters[f].upstream[k])
  {
    assert net.ValidFilter(f);
  }

  /** Sample by sample: the output is the FIR of the whole input, with the taps that its block has chosen, delayed by
      the pre-delay. */
  lemma {:induction false} OutputIsFir(net: Net, f: nat, p: nat)
    requires net.Valid() && f < |net.filters| && p < net.Length()
    ensures DirectAt(net.Output(f), net.Input(f), net.filters[f].stage, net.nBlocks, net.partLen, p)
  {
    assert net.ValidFilter(f);
    var st := net.filters[f].stage;
    PositionBelow(p, net.blocks, net.partLen);
    assert ValidChoice(st.choices[p / net.partLen], net.nBlocks);
    StageOutputAt(net.Input(f), st, net.nBlocks, net.partLen, p);
    DirectSampleIs(net.Output(f)[p], st.choices[p / net.partLen], st.delay, net.Input(f), net.nBlocks, net.partLen, p);
  }

  // ----- what a filter reads -----

  /** Sample p of the k-th channel that filter f reads, scaled. */
  function ChannelTerm(net: Net, f: nat, p: int): int -> real
    requires f < |net.filters|
  {
    k =>
      if 0 <= k < |net.filters[f].channels| && net.filters[f].channels[k] < |net.chans|
      then At(net.chans[net.filters[f].channels[k]], p) * At(net.filters[f].scales, k) else 0.0
  }

  /** Sample p of the output of the k-th filter that filter f reads, scaled. */
  ghost function UpstreamTerm(net: Net, f: nat, p: nat): int -> real
    requires net.Valid() && f < |net.filters| && p < net.Length()
  {
    k =>
      if 0 <= k < |net.filters[f].upstream| && net.filters[f].upstream[k] < |net.filters|
      then net.Output(net.filters[f].upstream[k])[p] * At(net.filters[f].fscales, k) else 0.0
  }

  lemma {:induction false} MixSample(xs: seq<Samples>, scales: seq<real>, len: nat, p: nat)
    requires p < len
    ensures Mix(xs, scales, len)[p] == Sum(|xs|, MixTerm(xs, scales, p))
  {
  }

  lemma {:induction false} ChannelSum(net: Net, f: nat, p: nat, xs: seq<Samples>, scales: seq<real>)
    requires net.Valid() && f < |net.filters| && p < net.Length() && |net.filters[f].channels| <= |xs|
    requires forall k :: 0 <= k < |net.filters[f].channels| ==> net.filters[f].channels[k] < |net.chans|
    requires forall k :: 0 <= k < |net.filters[f].channels| ==> xs[k] == net.chans[net.filters[f].channels[k]]
    requires forall k :: 0 <= k < |net.filters[f].channels| ==> At(scales, k) == At(net.filters[f].scales, k)
    ensures Sum(|net.filters[f].channels|, MixTerm(xs, scales, p))
         == Sum(|net.filters[f].channels|, ChannelTerm(net, f, p))
  {
    SumEq(|net.filters[f].channels|, MixTerm(xs, scales, p), ChannelTerm(net, f, p));
  }

  lemma {:induction false} UpstreamTermAt(net: Net, f: nat, p: nat, k: nat)
    requires net.Valid() && f < |net.filters| && p < net.Length() && k < |net.filters[f].upstream|
    ensures MixTerm(net.Upstream(f), net.filters[f].fscales, p)(k) == UpstreamTerm(net, f, p)(k)
  {
    UpstreamAt(net, f, k);
    var y := net.Output(net.filters[f].upstream[k]);
    assert At(y, p) == y[p];
  }

  lemma {:induction false} BetweenSample(net: Net, f: nat, p: nat)
    requires net.Valid() && f < |net.filters| && p < net.Length()
    ensures net.Between(f)[p] == Sum(|net.filters[f].upstream|, UpstreamTerm(net, f, p))
  {
    var n := |net.filters[f].upstream|;
    MixSample(net.Upstream(f), net.filters[f].fscales, net.Length(), p);
    forall k | 0 <= k < n
      ensures MixTerm(net.Upstream(f), net.filters[f].fscales, p)(k) == UpstreamTerm(net, f, p)(k)
    {
      UpstreamTermAt(net, f, p, k);
    }
    SumEq(n, MixTerm(net.Upstream(f), net.filters[f].fscales, p), UpstreamTerm(net, f, p));
  }

  lemma {:induction false} LastOfMix(xs: seq<Samples>, scales: seq<real>, x: Samples, p: nat)
    requires |xs| == |scales| && p < |x|
    ensures Sum(|xs| + 1, MixTerm(xs + [x], scales + [1.0], p))
         == Sum(|xs|, MixTerm(xs + [x], scales + [1.0], p)) + x[p]
  {
    var f, n := MixTerm(xs + [x], scales + [1.0], p), |xs|;
    assert (xs + [x])[n] == x && (scales + [1.0])[n] == 1.0;
    assert f(n) == At(x, p) * At(scales + [1.0], n) == x[p] * 1.0;
  }

  /** Every sample that a filter mixes: its channels, scaled, and the outputs of the filters that it reads, scaled. */
  lemma {:induction false} InputSample(net: Net, f: nat, p: nat)
    requires net.Valid() && f < |net.filters| && p < net.Length()
    ensures net.Input(f)[p]
         == Sum(|net.filters[f].channels|, ChannelTerm(net, f, p))
          + Sum(|net.filters[f].upstream|, UpstreamTerm(net, f, p))
  {
    assert net.ValidFilter(f);
    var x := net.filters[f];
    var direct, n := Pick(net.chans, x.channels), |x.channels|;
    MixSample(net.Inputs(f), net.Scales(f), net.Length(), p);
    if x.upstream == [] {
      ChannelSum(net, f, p, direct, x.scales);
      assert Sum(|x.upstream|, UpstreamTerm(net, f, p)) == 0.0;
    } else {
      var between := net.Between(f);
      ChannelSum(net, f, p, direct + [between], x.scales + [1.0]);
      LastOfMix(direct, x.scales, between, p);
      BetweenSample(net, f, p);
    }
  }

  lemma {:induction false} MixSingle(x: Samples, a: real)
    ensures Mix([x], [a], |x|) == Scale(a, x)
  {
    var mix, y := Mix([x], [a], |x|), Scale(a, x);
    forall j | 0 <= j < |x|
      ensures mix[j] == y[j]
    {
      var f := MixTerm([x], [a], j);
      assert f(0) == At(x, j) * At([a], 0) == x[j] * a;
      assert Sum(1, f) == Sum(0, f) + f(0);
    }
  }

  /** Two filters in series: the second one's input is the scaled output of the first, so that its output is the FIR
      of the first one's FIR, over the whole stream. */
  lemma {:induction false} SeriesInput(net: Net, f: nat)
    requires net.Valid() && f < |net.filters| && net.filters[f].channels == [] && |net.filters[f].upstream| == 1
    ensures net.filters[f].upstream[0] < f && |net.filters[f].fscales| == 1
    ensures net.Input(f) == Scale(net.filters[f].fscales[0], net.Output(net.filters[f].upstream[0]))
  {
    assert net.ValidFilter(f);
    UpstreamAt(net, f, 0);
    var x := net.filters[f];
    var y := net.Output(x.upstream[0]);
    assert net.Upstream(f) == [y] && x.fscales == [x.fscales[0]];
    MixSingle(y, x.fscales[0]);
    MixSingle(net.Between(f), 1.0);
    assert net.Inputs(f) == [net.Between(f)] && net.Scales(f) == [1.0];
    assert Scale(1.0, net.Between(f)) == net.Between(f);
  }

  // ----- the filters' state -----

  /** A filter with its evaluation buffer. */
  datatype Unit = Unit(filter: FilterState<Samples>, eval: EvalBuffer)
  {
    ghost function Repr(): set<object> {
      filter.Repr() + {eval, eval.evalbuf}
    }
  }

  ghost predicate Apart(units: seq<Unit>) {
    && (forall f :: 0 <= f < |units| ==> units[f].filter.Repr() !! {units[f].eval as object, units[f].eval.evalbuf})
    && forall f, g :: 0 <= f < g < |units| ==> units[f].Repr() !! units[g].Repr()
  }

  ghost function Objects(units: seq<Unit>): (s: set<object>)
    ensures forall f :: 0 <= f < |units| ==> units[f].Repr() <= s
  {
    if |units| == 0 then {} else Objects(units[..|units| - 1]) + units[|units| - 1].Repr()
  }

  /** The evaluation buffer of filter f has seen t blocks of the filters that f reads. */
  ghost predicate EvalAt(net: Net, f: nat, eval: EvalBuffer, t: nat)
    requires net.Valid() && f < |net.filters|
    reads eval, eval.evalbuf
  {
    && eval.Valid() && eval.partLen == net.partLen && eval.powersave == net.powersave
    && 0 <= t * net.partLen <= net.Length()
    && (net.filters[f].upstream != [] ==> eval.stream == net.Between(f)[..t * net.partLen])
  }

  /** Filter f has processed t blocks. */
  ghost predicate UnitAt(net: Net, f: nat, u: Unit, t: nat)
    requires net.Valid() && f < |net.filters| && t <= net.blocks
    reads u.Repr()
  {
    && FilterAt(u.filter, net.Input(f), net.filters[f].stage, net.nBlocks, net.partLen, net.powersave, t)
    && EvalAt(net, f, u.eval, t)
  }

  /** The output buffer of filter f holds block t. */
  ghost predicate HoldsBlock(net: Net, f: nat, u: Unit, t: nat)
    requires net.Valid() && f < |net.filters|
    reads u.filter
  {
    var L := net.partLen;
    && |u.filter.ocbuf| == 2 * L && (u.filter.ocbufZero ==> u.filter.ocbuf == Zeros(2 * L))
    && 0 <= t * L && t * L + L <= net.Length() && FreqToTime(u.filter.ocbuf)[..L] == BlockAt(net.Output(f), t, L)
  }

  /** Filter f has had its turn in period t if it is one of the first m. */
  ghost predicate TurnAt(net: Net, f: nat, u: Unit, t: nat, m: nat)
    requires net.Valid() && f < |net.filters| && t < net.blocks
    reads u.Repr()
  {
    UnitAt(net, f, u, if f < m then t + 1 else t) && (f < m ==> HoldsBlock(net, f, u, t))
  }

  /** In period t the first m filters have had their turn. */
  ghost predicate UnitsAt(net: Net, units: seq<Unit>, t: nat, m: nat)
    requires net.Valid() && t < net.blocks
    reads Objects(units)
  {
    && |units| == |net.filters|
    && forall f: nat {:trigger TurnAt(net, f, units[f], t, m)} :: f < |units| ==> TurnAt(net, f, units[f], t, m)
  }

  /** The output buffer of the k-th filter that filter m reads. */
  lemma {:induction false} UpstreamHeld(net: Net, units: seq<Unit>, t: nat, m: nat, k: nat)
    requires net.Valid() && t < net.blocks && UnitsAt(net, units, t, m) && m < |units| && k < |net.filters[m].upstream|
    ensures net.filters[m].upstream[k] < m
    ensures var u := units[net.filters[m].upstream[k]].filter;
      HoldBlocks([u.ocbuf], [net.Upstream(m)[k]], t, net.partLen) && (u.ocbufZero ==> u.ocbuf == Zeros(2 * net.partLen))
  {
    UpstreamAt(net, m, k);
    var g := net.filters[m].upstream[k];
    assert TurnAt(net, g, units[g], t, m);
  }

  /** The output buffers of all filters, with their flags. */
  function OutputBuffers(units: seq<Unit>): (bufs: seq<Samples>)
    reads set f | 0 <= f < |units| :: units[f].filter
    ensures |bufs| == |units|
  {
    seq(|units|, f requires 0 <= f < |units| reads if 0 <= f < |units| then {units[f].filter} else {} =>
      units[f].filter.ocbuf)
  }

  function OutputFlags(units: seq<Unit>): (zeros: seq<bool>)
    reads set f | 0 <= f < |units| :: units[f].filter
    ensures |zeros| == |units|
  {
    seq(|units|, f requires 0 <= f < |units| reads if 0 <= f < |units| then {units[f].filter} else {} =>
      units[f].filter.ocbufZero)
  }

  /** The output buffers of the filters that filter m reads. */
  lemma {:induction false} GatheredBuffers(net: Net, units: seq<Unit>, t: nat, m: nat)
    requires net.Valid() && t < net.blocks && UnitsAt(net, units, t, m) && m < |units|
    ensures forall k :: 0 <= k < |net.filters[m].upstream| ==> net.filters[m].upstream[k] < |units|
    ensures HoldBlocks(Pick(OutputBuffers(units), net.filters[m].upstream), net.Upstream(m), t, net.partLen)
    ensures TruthfulFlags(Pick(OutputBuffers(units), net.filters[m].upstream),
                          Pick(OutputFlags(units), net.filters[m].upstream), net.partLen)
  {
    var up := net.filters[m].upstream;
    forall k | 0 <= k < |up|
      ensures up[k] < |units|
      ensures HoldBlocks([units[up[k]].filter.ocbuf], [net.Upstream(m)[k]], t, net.partLen)
      ensures units[up[k]].filter.ocbufZero ==> units[up[k]].filter.ocbuf == Zeros(2 * net.partLen)
    {
      UpstreamHeld(net, units, t, m, k);
    }
    var bufs, zeros, outs := Pick(OutputBuffers(units), up), Pick(OutputFlags(units), up), net.Upstream(m);
    HoldEach(bufs, outs, t, net.partLen);
  }

  /** The frames of the channels that filter m reads. */
  lemma {:induction false} PickWindows(net: Net, m: nat, base: int, frames: seq<Samples>, zeros: seq<bool>)
    requires net.Valid() && m < |net.filters|
    requires frames == Windows(net.chans, base, 2 * net.partLen) && TruthfulFlags(frames, zeros, net.partLen)
    ensures forall k :: 0 <= k < |net.filters[m].channels| ==> net.filters[m].channels[k] < |net.chans|
    ensures var channels := net.filters[m].channels;
      && Pick(frames, channels) == Windows(Pick(net.chans, channels), base, 2 * net.partLen)
      && TruthfulFlags(Pick(frames, channels), Pick(zeros, channels), net.partLen)
  {
    assert net.ValidFilter(m);
  }

  lemma {:induction false} WindowsMore(xs: seq<Samples>, x: Samples, base: int, len: nat)
    ensures Windows(xs + [x], base, len) == Windows(xs, base, len) + [Window(x, base, len)]
  {
  }

  /** The filters that filter m reads, evaluated. */
  method EvalUpstream(net: Net, eval: EvalBuffer, s: Scratch, bufs: seq<Samples>, bufsZero: seq<bool>, t: nat, m: nat)
    requires net.Valid() && t < net.blocks && m < |net.filters| && net.filters[m].upstream != []
    requires EvalAt(net, m, eval, t) && eval.Fits(s)
    requires HoldBlocks(bufs, net.Upstream(m), t, net.partLen) && TruthfulFlags(bufs, bufsZero, net.partLen)
    modifies eval, eval.evalbuf, s
    ensures EvalAt(net, m, eval, t + 1) && eval.Fits(s)
    ensures s.temp == Window(net.Between(m), t * net.partLen - net.partLen, 2 * net.partLen)
  {
    BlockFits(t, net.blocks, net.partLen);
    EvalBlock(eval, s, bufs, bufsZero, net.filters[m].fscales, net.Upstream(m), net.Between(m), net.partLen, t);
  }

  lemma {:induction false} InputWindows(net: Net, m: nat, base: int, frame: Samples)
    requires net.Valid() && m < |net.filters|
    requires forall k :: 0 <= k < |net.filters[m].channels| ==> net.filters[m].channels[k] < |net.chans|
    requires net.filters[m].upstream != [] ==> frame == Window(net.Between(m), base, 2 * net.partLen)
    ensures Windows(net.Inputs(m), base, 2 * net.partLen)
         == Windows(Pick(net.chans, net.filters[m].channels), base, 2 * net.partLen) +
            if net.filters[m].upstream == [] then [] else [frame]
  {
    if net.filters[m].upstream != [] {
      WindowsMore(Pick(net.chans, net.filters[m].channels), net.Between(m), base, 2 * net.partLen);
    }
  }

  lemma {:induction false} EvalUnused(net: Net, eval: EvalBuffer, t: nat, m: nat)
    requires net.Valid() && t < net.blocks && m < |net.filters| && net.filters[m].upstream == []
    requires EvalAt(net, m, eval, t)
    ensures EvalAt(net, m, eval, t + 1)
  {
    BlockFits(t, net.blocks, net.partLen);
  }

  /** What filter m mixes in period t: the frames of its channels and, behind them, the evaluated mix of the filters
      that it reads. */
  method MixInputs(net: Net, eval: EvalBuffer, s: Scratch, frames: seq<Samples>, zeros: seq<bool>, bufs: seq<Samples>,
                   bufsZero: seq<bool>, t: nat, m: nat, ghost base: int)
    returns (inputs: seq<Samples>, inputZero: seq<bool>)
    requires net.Valid() && t < net.blocks && m < |net.filters| && EvalAt(net, m, eval, t) && eval.Fits(s)
    requires base == t * net.partLen - net.partLen
    requires frames == Windows(net.chans, base, 2 * net.partLen) && TruthfulFlags(frames, zeros, net.partLen)
    requires HoldBlocks(bufs, net.Upstream(m), t, net.partLen) && TruthfulFlags(bufs, bufsZero, net.partLen)
    modifies eval, eval.evalbuf, s
    ensures inputs == Windows(net.Inputs(m), base, 2 * net.partLen)
    ensures TruthfulFlags(inputs, inputZero, net.partLen)
    ensures EvalAt(net, m, eval, t + 1) && eval.Fits(s)
  {
    PickWindows(net, m, base, frames, zeros);
    var x := net.filters[m];
    inputs, inputZero := Pick(frames, x.channels), Pick(zeros, x.channels);
    if x.upstream != [] {
      EvalUpstream(net, eval, s, bufs, bufsZero, t, m);
      InputWindows(net, m, base, s.temp);
      inputs, inputZero := inputs + [s.temp], inputZero + [s.tempZero];
    } else {
      InputWindows(net, m, base, []);
      EvalUnused(net, eval, t, m);
    }
  }

  ghost predicate ScratchFor(net: Net, s: Scratch)
    reads s
  {
    s.Valid() && s.partLen == net.partLen && s.powersave == net.powersave
  }

  /** Block t of one filter. */
  method FilterTurn(net: Net, u: Unit, s: Scratch, frames: seq<Samples>, zeros: seq<bool>, bufs: seq<Samples>,
                    bufsZero: seq<bool>, t: nat, m: nat)
    requires net.Valid() && t < net.blocks && m < |net.filters| && UnitAt(net, m, u, t) && ScratchFor(net, s)
    requires u.filter.Repr() !! {u.eval as object, u.eval.evalbuf, s}
    requires s as object !in {u.eval as object, u.eval.evalbuf}
    requires frames == Windows(net.chans, t * net.partLen - net.partLen, 2 * net.partLen)
    requires TruthfulFlags(frames, zeros, net.partLen)
    requires HoldBlocks(bufs, net.Upstream(m), t, net.partLen) && TruthfulFlags(bufs, bufsZero, net.partLen)
    modifies u.Repr(), s
    ensures UnitAt(net, m, u, t + 1) && HoldsBlock(net, m, u, t) && ScratchFor(net, s)
  {
    var inputs, inputZero :=
      MixInputs(net, u.eval, s, frames, zeros, bufs, bufsZero, t, m, t * net.partLen - net.partLen);
    Convolve(net, u, inputs, inputZero, t, m);
  }

  /** Filter m takes the block that it has mixed. */
  method Convolve(net: Net, u: Unit, inputs: seq<Samples>, inputZero: seq<bool>, t: nat, m: nat)
    requires net.Valid() && t < net.blocks && m < |net.filters|
    requires FilterAt(u.filter, net.Input(m), net.filters[m].stage, net.nBlocks, net.partLen, net.powersave, t)
    requires inputs == Windows(net.Inputs(m), t * net.partLen - net.partLen, 2 * net.partLen)
    requires TruthfulFlags(inputs, inputZero, net.partLen)
    modifies u.filter.Repr()
    ensures FilterAt(u.filter, net.Input(m), net.filters[m].stage, net.nBlocks, net.partLen, net.powersave, t + 1)
    ensures HoldsBlock(net, m, u, t)
  {
    assert net.ValidFilter(m);
    var st := net.filters[m].stage;
    var block := StageBlock(u.filter, inputs, inputZero, net.Scales(m), net.Inputs(m), net.Input(m), st,
                            net.nBlocks, net.partLen, net.powersave, t);
    BlockOfStage(block, net.Input(m), st, net.nBlocks, net.partLen, t);
  }

  ghost predicate SeparateFrom(units: seq<Unit>, s: Scratch) {
    s !in Objects(units)
  }

  /** Filter m has its turn; the others stay as they are. */
  method NextTurn(net: Net, units: seq<Unit>, s: Scratch, frames: seq<Samples>, zeros: seq<bool>, t: nat, m: nat)
    requires net.Valid() && t < net.blocks && m < |units| && UnitsAt(net, units, t, m)
    requires Apart(units) && SeparateFrom(units, s) && ScratchFor(net, s)
    requires frames == Windows(net.chans, t * net.partLen - net.partLen, 2 * net.partLen)
    requires TruthfulFlags(frames, zeros, net.partLen)
    modifies units[m].Repr(), s
    ensures UnitsAt(net, units, t, m + 1) && ScratchFor(net, s)
  {
    GatheredBuffers(net, units, t, m);
    var up := net.filters[m].upstream;
    var bufs, bufsZero := Pick(OutputBuffers(units), up), Pick(OutputFlags(units), up);
    assert TurnAt(net, m, units[m], t, m);
    FilterTurn(net, units[m], s, frames, zeros, bufs, bufsZero, t, m);
    forall f: nat | f < |units|
      ensures TurnAt(net, f, units[f], t, m + 1)
    {
      if f != m {
        assert units[f].Repr() !! units[m].Repr();
        assert old(TurnAt(net, f, units[f], t, m));
      }
    }
  }

  /** Between periods: every filter has processed t blocks. */
  ghost predicate AllAt(net: Net, units: seq<Unit>, t: nat)
    requires net.Valid() && t <= net.blocks
    reads Objects(units)
  {
    && |units| == |net.filters|
    && forall f: nat {:trigger UnitAt(net, f, units[f], t)} :: f < |units| ==> UnitAt(net, f, units[f], t)
  }

  /** Block t of every filter's output. */
  ghost predicate AreBlocks(net: Net, output: seq<Samples>, t: nat)
    requires net.Valid() && t < net.blocks
  {
    && |output| <= |net.filters| && 0 <= t * net.partLen && t * net.partLen + net.partLen <= net.Length()
    && forall f: nat {:trigger output[f]} :: f < |output| ==> output[f] == BlockAt(net.Output(f), t, net.partLen)
  }

  /** The first halves of buffers, back in the time domain. */
  function FirstHalves(bufs: seq<Samples>, L: nat): (output: seq<Samples>)
    requires forall f :: 0 <= f < |bufs| ==> |bufs[f]| == 2 * L
    ensures |output| == |bufs|
  {
    seq(|bufs|, f requires 0 <= f < |bufs| => FreqToTime(bufs[f])[..L])
  }

  /** After a period all filters have processed one block more, and their buffers hold it. */
  lemma {:induction false} TurnsOver(net: Net, units: seq<Unit>, t: nat)
    requires net.Valid() && t < net.blocks && UnitsAt(net, units, t, |units|)
    ensures AllAt(net, units, t + 1)
    ensures forall f :: 0 <= f < |units| ==> |OutputBuffers(units)[f]| == 2 * net.partLen
    ensures AreBlocks(net, FirstHalves(OutputBuffers(units), net.partLen), t)
  {
    BlockFits(t, net.blocks, net.partLen);
    forall f: nat | f < |units|
      ensures UnitAt(net, f, units[f], t + 1) && HoldsBlock(net, f, units[f], t)
    {
      assert TurnAt(net, f, units[f], t, |units|);
    }
  }

  /** One period: every filter has its turn, in order. */
  method Turns(net: Net, units: seq<Unit>, s: Scratch, frames: seq<Samples>, zeros: seq<bool>, t: nat)
    returns (output: seq<Samples>)
    requires net.Valid() && t < net.blocks && AllAt(net, units, t)
    requires Apart(units) && SeparateFrom(units, s) && ScratchFor(net, s)
    requires frames == Windows(net.chans, t * net.partLen - net.partLen, 2 * net.partLen)
    requires TruthfulFlags(frames, zeros, net.partLen)
    modifies Objects(units), s
    ensures AllAt(net, units, t + 1) && ScratchFor(net, s)
    ensures |output| == |net.filters| && AreBlocks(net, output, t)
  {
    var m := 0;
    while m < |units|
      invariant 0 <= m <= |units| && UnitsAt(net, units, t, m) && ScratchFor(net, s)
    {
      NextTurn(net, units, s, frames, zeros, t, m);
      m := m + 1;
    }
    TurnsOver(net, units, t);
    output := FirstHalves(OutputBuffers(units), net.partLen);
  }

  /** Everything after t periods. */
  ghost predicate Running(net: Net, cs: seq<InputChannel>, units: seq<Unit>, s: Scratch, t: nat)
    requires net.Valid() && t <= net.blocks
    reads FilterRun.Objects(cs), Objects(units), s
  {
    && AllAt(net, units, t) && ScratchFor(net, s) && ChannelsAt(cs, net.chans, net.partLen, net.powersave, t)
  }

  /** Objects of their own. */
  ghost predicate Separate(cs: seq<InputChannel>, units: seq<Unit>, s: Scratch) {
    Apart(units) && SeparateFrom(units, s) && FilterRun.Objects(cs) !! Objects(units) + {s}
  }

  /** The channels of a period are converted. */
  method PeriodInput(net: Net, cs: seq<InputChannel>, units: seq<Unit>, s: Scratch, t: nat)
    returns (frames: seq<Samples>, zeros: seq<bool>)
    requires net.Valid() && t < net.blocks && Running(net, cs, units, s, t) && Separate(cs, units, s)
    modifies FilterRun.Objects(cs)
    ensures AllAt(net, units, t) && ScratchFor(net, s)
    ensures ChannelsAt(cs, net.chans, net.partLen, net.powersave, t + 1)
    ensures frames == Windows(net.chans, t * net.partLen - net.partLen, 2 * net.partLen)
    ensures TruthfulFlags(frames, zeros, net.partLen)
  {
    frames, zeros := EnterBlocks(cs, net.chans, net.partLen, net.powersave, t, net.blocks);
  }

  /** The filters of a period. */
  method PeriodFilters(net: Net, cs: seq<InputChannel>, units: seq<Unit>, s: Scratch, frames: seq<Samples>,
                       zeros: seq<bool>, t: nat)
    returns (output: seq<Samples>)
    requires net.Valid() && t < net.blocks && AllAt(net, units, t) && ScratchFor(net, s) && Separate(cs, units, s)
    requires ChannelsAt(cs, net.chans, net.partLen, net.powersave, t + 1)
    requires frames == Windows(net.chans, t * net.partLen - net.partLen, 2 * net.partLen)
    requires TruthfulFlags(frames, zeros, net.partLen)
    modifies Objects(units), s
    ensures Running(net, cs, units, s, t + 1)
    ensures |output| == |net.filters| && AreBlocks(net, output, t)
  {
    output := Turns(net, units, s, frames, zeros, t);
  }

  /** One period of the whole process: channels, filters, output. */
  method Period(net: Net, cs: seq<InputChannel>, units: seq<Unit>, s: Scratch, t: nat) returns (output: seq<Samples>)
    requires net.Valid() && t < net.blocks && Running(net, cs, units, s, t) && Separate(cs, units, s)
    modifies FilterRun.Objects(cs), Objects(units), s
    ensures Running(net, cs, units, s, t + 1)
    ensures |output| == |net.filters| && AreBlocks(net, output, t)
  {
    var frames, zeros := PeriodInput(net, cs, units, s, t);
    output := PeriodFilters(net, cs, units, s, frames, zeros, t);
  }

  /** Runs all filters of a process over whole channels: every block of every filter is that of the direct-form FIR
      of its whole input, which the filters before it and the channels make up. */
  method RunNetwork(net: Net) returns (output: seq<seq<Samples>>)
    requires net.Valid()
    ensures |output| == net.blocks && AllBlocks(net, output)
  {
    var cs, units, s := Start(net);
    output := RunPeriods(net, cs, units, s);
  }

  ghost predicate AllBlocks(net: Net, output: seq<seq<Samples>>)
    requires net.Valid() && |output| <= net.blocks
  {
    forall t: nat :: t < |output| ==> |output[t]| == |net.filters| && AreBlocks(net, output[t], t)
  }

  method RunPeriods(net: Net, cs: seq<InputChannel>, units: seq<Unit>, s: Scratch) returns (output: seq<seq<Samples>>)
    requires net.Valid() && Running(net, cs, units, s, 0) && Separate(cs, units, s)
    modifies FilterRun.Objects(cs), Objects(units), s
    ensures |output| == net.blocks && AllBlocks(net, output)
  {
    output := [];
    while |output| < net.blocks
      invariant |output| <= net.blocks && Running(net, cs, units, s, |output|)
      invariant AllBlocks(net, output)
    {
      output := NextPeriod(net, cs, units, s, output);
    }
  }

  method NextPeriod(net: Net, cs: seq<InputChannel>, units: seq<Unit>, s: Scratch, before: seq<seq<Samples>>)
    returns (output: seq<seq<Samples>>)
    requires net.Valid() && |before| < net.blocks && AllBlocks(net, before)
    requires Running(net, cs, units, s, |before|) && Separate(cs, units, s)
    modifies FilterRun.Objects(cs), Objects(units), s
    ensures |output| == |before| + 1 && Running(net, cs, units, s, |output|) && AllBlocks(net, output)
  {
    var period := Period(net, cs, units, s, |before|);
    AllBlocksMore(net, before, period);
    output := before + [period];
  }

  lemma {:induction false} AllBlocksMore(net: Net, output: seq<seq<Samples>>, period: seq<Samples>)
    requires net.Valid() && |output| < net.blocks && AllBlocks(net, output)
    requires |period| == |net.filters| && AreBlocks(net, period, |output|)
    ensures AllBlocks(net, output + [period])
  {
  }

  lemma {:induction false} ApartMore(units: seq<Unit>, u: Unit)
    requires Apart(units) && Objects(units) !! u.Repr()
    requires u.filter.Repr() !! {u.eval as object, u.eval.evalbuf}
    ensures Apart(units + [u]) && Objects(units + [u]) == Objects(units) + u.Repr()
  {
    assert (units + [u])[..|units|] == units;
  }

  lemma {:induction false} ObjectsApart(units: seq<Unit>, s: set<object>)
    requires forall f :: 0 <= f < |units| ==> units[f].Repr() !! s
    ensures Objects(units) !! s
  {
    if |units| > 0 {
      ObjectsApart(units[..|units| - 1], s);
    }
  }

  method NewUnit(net: Net, f: nat) returns (u: Unit)
    requires net.Valid() && f < |net.filters|
    ensures fresh(u.Repr()) && UnitAt(net, f, u, 0)
    ensures u.filter.Repr() !! {u.eval as object, u.eval.evalbuf}
  {
    assert net.ValidFilter(f);
    OpsLawful(net.partLen);
    var filter := new FilterState(Ops(net.partLen), net.nBlocks, net.powersave);
    var eval := new EvalBuffer(net.partLen, net.powersave);
    u := Unit(filter, eval);
  }

  method Start(net: Net) returns (cs: seq<InputChannel>, units: seq<Unit>, s: Scratch)
    requires net.Valid()
    ensures Running(net, cs, units, s, 0) && Separate(cs, units, s)
    ensures fresh(FilterRun.Objects(cs)) && fresh(Objects(units)) && fresh(s)
  {
    s := new Scratch(net.partLen, net.powersave);
    ghost var objects;
    units, objects := NewUnits(net);
    cs := NewChannels(net.chans, net.partLen, net.powersave);
  }

  method NewUnits(net: Net) returns (units: seq<Unit>, ghost objects: set<object>)
    requires net.Valid()
    ensures AllAt(net, units, 0) && Apart(units) && objects == Objects(units) && fresh(objects)
  {
    units := [];
    while |units| < |net.filters|
      invariant |units| <= |net.filters| && Apart(units) && fresh(Objects(units))
      invariant FirstAt(net, units)
    {
      units := AddUnit(net, units);
    }
    objects := Objects(units);
  }

  /** The units so far are at their start. */
  ghost predicate FirstAt(net: Net, units: seq<Unit>)
    requires net.Valid()
    reads Objects(units)
  {
    && |units| <= |net.filters|
    && forall f: nat {:trigger UnitAt(net, f, units[f], 0)} :: f < |units| ==> UnitAt(net, f, units[f], 0)
  }

  method AddUnit(net: Net, before: seq<Unit>) returns (units: seq<Unit>)
    requires net.Valid() && |before| < |net.filters| && Apart(before) && FirstAt(net, before)
    ensures |units| == |before| + 1 && Apart(units) && FirstAt(net, units)
    ensures Objects(units) == Objects(before) + units[|before|].Repr() && fresh(units[|before|].Repr())
  {
    var u := NewUnit(net, |before|);
    forall f: nat | f < |before|
      ensures UnitAt(net, f, before[f], 0) && before[f].Repr() !! u.Repr()
    {
      assert old(UnitAt(net, f, before[f], 0));
    }
    ObjectsApart(before, u.Repr());
    units := OneMore(net, before, u);
  }

  /** Another unit at its start. */
  method OneMore(net: Net, before: seq<Unit>, u: Unit) returns (units: seq<Unit>)
    requires net.Valid() && |before| < |net.filters| && Apart(before) && FirstAt(net, before)
    requires UnitAt(net, |before|, u, 0) && Objects(before) !! u.Repr()
    requires u.filter.Repr() !! {u.eval as object, u.eval.evalbuf}
    ensures units == before + [u] && Apart(units) && FirstAt(net, units) && Objects(units) == Objects(before) + u.Repr()
  {
    ApartMore(before, u);
    units := before + [u];
    forall f: nat | f < |units|
      ensures UnitAt(net, f, units[f], 0)
    {
      if f < |before| {
        assert UnitAt(net, f, before[f], 0);
      }
    }
  }
}
