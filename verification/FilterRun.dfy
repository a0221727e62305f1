/** Runs of one filter over whole streams: input framing in two alternating buffers,
    and the theorem that the partitioned engine is the direct-form FIR. */
module FilterRun {
  import opened Sums
  import opened Division
  import opened Convolution
  import opened PartitionedFilter
  import opened PartitionedFir

  // ----- input framing -----

  /** One input channel: two time buffers that take turns, and the channel's frequency buffer. */
  class InputChannel {
    const partLen: nat
    const powersave: bool
    const timecbuf0: array<real>
    const timecbuf1: array<real>
    var curbuf: bool
    var freqcbuf: Samples
    var freqcbufZero: bool
    ghost var stream: Samples

    function Current(): array<real>
      reads this`curbuf
    {
      if curbuf then timecbuf1 else timecbuf0
    }

    function Next(): array<real>
      reads this`curbuf
    {
      if curbuf then timecbuf0 else timecbuf1
    }

    ghost predicate Valid()
      reads this, timecbuf0, timecbuf1
    {
      && partLen > 0 && timecbuf0 != timecbuf1
      && timecbuf0.Length == timecbuf1.Length == 2 * partLen
      && Current()[..partLen] == Window(stream, |stream| - partLen, partLen)
      && (freqcbufZero ==> powersave && freqcbuf == Zeros(2 * partLen))
    }

    ghost function Repr(): set<object> {
      {this, timecbuf0, timecbuf1}
    }

    /** The first t blocks of a channel have been converted. */
    ghost predicate HasEntered(chan: Samples, L: nat, powersave: bool, t: nat)
      reads Repr()
    {
      && Valid() && partLen == L && this.powersave == powersave
      && 0 <= t * L <= |chan| && stream == chan[..t * L]
    }

    constructor (partLen: nat, powersave: bool)
      requires partLen > 0
      ensures Valid() && fresh(timecbuf0) && fresh(timecbuf1)
      ensures this.partLen == partLen && this.powersave == powersave && stream == []
    {
      this.partLen, this.powersave := partLen, powersave;
      timecbuf0 := new real[2 * partLen](_ => 0.0);
      timecbuf1 := new real[2 * partLen](_ => 0.0);
      curbuf, freqcbuf, freqcbufZero := false, Zeros(2 * partLen), false;
      stream := [];
    }

    /** The frame is transformed unless it is silent. */
    method TransformFrame(frame: Samples)
      requires freqcbufZero ==> powersave && freqcbuf == Zeros(2 * partLen)
      modifies this`freqcbuf, this`freqcbufZero
      ensures |frame| == 2 * partLen ==> freqcbuf == frame
      ensures freqcbufZero ==> powersave && freqcbuf == Zeros(2 * partLen)
    {
      if !powersave || frame != Zeros(2 * partLen) {
        freqcbuf := frame;
        freqcbufZero := false;
      } else if !freqcbufZero {
        freqcbuf := Zeros(2 * partLen);
        freqcbufZero := true;
      }
    }

    /** Converts one block of L samples: it becomes the second half of the current frame
        and the first half of the next one. */
    method NextBlock(block: Samples)
      requires Valid() && |block| == partLen
      modifies this, timecbuf0, timecbuf1
      ensures Valid()
      ensures stream == old(stream) + block
      ensures freqcbuf == Window(stream, |old(stream)| - partLen, 2 * partLen)
    {
      var cbuf, next := Current(), Next();
      ghost var frame := cbuf[..partLen] + block;
      FrameOfHeld(stream, block, partLen, cbuf[..partLen], frame);
      EnterBlock(cbuf, next, block, partLen);
      assert cbuf[..] == frame;
      TransformFrame(cbuf[..]);
      stream := stream + block;
      curbuf := !curbuf;
    }
  }

  /** The block goes into the first half of the next frame, and from there into the second half of this one. */
  method EnterBlock(cbuf: array<real>, next: array<real>, block: Samples, L: nat)
    requires cbuf != next && cbuf.Length == next.Length == 2 * L && |block| == L
    modifies cbuf, next
    ensures next[..L] == block && cbuf[..] == old(cbuf[..L]) + block
  {
    CopyBlock(next, 0, block);
    assert next[..L] == block;
    CopyBlock(cbuf, L, next[..L]);
  }

  method CopyBlock(dst: array<real>, o: nat, src: Samples)
    requires o + |src| <= dst.Length
    modifies dst
    ensures dst[..] == old(dst[..o]) + src + old(dst[o + |src|..])
  {
    ghost var d := dst[..];
    var n := 0;
    while n < |src|
      invariant 0 <= n <= |src|
      invariant forall p :: 0 <= p < dst.Length ==> dst[p] == if o <= p < o + n then src[p - o] else d[p]
    {
      dst[o + n] := src[n];
      n := n + 1;
    }
  }

  method CopyAll(dst: array<real>, src: Samples)
    requires |src| == dst.Length
    modifies dst
    ensures dst[..] == src
  {
    CopyBlock(dst, 0, src);
  }

  lemma {:induction false} AtAppend(s: Samples, t: Samples, p: int)
    ensures At(s + t, p) == if p < |s| then At(s, p) else At(t, p - |s|)
  {
  }

  lemma {:induction false} FrameOfBlock(s: Samples, block: Samples, L: nat)
    requires |block| == L
    ensures Window(s, |s| - L, L) + block == Window(s + block, |s| - L, 2 * L)
    ensures block == Window(s + block, |s + block| - L, L)
  {
    var w := Window(s, |s| - L, L) + block;
    forall j | 0 <= j < 2 * L
      ensures w[j] == At(s + block, |s| - L + j)
    {
      AtAppend(s, block, |s| - L + j);
    }
  }

  /** The same, for a buffer that holds the previous block. */
  lemma {:induction false} FrameOfHeld(s: Samples, block: Samples, L: nat, held: Samples, frame: Samples)
    requires |block| == L && held == Window(s, |s| - L, L) && frame == held + block
    ensures frame == Window(s + block, |s| - L, 2 * L)
    ensures block == Window(s + block, |s + block| - L, L)
  {
    FrameOfBlock(s, block, L);
  }

  // ----- mixing channels -----

  /** The stream that results from mixing whole channels. */
  function MixedStream(chans: seq<Samples>, scales: seq<real>, len: nat): Samples {
    Mix(chans, scales, len)
  }

  function Windows(chans: seq<Samples>, base: int, len: nat): (ws: seq<Samples>)
    ensures |ws| == |chans|
    ensures forall i :: 0 <= i < |chans| ==> ws[i] == Window(chans[i], base, len)
  {
    seq(|chans|, i requires 0 <= i < |chans| => Window(chans[i], base, len))
  }

  /** Mixing the windows of the channels gives the window of the mixed stream. */
  lemma {:induction false} MixWindows(chans: seq<Samples>, scales: seq<real>, len: nat, base: int, n: nat)
    requires forall i :: 0 <= i < |chans| ==> |chans[i]| == len
    ensures Mix(Windows(chans, base, n), scales, n) == Window(MixedStream(chans, scales, len), base, n)
  {
    var ws, mixed := Windows(chans, base, n), MixedStream(chans, scales, len);
    var y, w := Mix(ws, scales, n), Window(mixed, base, n);
    forall j | 0 <= j < n
      ensures y[j] == w[j]
    {
      var f, g := MixTerm(ws, scales, j), MixTerm(chans, scales, base + j);
      SumEq(|chans|, f, g);
      if !(0 <= base + j < len) {
        SumZero(|chans|, g);
      }
    }
  }

  ghost predicate Lengths(chans: seq<Samples>, len: nat) {
    forall i :: 0 <= i < |chans| ==> |chans[i]| == len
  }

  ghost predicate TruthfulFlags(inputs: seq<Samples>, inputZero: seq<bool>, L: nat) {
    |inputZero| == |inputs| && forall i :: 0 <= i < |inputs| && inputZero[i] ==> inputs[i] == Zeros(2 * L)
  }

  // ----- runs -----

  /** What a block is filtered with: nothing (coeff: -1), or the first partitions of a tap sequence. */
  datatype Choice = Pass | Taps(taps: Samples, blocks: nat)

  ghost predicate ValidChoice(c: Choice, nBlocks: nat) {
    c.Taps? ==> 0 < c.blocks <= nBlocks
  }

  ghost predicate ValidChoices(choices: seq<Choice>, nBlocks: nat) {
    forall k :: 0 <= k < |choices| ==> ValidChoice(choices[k], nBlocks)
  }

  function CoeffOf(c: Choice, L: nat): Coeff<Samples>
    requires L > 0
  {
    match c
    case Pass => Dirac
    case Taps(taps, blocks) => Partitions(CoeffParts(taps, blocks, L))
  }

  function EffectiveTaps(c: Choice): Samples {
    if c.Pass? then [1.0] else c.taps
  }

  /** Partitions that remain behind a pre-delay of d blocks. */
  function EffectiveBlocks(c: Choice, d: nat, nBlocks: nat): (n: nat)
    requires d < nBlocks
  {
    if c.Pass? then 1 else if c.blocks > nBlocks - d then nBlocks - d else c.blocks
  }

  lemma {:induction false} UsedPartsAre(c: Choice, d: nat, nBlocks: nat, L: nat)
    requires L > 0 && d < nBlocks && ValidChoice(c, nBlocks)
    ensures CoeffOf(c, L).Partitions? ==> |CoeffOf(c, L).blocks| > 0
    ensures UsedParts(Ops(L), CoeffOf(c, L), d, nBlocks)
         == CoeffParts(EffectiveTaps(c), EffectiveBlocks(c, d, nBlocks), L)
  {
    if c.Pass? {
      assert 0 * L == 0;
      assert Slice([1.0], 0, L) == [1.0];
    }
  }

  /** The history of a run over a mixed stream with pre-delay d. */
  ghost function RunHistory(mixed: Samples, choices: seq<Choice>, d: nat, nBlocks: nat, L: nat, t: nat)
    : (h: seq<Block<Samples>>)
    requires L > 0 && d < nBlocks && t <= |choices| && ValidChoices(choices, nBlocks)
    ensures |h| == t && WellFormed(h, nBlocks)
    ensures forall k :: 0 <= k < t ==> |h[k].parts| == EffectiveBlocks(choices[k], d, nBlocks) && h[k].delay == d
  {
    seq(t, k requires 0 <= k < t =>
      Block(Window(mixed, k * L - L, 2 * L), d,
            CoeffParts(EffectiveTaps(choices[k]), EffectiveBlocks(choices[k], d, nBlocks), L)))
  }

  /** Sample m of block t of the output: the FIR with the taps chosen for block t, d blocks late. */
  function RunSample(mixed: Samples, choices: seq<Choice>, d: nat, nBlocks: nat, L: nat, t: nat, m: nat): real
    requires d < nBlocks && t < |choices|
  {
    FirOf(EffectiveBlocks(choices[t], d, nBlocks) * L, EffectiveTaps(choices[t]), mixed, (t - d) * L + m)
  }

  lemma {:induction false} SilentBeforeStart(mixed: Samples, base: int, L: nat)
    requires base + 2 * L <= 0
    ensures Window(mixed, base, 2 * L) == Zeros(2 * L)
  {
  }

  lemma {:induction false} NonPositiveProduct(k: int, L: nat)
    requires k <= 0
    ensures k * L <= 0
  {
  }

  lemma {:induction false} FramePosition(t: int, i: int, L: nat)
    ensures (t - i) * L - L == t * L - L - i * L
  {
  }

  /** The frame of block k, silent before the start of the run. */
  lemma {:induction false} FrameIsWindow(mixed: Samples, choices: seq<Choice>, d: nat, nBlocks: nat, L: nat, t: nat,
                                         k: int, start: int)
    requires L > 0 && d < nBlocks && t < |choices| && ValidChoices(choices, nBlocks) && k <= t && start == k * L
    ensures FrameAt(Ops(L), RunHistory(mixed, choices, d, nBlocks, L, t + 1), k) == Window(mixed, start - L, 2 * L)
  {
    if k < 0 {
      NonPositiveProduct(k + 1, L);
      assert (k + 1) * L == start + L;
      SilentBeforeStart(mixed, start - L, L);
    }
  }

  /** The frames that block t looks back on are the windows of the stream d, d + 1, ... blocks earlier. */
  lemma {:induction false} RunFrames(mixed: Samples, choices: seq<Choice>, d: nat, nBlocks: nat, L: nat, t: nat, n: nat,
                                     base: int)
    requires L > 0 && d < nBlocks && t < |choices| && ValidChoices(choices, nBlocks) && base == (t - d) * L - L
    ensures SlidingFrames(Recent(Ops(L), RunHistory(mixed, choices, d, nBlocks, L, t + 1), t - d, n), mixed, base, L)
  {
    var h := RunHistory(mixed, choices, d, nBlocks, L, t + 1);
    var frames := Recent(Ops(L), h, t - d, n);
    forall i | 0 <= i < n
      ensures frames[i] == Window(mixed, (t - d) * L - L - i * L, 2 * L)
    {
      FrameIsWindow(mixed, choices, d, nBlocks, L, t, t - d - i, (t - d - i) * L);
      FramePosition(t - d, i, L);
    }
  }

  lemma {:induction false} ExpectedSum<T(!new)>(ops: SpectrumOps<T>, h: seq<Block<T>>, d: nat, parts: seq<T>)
    requires |h| > 0 && |parts| > 0 && h[|h| - 1].delay == d && h[|h| - 1].parts == parts
    ensures Expected(ops, h) == ops.FullSum(Recent(ops, h, |h| - 1 - d, |parts|), parts)
  {
  }

  lemma {:induction false} ExpectedFir(h: seq<Block<Samples>>, frames: seq<Samples>, d: nat, taps: Samples, n: nat,
                                       L: nat, mixed: Samples, base: int, m: nat)
    requires L > 0 && m < L && n > 0 && |h| > 0 && h[|h| - 1].delay == d && h[|h| - 1].parts == CoeffParts(taps, n, L)
    requires frames == Recent(Ops(L), h, |h| - 1 - d, n) && SlidingFrames(frames, mixed, base, L)
    ensures FullSize(Expected(Ops(L), h), L)
    ensures TimeSample(m)(Expected(Ops(L), h)) == FirOf(n * L, taps, mixed, base + L + m)
  {
    ExpectedSum(Ops(L), h, d, CoeffParts(taps, n, L));
    FullSumFir(Ops(L), frames, CoeffParts(taps, n, L), taps, n * L, L, mixed, base, m);
  }

  lemma {:induction false} LastBlock(mixed: Samples, choices: seq<Choice>, d: nat, nBlocks: nat, L: nat, t: nat)
    requires L > 0 && d < nBlocks && t < |choices| && ValidChoices(choices, nBlocks)
    ensures var b := RunHistory(mixed, choices, d, nBlocks, L, t + 1)[t];
      b.delay == d && b.parts == CoeffParts(EffectiveTaps(choices[t]), EffectiveBlocks(choices[t], d, nBlocks), L)
  {
  }

  lemma {:induction false} RunSampleFrom(mixed: Samples, choices: seq<Choice>, d: nat, nBlocks: nat, L: nat, t: nat,
                                         m: nat, base: int)
    requires d < nBlocks && t < |choices| && base == (t - d) * L - L
    ensures RunSample(mixed, choices, d, nBlocks, L, t, m)
         == FirOf(EffectiveBlocks(choices[t], d, nBlocks) * L, EffectiveTaps(choices[t]), mixed, base + L + m)
  {
  }

  /** What the engine must produce for block t, `y`, is the FIR of the whole stream. */
  lemma {:induction false} ExpectedIsFir(y: Samples, mixed: Samples, choices: seq<Choice>, d: nat, nBlocks: nat, L: nat,
                                         t: nat, m: nat)
    requires L > 0 && d < nBlocks && t < |choices| && m < L && ValidChoices(choices, nBlocks)
    requires y == Expected(Ops(L), RunHistory(mixed, choices, d, nBlocks, L, t + 1))
    ensures FullSize(y, L) && TimeSample(m)(y) == RunSample(mixed, choices, d, nBlocks, L, t, m)
  {
    var n, base := EffectiveBlocks(choices[t], d, nBlocks), (t - d) * L - L;
    LastBlock(mixed, choices, d, nBlocks, L, t);
    ExpectedInRun(mixed, choices, d, nBlocks, L, t, m, n, base, RunHistory(mixed, choices, d, nBlocks, L, t + 1));
    RunSampleFrom(mixed, choices, d, nBlocks, L, t, m, base);
  }

  lemma {:induction false} ExpectedInRun(mixed: Samples, choices: seq<Choice>, d: nat, nBlocks: nat, L: nat, t: nat,
                                         m: nat, n: nat, base: int, h: seq<Block<Samples>>)
    requires L > 0 && d < nBlocks && t < |choices| && m < L && ValidChoices(choices, nBlocks) && n > 0
    requires |h| == t + 1 && h[t].delay == d && h[t].parts == CoeffParts(EffectiveTaps(choices[t]), n, L)
    requires h == RunHistory(mixed, choices, d, nBlocks, L, t + 1) && base == (t - d) * L - L
    ensures FullSize(Expected(Ops(L), h), L)
    ensures TimeSample(m)(Expected(Ops(L), h)) == FirOf(n * L, EffectiveTaps(choices[t]), mixed, base + L + m)
  {
    RunFrames(mixed, choices, d, nBlocks, L, t, n, base);
    ExpectedFir(h, Recent(Ops(L), h, t - d, n), d, EffectiveTaps(choices[t]), n, L, mixed, base, m);
  }

  /** All blocks use the same number of partitions. */
  ghost predicate OneBlockCount(choices: seq<Choice>, d: nat, nBlocks: nat)
    requires d < nBlocks
  {
    forall k :: 0 <= k < |choices| ==>
      EffectiveBlocks(choices[k], d, nBlocks) == EffectiveBlocks(choices[0], d, nBlocks)
  }

  lemma {:induction false} RunRegular(mixed: Samples, choices: seq<Choice>, d: nat, nBlocks: nat, L: nat, t: nat,
                                      powersave: bool)
    requires L > 0 && d < nBlocks && t < |choices| && ValidChoices(choices, nBlocks)
    requires powersave ==> OneBlockCount(choices, d, nBlocks)
    ensures Regular(RunHistory(mixed, choices, d, nBlocks, L, t + 1), powersave)
  {
  }

  /** The L samples of block t of the direct-form filter. */
  ghost predicate IsFirBlock(block: Samples, mixed: Samples, choices: seq<Choice>, d: nat, nBlocks: nat, L: nat, t: nat)
    requires d < nBlocks && t < |choices|
  {
    |block| == L && forall m :: 0 <= m < L ==> block[m] == RunSample(mixed, choices, d, nBlocks, L, t, m)
  }

  lemma {:induction false} RunHistoryStep(mixed: Samples, choices: seq<Choice>, d: nat, nBlocks: nat, L: nat, t: nat,
                                          b: Block<Samples>)
    requires L > 0 && d < nBlocks && t < |choices| && ValidChoices(choices, nBlocks)
    requires b == Block(Window(mixed, t * L - L, 2 * L), d,
                        CoeffParts(EffectiveTaps(choices[t]), EffectiveBlocks(choices[t], d, nBlocks), L))
    ensures RunHistory(mixed, choices, d, nBlocks, L, t) + [b] == RunHistory(mixed, choices, d, nBlocks, L, t + 1)
  {
  }

  /** Back to the time domain; only the first half of the buffer is output. */
  method FirstHalf(ocbuf: Samples, L: nat, ghost mixed: Samples, ghost choices: seq<Choice>, ghost d: nat,
                   ghost nBlocks: nat, ghost t: nat)
    returns (block: Samples)
    requires L > 0 && d < nBlocks && t < |choices| && ValidChoices(choices, nBlocks)
    requires ocbuf == Expected(Ops(L), RunHistory(mixed, choices, d, nBlocks, L, t + 1))
    ensures IsFirBlock(block, mixed, choices, d, nBlocks, L, t)
    ensures |ocbuf| == 2 * L && block == FreqToTime(ocbuf)[..L]
  {
    ExpectedIsFir(ocbuf, mixed, choices, d, nBlocks, L, t, 0);
    block := FreqToTime(ocbuf)[..L];
    forall m | 0 <= m < L
      ensures block[m] == RunSample(mixed, choices, d, nBlocks, L, t, m)
    {
      ExpectedIsFir(ocbuf, mixed, choices, d, nBlocks, L, t, m);
    }
  }

  /** Block t of a run: the windows of the channels, through the filter. */
  method RunBlock(filter: FilterState<Samples>, inputs: seq<Samples>, inputZero: seq<bool>, scales: seq<real>,
                  ghost chans: seq<Samples>, ghost mixed: Samples, choices: seq<Choice>, delayBlocks: int, L: nat,
                  t: nat)
    returns (block: Samples)
    requires L > 0 && filter.nBlocks > 0 && t < |choices| && ValidChoices(choices, filter.nBlocks)
    requires Lengths(chans, |choices| * L)
    requires inputs == Windows(chans, t * L - L, 2 * L) && |inputZero| == |inputs|
    requires TruthfulFlags(inputs, inputZero, L)
    requires filter.powersave ==> OneBlockCount(choices, ClampDelay(delayBlocks, filter.nBlocks), filter.nBlocks)
    requires filter.Valid() && filter.ops == Ops(L) && CounterSafe(t, filter.nBlocks)
    requires mixed == MixedStream(chans, scales, |choices| * L)
    requires filter.history == RunHistory(mixed, choices, ClampDelay(delayBlocks, filter.nBlocks), filter.nBlocks, L, t)
    modifies filter, filter.cbuf, filter.cbufZero
    ensures filter.Valid()
    ensures filter.history
         == RunHistory(mixed, choices, ClampDelay(delayBlocks, filter.nBlocks), filter.nBlocks, L, t + 1)
    ensures |filter.ocbuf| == 2 * L && block == FreqToTime(filter.ocbuf)[..L]
    ensures IsFirBlock(block, mixed, choices, ClampDelay(delayBlocks, filter.nBlocks), filter.nBlocks, L, t)
  {
    ghost var d, nBlocks := ClampDelay(delayBlocks, filter.nBlocks), filter.nBlocks;
    MixWindows(chans, scales, |choices| * L, t * L - L, 2 * L);
    UsedPartsAre(choices[t], d, nBlocks, L);
    filter.ProcessBlock(inputs, inputZero, scales, CoeffOf(choices[t], L), delayBlocks);
    RunHistoryStep(mixed, choices, d, nBlocks, L, t, filter.history[t]);
    RunRegular(mixed, choices, d, nBlocks, L, t, filter.powersave);
    block := FirstHalf(filter.ocbuf, L, mixed, choices, d, nBlocks, t);
  }

  // ----- filters with their parameters -----

  /** The parameters of a filter during a run. */
  datatype Stage = Stage(choices: seq<Choice>, delay: int)

  ghost predicate ValidStage(st: Stage, n: nat, nBlocks: nat, powersave: bool)
    requires nBlocks > 0
  {
    && |st.choices| == n && ValidChoices(st.choices, nBlocks)
    && (powersave ==> OneBlockCount(st.choices, ClampDelay(st.delay, nBlocks), nBlocks))
  }

  /** A filter that has processed t blocks. */
  ghost predicate FilterAt(f: FilterState<Samples>, mixed: Samples, st: Stage, nBlocks: nat, L: nat, powersave: bool,
                           t: nat)
    reads f.Repr()
  {
    && L > 0 && nBlocks > 0 && t <= |st.choices| && ValidStage(st, |st.choices|, nBlocks, powersave)
    && f.ops == Ops(L) && f.nBlocks == nBlocks && f.powersave == powersave && f.Valid()
    && f.history == RunHistory(mixed, st.choices, ClampDelay(st.delay, nBlocks), nBlocks, L, t)
  }

  ghost predicate IsStageBlock(block: Samples, mixed: Samples, st: Stage, nBlocks: nat, L: nat, t: nat)
    requires nBlocks > 0 && t < |st.choices|
  {
    IsFirBlock(block, mixed, st.choices, ClampDelay(st.delay, nBlocks), nBlocks, L, t)
  }

  // ----- the direct form, in terms of the settings alone -----

  /** v is sample q of a stream filtered with choice c, of whose partitions nBlocks - d are in use. */
  ghost predicate FilteredWith(v: real, c: Choice, d: nat, mixed: Samples, nBlocks: nat, L: nat, q: int) {
    match c
    case Pass => v == At(mixed, q)
    case Taps(taps, blocks) =>
      if blocks + d <= nBlocks
      then v == FirOf(blocks * L, taps, mixed, q) && (|taps| <= blocks * L ==> v == Fir(taps, mixed, q))
      else nBlocks >= d && v == FirOf((nBlocks - d) * L, taps, mixed, q)
  }

  /** v is sample p of the output: the filtered stream, later by the pre-delay. A negative pre-delay is none; one of
      n_blocks or more leaves a single partition at the end of the ring. */
  ghost predicate DirectSample(v: real, c: Choice, delay: int, mixed: Samples, nBlocks: nat, L: nat, p: int) {
    && (delay < 0 ==> FilteredWith(v, c, 0, mixed, nBlocks, L, p))
    && (0 <= delay < nBlocks ==> FilteredWith(v, c, delay, mixed, nBlocks, L, p - delay * L))
    && (delay >= nBlocks > 0 ==> FilteredWith(v, c, nBlocks - 1, mixed, nBlocks, L, p - (nBlocks - 1) * L))
  }

  /** Sample p of y is that of the stage's output, with the taps that its block has chosen. */
  ghost predicate DirectAt(y: Samples, mixed: Samples, st: Stage, nBlocks: nat, L: nat, p: nat) {
    && L > 0 && p < |y| && 0 <= p / L < |st.choices|
    && DirectSample(y[p], st.choices[p / L], st.delay, mixed, nBlocks, L, p)
  }

  lemma {:induction false} OneTapFir(mixed: Samples, L: nat, q: int)
    requires L > 0
    ensures FirOf(1 * L, [1.0], mixed, q) == At(mixed, q)
  {
    FirExtend([1.0], mixed, q, 1 * L);
    var f := FirTerm([1.0], mixed, q);
    assert Sum(1, f) == Sum(0, f) + f(0);
    assert f(0) == At([1.0], 0) * At(mixed, q);
  }

  lemma {:induction false} FilteredWithIs(v: real, c: Choice, d: nat, mixed: Samples, nBlocks: nat, L: nat, q: int)
    requires L > 0 && d < nBlocks && ValidChoice(c, nBlocks)
    requires v == FirOf(EffectiveBlocks(c, d, nBlocks) * L, EffectiveTaps(c), mixed, q)
    ensures FilteredWith(v, c, d, mixed, nBlocks, L, q)
  {
    match c
    case Pass => OneTapFir(mixed, L, q);
    case Taps(taps, blocks) =>
      if |taps| <= blocks * L {
        FirExtend(taps, mixed, q, blocks * L);
      }
  }

  lemma {:induction false} DirectSampleIs(v: real, c: Choice, delay: int, mixed: Samples, nBlocks: nat, L: nat, p: int)
    requires L > 0 && nBlocks > 0 && ValidChoice(c, nBlocks)
    requires var d := ClampDelay(delay, nBlocks);
      v == FirOf(EffectiveBlocks(c, d, nBlocks) * L, EffectiveTaps(c), mixed, p - d * L)
    ensures DirectSample(v, c, delay, mixed, nBlocks, L, p)
  {
    var d := ClampDelay(delay, nBlocks);
    FilteredWithIs(v, c, d, mixed, nBlocks, L, p - d * L);
    assert 0 * L == 0;
  }

  /** Block t of a stage, sample by sample. */
  ghost predicate DirectBlock(block: Samples, mixed: Samples, st: Stage, nBlocks: nat, L: nat, t: nat)
    requires t < |st.choices|
  {
    && |block| == L
    && forall m :: 0 <= m < L ==> DirectSample(block[m], st.choices[t], st.delay, mixed, nBlocks, L, t * L + m)
  }

  lemma {:induction false} StageBlockIsDirect(block: Samples, mixed: Samples, st: Stage, nBlocks: nat, L: nat, t: nat)
    requires L > 0 && nBlocks > 0 && t < |st.choices| && ValidChoices(st.choices, nBlocks)
    requires IsStageBlock(block, mixed, st, nBlocks, L, t)
    ensures DirectBlock(block, mixed, st, nBlocks, L, t)
  {
    var d := ClampDelay(st.delay, nBlocks);
    forall m | 0 <= m < L
      ensures DirectSample(block[m], st.choices[t], st.delay, mixed, nBlocks, L, t * L + m)
    {
      assert (t - d) * L + m == t * L + m - d * L;
      assert ValidChoice(st.choices[t], nBlocks);
      DirectSampleIs(block[m], st.choices[t], st.delay, mixed, nBlocks, L, t * L + m);
    }
  }

  /** All output blocks, sample by sample. */
  ghost predicate DirectForm(output: seq<Samples>, mixed: Samples, st: Stage, nBlocks: nat, L: nat) {
    |output| == |st.choices| && forall t :: 0 <= t < |output| ==> DirectBlock(output[t], mixed, st, nBlocks, L, t)
  }

  /** One coefficient set throughout, as long as its partitions, that fits in the ring behind the pre-delay: the output
      is the FIR of the stream, so many blocks late. */
  lemma {:induction false} PlainFir(output: seq<Samples>, mixed: Samples, st: Stage, nBlocks: nat, L: nat,
                                    taps: Samples, blocks: nat, p: nat)
    requires L > 0 && DirectForm(output, mixed, st, nBlocks, L) && p / L < |output|
    requires forall t :: 0 <= t < |st.choices| ==> st.choices[t] == Taps(taps, blocks)
    requires 0 <= st.delay && blocks + st.delay <= nBlocks && 0 < blocks && |taps| <= blocks * L
    ensures p % L < |output[p / L]| && output[p / L][p % L] == Fir(taps, mixed, p - st.delay * L)
  {
    var t, m := p / L, p % L;
    assert DirectBlock(output[t], mixed, st, nBlocks, L, t);
    assert DirectSample(output[t][m], st.choices[t], st.delay, mixed, nBlocks, L, t * L + m);
    assert p == L * t + m && L * t == t * L;
  }

  /** The same with a negative pre-delay, which is none, and with one beyond the ring, which leaves the first partition
      at the ring's end. */
  lemma {:induction false} PlainFirClamped(output: seq<Samples>, mixed: Samples, st: Stage, nBlocks: nat, L: nat,
                                           taps: Samples, blocks: nat, p: nat)
    requires L > 0 && DirectForm(output, mixed, st, nBlocks, L) && p / L < |output|
    requires forall t :: 0 <= t < |st.choices| ==> st.choices[t] == Taps(taps, blocks)
    requires 0 < blocks <= nBlocks && p % L < |output[p / L]|
    ensures st.delay < 0 && |taps| <= blocks * L ==> output[p / L][p % L] == Fir(taps, mixed, p)
    ensures st.delay >= nBlocks ==> output[p / L][p % L] == FirOf(L, taps, mixed, p - (nBlocks - 1) * L)
  {
    var t, m := p / L, p % L;
    assert DirectBlock(output[t], mixed, st, nBlocks, L, t);
    assert DirectSample(output[t][m], st.choices[t], st.delay, mixed, nBlocks, L, t * L + m);
    assert p == L * t + m && L * t == t * L && (nBlocks - (nBlocks - 1)) * L == L && 1 * L == L;
  }

  /** The next block of a filter. */
  method StageBlock(f: FilterState<Samples>, inputs: seq<Samples>, inputZero: seq<bool>, scales: seq<real>,
                    ghost chans: seq<Samples>, ghost mixed: Samples, st: Stage, nBlocks: nat, L: nat, powersave: bool,
                    t: nat)
    returns (block: Samples)
    requires mixed == MixedStream(chans, scales, |st.choices| * L) && Lengths(chans, |st.choices| * L)
    requires FilterAt(f, mixed, st, nBlocks, L, powersave, t) && t < |st.choices| && CounterSafe(t, nBlocks)
    requires inputs == Windows(chans, t * L - L, 2 * L) && TruthfulFlags(inputs, inputZero, L)
    modifies f.Repr()
    ensures FilterAt(f, mixed, st, nBlocks, L, powersave, t + 1)
    ensures |f.ocbuf| == 2 * L && (f.ocbufZero ==> f.ocbuf == Zeros(2 * L))
    ensures IsStageBlock(block, mixed, st, nBlocks, L, t) && block == FreqToTime(f.ocbuf)[..L]
  {
    block := RunBlock(f, inputs, inputZero, scales, chans, mixed, st.choices, st.delay, L, t);
  }

  /** The output blocks are those of the direct form. */
  ghost predicate FirBlocks(output: seq<Samples>, mixed: Samples, st: Stage, nBlocks: nat, L: nat)
    requires nBlocks > 0 && |output| <= |st.choices|
  {
    forall t :: 0 <= t < |output| ==> IsStageBlock(output[t], mixed, st, nBlocks, L, t)
  }

  lemma {:induction false} FirBlocksAppend(output: seq<Samples>, block: Samples, mixed: Samples, st: Stage,
                                           nBlocks: nat, L: nat)
    requires nBlocks > 0 && |output| < |st.choices| && FirBlocks(output, mixed, st, nBlocks, L)
    requires IsStageBlock(block, mixed, st, nBlocks, L, |output|)
    ensures FirBlocks(output + [block], mixed, st, nBlocks, L)
  {
  }

  // ----- channels -----

  ghost predicate Apart(cs: seq<InputChannel>) {
    forall i, j :: 0 <= i < j < |cs| ==> cs[i].Repr() !! cs[j].Repr()
  }

  ghost function Objects(cs: seq<InputChannel>): (s: set<object>)
    ensures forall i :: 0 <= i < |cs| ==> cs[i].Repr() <= s
  {
    if |cs| == 0 then {} else Objects(cs[..|cs| - 1]) + cs[|cs| - 1].Repr()
  }

  /** The channels from m on have entered t blocks of length L, those before m one more. */
  ghost predicate Entered(cs: seq<InputChannel>, chans: seq<Samples>, L: nat, powersave: bool, t: nat, m: nat)
    reads Objects(cs)
  {
    && |cs| == |chans| && L > 0
    && forall i :: 0 <= i < |cs| ==> cs[i].HasEntered(chans[i], L, powersave, if i < m then t + 1 else t)
  }

  lemma {:induction false} BlockFits(t: nat, blocks: nat, L: nat)
    requires t < blocks
    ensures t * L + L == (t + 1) * L <= blocks * L
  {
    MulGap(L, t, blocks);
    assert L * t == t * L && L * blocks == blocks * L;
  }

  /** The next block of one channel; the others stay as they are. */
  method EnterOne(cs: seq<InputChannel>, chans: seq<Samples>, L: nat, powersave: bool, t: nat, blocks: nat, m: nat)
    requires Apart(cs) && Entered(cs, chans, L, powersave, t, m) && m < |cs|
    requires t < blocks && Lengths(chans, blocks * L)
    modifies cs[m].Repr()
    ensures Entered(cs, chans, L, powersave, t, m + 1)
    ensures cs[m].freqcbuf == Window(chans[m], t * L - L, 2 * L)
    ensures cs[m].freqcbufZero ==> cs[m].freqcbuf == Zeros(2 * L)
  {
    BlockFits(t, blocks, L);
    var c := cs[m];
    assert c.HasEntered(chans[m], L, powersave, t);
    c.NextBlock(chans[m][t * L..t * L + L]);
    assert chans[m][..t * L] + chans[m][t * L..t * L + L] == chans[m][..(t + 1) * L];
    WindowOfPrefix(c.stream, chans[m], t * L - L, 2 * L);
    forall i | 0 <= i < |cs|
      ensures cs[i].HasEntered(chans[i], L, powersave, if i < m + 1 then t + 1 else t)
    {
      if i != m {
        assert cs[i].Repr() !! c.Repr();
        assert old(cs[i].HasEntered(chans[i], L, powersave, if i < m then t + 1 else t));
      }
    }
  }

  /** The windows of a growing stream that end at or before its end do not depend on what follows. */
  lemma {:induction false} WindowOfPrefix(y: Samples, whole: Samples, base: int, len: nat)
    requires y <= whole && base + len <= |y|
    ensures Window(y, base, len) == Window(whole, base, len)
  {
  }

  /** The frames of the first m channels. */
  ghost predicate FramesOf(inputs: seq<Samples>, inputZero: seq<bool>, chans: seq<Samples>, base: int, L: nat, m: nat) {
    m <= |chans| && inputs == Windows(chans[..m], base, 2 * L) && TruthfulFlags(inputs, inputZero, L)
  }

  lemma {:induction false} FramesMore(inputs: seq<Samples>, inputZero: seq<bool>, chans: seq<Samples>, base: int,
                                      L: nat, frame: Samples, zero: bool)
    requires |inputs| < |chans| && FramesOf(inputs, inputZero, chans, base, L, |inputs|)
    requires frame == Window(chans[|inputs|], base, 2 * L) && (zero ==> frame == Zeros(2 * L))
    ensures FramesOf(inputs + [frame], inputZero + [zero], chans, base, L, |inputs| + 1)
  {
  }

  /** Converts block t of every channel: the frequency buffers stand for the windows of the channels, and set zero
      flags are truthful. */
  method EnterBlocks(cs: seq<InputChannel>, chans: seq<Samples>, L: nat, powersave: bool, t: nat, blocks: nat)
    returns (inputs: seq<Samples>, inputZero: seq<bool>)
    requires Apart(cs) && Entered(cs, chans, L, powersave, t, 0)
    requires t < blocks && Lengths(chans, blocks * L)
    modifies Objects(cs)
    ensures Entered(cs, chans, L, powersave, t + 1, 0)
    ensures inputs == Windows(chans, t * L - L, 2 * L) && |inputZero| == |inputs|
    ensures TruthfulFlags(inputs, inputZero, L)
  {
    inputs, inputZero := [], [];
    var m := 0;
    while m < |cs|
      invariant 0 <= m <= |cs|
      invariant Entered(cs, chans, L, powersave, t, m)
      invariant FramesOf(inputs, inputZero, chans, t * L - L, L, m)
    {
      EnterOne(cs, chans, L, powersave, t, blocks, m);
      FramesMore(inputs, inputZero, chans, t * L - L, L, cs[m].freqcbuf, cs[m].freqcbufZero);
      inputs, inputZero := inputs + [cs[m].freqcbuf], inputZero + [cs[m].freqcbufZero];
      m := m + 1;
    }
    assert chans[..m] == chans;
  }

  lemma {:induction false} ObjectsApart(cs: seq<InputChannel>, s: set<object>)
    requires forall i :: 0 <= i < |cs| ==> cs[i].Repr() !! s
    ensures Objects(cs) !! s
  {
    if |cs| > 0 {
      ObjectsApart(cs[..|cs| - 1], s);
    }
  }

  lemma {:induction false} ApartMore(cs: seq<InputChannel>, c: InputChannel)
    requires Apart(cs) && Objects(cs) !! c.Repr()
    ensures Apart(cs + [c]) && Objects(cs + [c]) == Objects(cs) + c.Repr()
  {
    assert (cs + [c])[..|cs|] == cs;
  }

  method NewChannel(before: seq<InputChannel>, L: nat, powersave: bool) returns (cs: seq<InputChannel>)
    requires L > 0 && Apart(before)
    ensures |cs| == |before| + 1 && cs[..|before|] == before && Apart(cs)
    ensures Objects(cs) == Objects(before) + cs[|before|].Repr() && fresh(cs[|before|].Repr())
    ensures cs[|before|].HasEntered([], L, powersave, 0)
  {
    var c := new InputChannel(L, powersave);
    ObjectsApart(before, c.Repr());
    ApartMore(before, c);
    cs := before + [c];
  }

  method NewChannels(chans: seq<Samples>, L: nat, powersave: bool) returns (cs: seq<InputChannel>)
    requires L > 0
    ensures Apart(cs) && fresh(Objects(cs)) && Entered(cs, chans, L, powersave, 0, 0)
  {
    cs := [];
    while |cs| < |chans|
      invariant |cs| <= |chans|
      invariant Apart(cs) && fresh(Objects(cs))
      invariant Entered(cs, chans[..|cs|], L, powersave, 0, 0)
    {
      ghost var before := cs;
      cs := NewChannel(cs, L, powersave);
      NewEntered(before, cs, chans, L, powersave);
    }
    assert chans[..|cs|] == chans;
  }

  lemma {:induction false} NewEntered(before: seq<InputChannel>, cs: seq<InputChannel>, chans: seq<Samples>, L: nat,
                                      powersave: bool)
    requires |before| < |chans| && |cs| == |before| + 1 && cs[..|before|] == before
    requires Entered(before, chans[..|before|], L, powersave, 0, 0) && cs[|before|].HasEntered([], L, powersave, 0)
    ensures Entered(cs, chans[..|cs|], L, powersave, 0, 0)
  {
    forall i | 0 <= i < |cs|
      ensures cs[i].HasEntered(chans[..|cs|][i], L, powersave, 0)
    {
      if i < |before| {
        assert cs[i] == before[i] && before[i].HasEntered(chans[..|before|][i], L, powersave, 0);
      }
    }
  }

  /** Channels with buffers of their own that have entered t blocks. */
  ghost predicate ChannelsAt(cs: seq<InputChannel>, chans: seq<Samples>, L: nat, powersave: bool, t: nat)
    reads Objects(cs)
  {
    Apart(cs) && Entered(cs, chans, L, powersave, t, 0)
  }

  /** One pass of the loop: all channels are converted, then the filter takes its block. */
  method RunNext(cs: seq<InputChannel>, filter: FilterState<Samples>, chans: seq<Samples>, scales: seq<real>,
                 ghost mixed: Samples, st: Stage, nBlocks: nat, L: nat, powersave: bool, t: nat)
    returns (block: Samples)
    requires t < |st.choices| && Lengths(chans, |st.choices| * L)
    requires mixed == MixedStream(chans, scales, |st.choices| * L)
    requires ChannelsAt(cs, chans, L, powersave, t) && FilterAt(filter, mixed, st, nBlocks, L, powersave, t)
    requires Objects(cs) !! filter.Repr() && CounterSafe(t, nBlocks)
    modifies Objects(cs), filter.Repr()
    ensures ChannelsAt(cs, chans, L, powersave, t + 1) && FilterAt(filter, mixed, st, nBlocks, L, powersave, t + 1)
    ensures IsStageBlock(block, mixed, st, nBlocks, L, t)
  {
    var inputs, inputZero := EnterBlocks(cs, chans, L, powersave, t, |st.choices|);
    block := StageBlock(filter, inputs, inputZero, scales, chans, mixed, st, nBlocks, L, powersave, t);
  }

  method StartRun(chans: seq<Samples>, ghost mixed: Samples, st: Stage, nBlocks: nat, L: nat, powersave: bool)
    returns (cs: seq<InputChannel>, filter: FilterState<Samples>)
    requires L > 0 && nBlocks > 0 && ValidStage(st, |st.choices|, nBlocks, powersave)
    ensures fresh(Objects(cs)) && fresh(filter.Repr()) && Objects(cs) !! filter.Repr()
    ensures ChannelsAt(cs, chans, L, powersave, 0) && FilterAt(filter, mixed, st, nBlocks, L, powersave, 0)
  {
    OpsLawful(L);
    filter := new FilterState(Ops(L), nBlocks, powersave);
    cs := NewChannels(chans, L, powersave);
  }

  /** Runs a filter over whole channels, block by block, each block with its own choice of coefficients.
      With powersave the output is the same as without. */
  method RunFilter(chans: seq<Samples>, scales: seq<real>, st: Stage, nBlocks: nat, L: nat, powersave: bool)
    returns (output: seq<Samples>)
    requires L > 0 && nBlocks > 0 && ValidStage(st, |st.choices|, nBlocks, powersave)
    requires Lengths(chans, |st.choices| * L)
    requires forall t :: 0 <= t < |st.choices| ==> CounterSafe(t, nBlocks)
    ensures DirectForm(output, MixedStream(chans, scales, |st.choices| * L), st, nBlocks, L)
  {
    ghost var mixed := MixedStream(chans, scales, |st.choices| * L);
    var cs, filter := StartRun(chans, mixed, st, nBlocks, L, powersave);
    output := RunBlocks(cs, filter, chans, scales, mixed, st, nBlocks, L, powersave);
    BlocksAreDirect(output, mixed, st, nBlocks, L);
  }

  lemma {:induction false} BlocksAreDirect(output: seq<Samples>, mixed: Samples, st: Stage, nBlocks: nat, L: nat)
    requires L > 0 && nBlocks > 0 && ValidChoices(st.choices, nBlocks) && |output| == |st.choices|
    requires FirBlocks(output, mixed, st, nBlocks, L)
    ensures DirectForm(output, mixed, st, nBlocks, L)
  {
    forall t | 0 <= t < |output|
      ensures DirectBlock(output[t], mixed, st, nBlocks, L, t)
    {
      StageBlockIsDirect(output[t], mixed, st, nBlocks, L, t);
    }
  }

  method RunBlocks(cs: seq<InputChannel>, filter: FilterState<Samples>, chans: seq<Samples>, scales: seq<real>,
                   ghost mixed: Samples, st: Stage, nBlocks: nat, L: nat, powersave: bool)
    returns (output: seq<Samples>)
    requires Lengths(chans, |st.choices| * L) && mixed == MixedStream(chans, scales, |st.choices| * L)
    requires ChannelsAt(cs, chans, L, powersave, 0) && FilterAt(filter, mixed, st, nBlocks, L, powersave, 0)
    requires Objects(cs) !! filter.Repr()
    requires forall t :: 0 <= t < |st.choices| ==> CounterSafe(t, nBlocks)
    modifies Objects(cs), filter.Repr()
    ensures |output| == |st.choices| && FirBlocks(output, mixed, st, nBlocks, L)
  {
    output := [];
    var t := 0;
    while t < |st.choices|
      invariant 0 <= t == |output| <= |st.choices|
      invariant ChannelsAt(cs, chans, L, powersave, t) && FilterAt(filter, mixed, st, nBlocks, L, powersave, t)
      invariant FirBlocks(output, mixed, st, nBlocks, L)
    {
      var block := RunNext(cs, filter, chans, scales, mixed, st, nBlocks, L, powersave, t);
      FirBlocksAppend(output, block, mixed, st, nBlocks, L);
      output := output + [block];
      t := t + 1;
    }
  }
}
