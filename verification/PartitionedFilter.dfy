/** One filter of filter_process(): a ring of n_blocks input spectra that is multiplied
    partition by partition with a coefficient set, with block-wise pre-delay and powersave.

    The ring works on frequency-domain buffers as a whole, so the model is generic in
    what such a buffer is; module FilterRun supplies the buffers of the program. */
module PartitionedFilter {

  const UINT32_RANGE := 0x1_0000_0000

  /** Unsigned 32-bit wrap-around, as block counter arithmetic has it. */
  function Uint32(x: int): nat {
    x % UINT32_RANGE
  }

  /** Frequency-domain buffers: the all-zero buffer, the buffer of the unit pulse, and the convolver's operations. */
  datatype SpectrumOps<!T(!new)> = SpectrumOps(
    silence: T,
    dirac: T,
    convolve: (T, T) -> T,
    add: (T, T) -> T,
    mix: (seq<T>, seq<real>) -> T)
  {
    /** Silence stays silent. */
    ghost predicate Lawful() {
      && (forall c :: convolve(silence, c) == silence)
      && (forall x :: add(x, silence) == x)
      && (forall xs, scales :: AllSilent(xs) ==> mix(xs, scales) == silence)
    }

    ghost predicate AllSilent(xs: seq<T>) {
      forall i :: 0 <= i < |xs| ==> xs[i] == silence
    }

    /** Sum of the first n products of a frame with its coefficient partition. */
    function PartSum(frames: seq<T>, parts: seq<T>, n: nat): T
      requires 0 < n <= |frames| && n <= |parts|
    {
      var p := convolve(frames[n - 1], parts[n - 1]);
      if n == 1 then p else add(PartSum(frames, parts, n - 1), p)
    }

    /** The sum over all partitions. */
    function FullSum(frames: seq<T>, parts: seq<T>): T
      requires 0 < |parts| == |frames|
    {
      PartSum(frames, parts, |parts|)
    }
  }

  /** One processed block: the mixed input frame, the pre-delay and the partitions applied to it. */
  datatype Block<T> = Block(frame: T, delay: nat, parts: seq<T>)

  // ----- specification -----

  ghost predicate WellFormed<T(!new)>(h: seq<Block<T>>, nBlocks: nat) {
    forall k :: 0 <= k < |h| ==> h[k].delay < nBlocks && 0 < |h[k].parts| <= nBlocks - h[k].delay
  }

  /** The frame of block t; before the first block the input is silent. */
  function FrameAt<T(!new)>(ops: SpectrumOps<T>, h: seq<Block<T>>, t: int): T {
    if 0 <= t < |h| then h[t].frame else ops.silence
  }

  /** The frames of blocks newest, newest-1, ..., newest-n+1. */
  function Recent<T(!new)>(ops: SpectrumOps<T>, h: seq<Block<T>>, newest: int, n: nat): (fs: seq<T>)
    ensures |fs| == n
    ensures forall i :: 0 <= i < n ==> fs[i] == FrameAt(ops, h, newest - i)
  {
    seq(n, i => FrameAt(ops, h, newest - i))
  }

  /** What the last block must produce: partition i applied to the frame that is delay + i blocks old. */
  ghost function Expected<T(!new)>(ops: SpectrumOps<T>, h: seq<Block<T>>): T
    requires |h| > 0 && |h[|h| - 1].parts| > 0
  {
    var last := h[|h| - 1];
    ops.FullSum(Recent(ops, h, |h| - 1 - last.delay, |last.parts|), last.parts)
  }

  /** The delay has not changed for as long as the last block looks back. */
  ghost predicate Steady<T(!new)>(h: seq<Block<T>>)
    requires |h| > 0
  {
    var last := h[|h| - 1];
    forall k :: 0 <= k < |h| && |h| - last.delay - |last.parts| <= k ==> h[k].delay == last.delay
  }

  /** Delay and number of partitions have been the same from the first block on. */
  ghost predicate Uniform<T(!new)>(h: seq<Block<T>>) {
    forall k :: 0 <= k < |h| ==> h[k].delay == h[0].delay && |h[k].parts| == |h[0].parts|
  }

  /** The histories for which the output is specified. */
  ghost predicate Regular<T(!new)>(h: seq<Block<T>>, powersave: bool)
    requires |h| > 0
  {
    if powersave then Uniform(h) else Steady(h)
  }

  lemma {:induction false} UniformIsSteady<T(!new)>(h: seq<Block<T>>)
    requires |h| > 0
    ensures Uniform(h) ==> Steady(h)
  {
  }

  // ----- the ring -----

  /** The latest block that was stored in ring slot j, or -1. */
  function SlotWriter<T(!new)>(h: seq<Block<T>>, nBlocks: nat, j: nat): (t: int)
    requires nBlocks > 0
    ensures -1 <= t < |h|
  {
    if |h| == 0 then -1
    else if (|h| - 1 + h[|h| - 1].delay) % nBlocks == j then |h| - 1
    else SlotWriter(h[..|h| - 1], nBlocks, j)
  }

  lemma {:induction false} ModDiffer(a: int, b: int, n: nat)
    requires 0 < a - b < n
    ensures a % n != b % n
  {
    if a % n == b % n {
      assert a - b == (a / n - b / n) * n;
      ProductGap(a / n - b / n, n);
    }
  }

  lemma {:induction false} ProductGap(q: int, n: nat)
    requires n > 0
    ensures !(0 < q * n < n)
  {
    if q >= 1 {
      assert q * n >= n;
    } else {
      assert q * n <= 0;
    }
  }

  /** While the delay is steady, the slot of block t0 is not overwritten for n_blocks blocks. */
  lemma {:induction false} SteadyScan<T(!new)>(h: seq<Block<T>>, nBlocks: nat, d: nat, t0: int, slot: nat)
    requires 0 < nBlocks && t0 < |h| && |h| - 1 - t0 < nBlocks
    requires slot == (t0 + d) % nBlocks
    requires forall k :: 0 <= k < |h| && t0 <= k ==> h[k].delay == d
    ensures SlotWriter(h, nBlocks, slot) == if t0 >= 0 then t0 else -1
    decreases |h|
  {
    if |h| != 0 && t0 != |h| - 1 {
      ModDiffer(|h| - 1 + d, t0 + d, nBlocks);
      SteadyScan(h[..|h| - 1], nBlocks, d, t0, slot);
    }
  }

  /** Each slot holds the frame last written to it. */
  ghost predicate RingHolds<T(!new)>(ops: SpectrumOps<T>, ring: seq<T>, h: seq<Block<T>>, nBlocks: nat)
    requires nBlocks > 0
  {
    |ring| == nBlocks &&
    forall j: nat {:trigger SlotWriter(h, nBlocks, j)} ::
      j < nBlocks ==> ring[j] == FrameAt(ops, h, SlotWriter(h, nBlocks, j))
  }

  /** In a steady window the slot i blocks back holds the frame that is delay + i blocks old. */
  lemma {:induction false} RingRead<T(!new)>(ops: SpectrumOps<T>, ring: seq<T>, h: seq<Block<T>>, nBlocks: nat, i: nat)
    requires nBlocks > 0 && |h| > 0 && i < |h| && WellFormed(h, nBlocks) && Steady(h)
    requires i < |h[|h| - 1].parts|
    requires RingHolds(ops, ring, h, nBlocks)
    ensures ring[(|h| - 1 - i) % nBlocks] == FrameAt(ops, h, |h| - 1 - h[|h| - 1].delay - i)
  {
    var last := h[|h| - 1];
    SteadyScan(h, nBlocks, last.delay, |h| - 1 - last.delay - i, (|h| - 1 - i) % nBlocks);
  }

  // ----- 32-bit block counter -----

  /** The ring index survives the wrap of the block counter exactly when n_blocks divides 2^32. */
  lemma {:induction false} WrapHarmlessIff(n: nat)
    requires n > 0
    ensures (forall x: nat :: Uint32(x) % n == x % n) <==> UINT32_RANGE % n == 0
  {
    if UINT32_RANGE % n == 0 {
      forall x: nat
        ensures Uint32(x) % n == x % n
      {
        ModOfMod(x, UINT32_RANGE, n);
      }
    } else {
      assert Uint32(UINT32_RANGE) % n != UINT32_RANGE % n;
    }
  }

  lemma {:induction false} ModOfMod(x: int, w: int, n: nat)
    requires 0 < n && 0 < w && w % n == 0
    ensures (x % w) % n == x % n
  {
    var q, p := x / w, w / n;
    assert x % w == x - q * w;
    assert w == p * n;
    assert q * w == (q * p) * n by { MulAssoc(q, p, n); }
    ModShift(x % w, q * p, n);
  }

  lemma {:induction false} MulAssoc(a: int, b: int, c: int)
    ensures a * (b * c) == (a * b) * c
  {
  }

  lemma {:induction false} ModShift(r: int, k: int, n: nat)
    requires n > 0
    ensures (r + k * n) % n == r % n
  {
    var a, b := (r + k * n) % n, r % n;
    var qa, qb := (r + k * n) / n, r / n;
    assert a - b == (k - qa + qb) * n by { Distribute(k, qa, qb, n); }
    ProductGap(k - qa + qb, n);
    ProductGap(qa - k - qb, n);
    assert (qa - k - qb) * n == b - a;
  }

  lemma {:induction false} Distribute(k: int, a: int, b: int, n: int)
    ensures (k - a + b) * n == k * n - a * n + b * n
  {
  }

  /** Blocks up to t can be addressed through the 32-bit counter. */
  ghost predicate CounterSafe(t: nat, nBlocks: nat)
    requires nBlocks > 0
  {
    t + nBlocks <= UINT32_RANGE || UINT32_RANGE % nBlocks == 0
  }

  lemma {:induction false} CounterOffset(t: nat, offset: int)
    ensures Uint32(Uint32(t) + offset) == Uint32(t + offset)
  {
  }

  /** Ring index of block number t + offset, from a counter that holds t modulo 2^32. */
  lemma {:induction false} RingIndex(t: nat, offset: int, nBlocks: nat)
    requires nBlocks > 0 && CounterSafe(t, nBlocks)
    requires 0 <= t + offset && offset < nBlocks
    ensures Uint32(Uint32(t) + offset) % nBlocks == (t + offset) % nBlocks
  {
    CounterOffset(t, offset);
    if UINT32_RANGE % nBlocks == 0 {
      ModOfMod(t + offset, UINT32_RANGE, nBlocks);
    } else {
      assert Uint32(t + offset) == t + offset;
    }
  }

  // ----- storing and reading -----

  /** With a single block the slot may hold something else before the store: it is also the output buffer. */
  lemma {:induction false} RingStore<T(!new)>(ops: SpectrumOps<T>, ring: seq<T>, h: seq<Block<T>>, b: Block<T>,
                                              counter: nat, slot: nat, nBlocks: nat)
    requires |ring| == nBlocks && slot < nBlocks && b.delay < nBlocks
    requires CounterSafe(|h|, nBlocks) && counter == Uint32(|h|) && slot == Uint32(counter + b.delay) % nBlocks
    requires nBlocks > 1 ==> RingHolds(ops, ring, h, nBlocks)
    ensures RingHolds(ops, ring[slot := b.frame], h + [b], nBlocks)
  {
    var h' := h + [b];
    RingIndex(|h|, b.delay, nBlocks);
    assert h'[..|h'| - 1] == h;
    forall j: nat | j < nBlocks
      ensures ring[slot := b.frame][j] == FrameAt(ops, h', SlotWriter(h', nBlocks, j))
    {
      if j != slot {
        assert FrameAt(ops, h', SlotWriter(h, nBlocks, j)) == FrameAt(ops, h, SlotWriter(h, nBlocks, j));
      }
    }
  }

  // ----- what the partition loop may skip -----

  lemma {:induction false} PartSumPrefix<T(!new)>(ops: SpectrumOps<T>, fs: seq<T>, gs: seq<T>, parts: seq<T>, n: nat)
    requires 0 < n <= |fs| && n <= |gs| && n <= |parts|
    requires forall i :: 0 <= i < n ==> fs[i] == gs[i]
    ensures ops.PartSum(fs, parts, n) == ops.PartSum(gs, parts, n)
  {
    if n > 1 {
      PartSumPrefix(ops, fs, gs, parts, n - 1);
    }
  }

  /** Silent frames contribute nothing. */
  lemma {:induction false} PartSumSilent<T(!new)>(ops: SpectrumOps<T>, fs: seq<T>, parts: seq<T>, m: nat, n: nat)
    requires ops.Lawful() && 0 < m <= n <= |fs| && n <= |parts|
    requires forall i :: m <= i < n ==> fs[i] == ops.silence
    ensures ops.PartSum(fs, parts, n) == ops.PartSum(fs, parts, m)
  {
    if m != n {
      PartSumSilent(ops, fs, parts, m, n - 1);
    }
  }

  /** Frames of blocks lo, ..., hi-1 are silent. */
  ghost predicate SilentBlocks<T(!new)>(ops: SpectrumOps<T>, h: seq<Block<T>>, lo: int, hi: int) {
    forall t :: lo <= t < hi ==> FrameAt(ops, h, t) == ops.silence
  }

  /** A loop over procBlocks slots misses nothing but silence in the last block. */
  ghost predicate LoopMissesSilence<T(!new)>(ops: SpectrumOps<T>, h: seq<Block<T>>, powersave: bool, procBlocks: nat)
    requires |h| > 0
  {
    Regular(h, powersave) ==>
      var last := h[|h| - 1];
      SilentBlocks(ops, h, |h| - last.delay - |last.parts|, |h| - last.delay - procBlocks)
  }

  /** Between blocks: the loop bound, and what the next loop will not have to look at. */
  ghost predicate SkippedSilent<T(!new)>(ops: SpectrumOps<T>, h: seq<Block<T>>, powersave: bool, procBlocks: nat,
                                         nBlocks: nat) {
    && (!powersave ==> procBlocks == if |h| < nBlocks then |h| else nBlocks)
    && (powersave && |h| > 0 && Uniform(h) ==>
          SilentBlocks(ops, h, |h| - h[0].delay - |h[0].parts|, |h| - h[0].delay - procBlocks))
  }

  /** One more block: the loop may look one slot further back, and misses nothing but silence. */
  lemma {:induction false} SilentAdvance<T(!new)>(ops: SpectrumOps<T>, h: seq<Block<T>>, b: Block<T>, powersave: bool,
                                                  procBlocks: nat, nBlocks: nat)
    requires nBlocks > 0 && procBlocks <= |h| && procBlocks <= nBlocks
    requires WellFormed(h + [b], nBlocks)
    requires SkippedSilent(ops, h, powersave, procBlocks, nBlocks)
    ensures LoopMissesSilence(ops, h + [b], powersave, if procBlocks < nBlocks then procBlocks + 1 else procBlocks)
  {
    var h' := h + [b];
    var p' := if procBlocks < nBlocks then procBlocks + 1 else procBlocks;
    assert h'[|h|] == b;
    if powersave && |h| > 0 && Uniform(h') {
      assert h'[0] == h[0];
      assert Uniform(h) by {
        assert forall k :: 0 <= k < |h| ==> h[k] == h'[k];
      }
      forall t | |h'| - b.delay - |b.parts| <= t < |h'| - b.delay - p'
        ensures FrameAt(ops, h', t) == ops.silence
      {
        assert FrameAt(ops, h, t) == ops.silence;
      }
    }
  }

  /** frames are the ones that the last block looks back on, newest first. */
  ghost predicate LooksBackOn<T(!new)>(ops: SpectrumOps<T>, h: seq<Block<T>>, frames: seq<T>)
    requires |h| > 0
  {
    forall i :: 0 <= i < |frames| ==> frames[i] == FrameAt(ops, h, |h| - 1 - h[|h| - 1].delay - i)
  }

  /** frames are the spectra in the current slot and the slots before it. */
  ghost predicate ReadFrom<T(!new)>(frames: seq<T>, ring: seq<T>, counter: nat, nBlocks: nat) {
    && 0 < nBlocks == |ring|
    && forall i: nat {:trigger frames[i]} :: i < |frames| ==> frames[i] == ring[Uint32(counter - i) % nBlocks]
  }

  /** In a steady window the loop reads the frames that are delay, delay + 1, ... blocks old. */
  lemma {:induction false} FramesRead<T(!new)>(ops: SpectrumOps<T>, ring: seq<T>, h: seq<Block<T>>, frames: seq<T>,
                                               counter: nat, powersave: bool, nBlocks: nat)
    requires nBlocks > 0 && |h| > 0 && WellFormed(h, nBlocks)
    requires CounterSafe(|h| - 1, nBlocks) && counter == Uint32(|h| - 1)
    requires RingHolds(ops, ring, h, nBlocks)
    requires |frames| <= |h[|h| - 1].parts| && |frames| <= |h|
    requires ReadFrom(frames, ring, counter, nBlocks)
    ensures Regular(h, powersave) ==> LooksBackOn(ops, h, frames)
  {
    if Regular(h, powersave) {
      UniformIsSteady(h);
      forall i | 0 <= i < |frames|
        ensures frames[i] == FrameAt(ops, h, |h| - 1 - h[|h| - 1].delay - i)
      {
        RingIndex(|h| - 1, -i, nBlocks);
        RingRead(ops, ring, h, nBlocks, i);
      }
    }
  }

  /** The loop may stop where only silent frames remain. */
  lemma {:induction false} LoopOutput<T(!new)>(ops: SpectrumOps<T>, h: seq<Block<T>>, frames: seq<T>, powersave: bool,
                                               proc: nat)
    requires ops.Lawful() && |h| > 0 && |h[|h| - 1].parts| > 0 && proc > 0
    requires LoopMissesSilence(ops, h, powersave, proc)
    requires |frames| == if |h[|h| - 1].parts| < proc then |h[|h| - 1].parts| else proc
    requires Regular(h, powersave) ==> LooksBackOn(ops, h, frames)
    ensures Regular(h, powersave) ==> ops.PartSum(frames, h[|h| - 1].parts, |frames|) == Expected(ops, h)
  {
    var last := h[|h| - 1];
    var n, all, newest := |frames|, |last.parts|, |h| - 1 - last.delay;
    if Regular(h, powersave) {
      var recent := Recent(ops, h, newest, all);
      PartSumPrefix(ops, frames, recent, last.parts, n);
      forall i | n <= i < all
        ensures recent[i] == ops.silence
      {
        assert FrameAt(ops, h, newest - i) == ops.silence;
      }
      PartSumSilent(ops, recent, last.parts, n, all);
    }
  }

  /** After a block the loop bound is kept, or it is reset because the whole look-back was silent. */
  lemma {:induction false} SilentAfter<T(!new)>(ops: SpectrumOps<T>, h: seq<Block<T>>, frames: seq<T>, powersave: bool,
                                                proc: nat, proc': nat, nBlocks: nat)
    requires |h| > 0 && WellFormed(h, nBlocks)
    requires LoopMissesSilence(ops, h, powersave, proc)
    requires !powersave ==> proc == if |h| < nBlocks then |h| else nBlocks
    requires |frames| == if |h[|h| - 1].parts| < proc then |h[|h| - 1].parts| else proc
    requires Regular(h, powersave) ==> LooksBackOn(ops, h, frames)
    requires proc' != proc ==> proc' == 0 && powersave && ops.AllSilent(frames)
    ensures SkippedSilent(ops, h, powersave, proc', nBlocks)
  {
    var last := h[|h| - 1];
    if powersave && Uniform(h) && proc' != proc {
      forall t | |h| - last.delay - |last.parts| <= t < |h| - last.delay
        ensures FrameAt(ops, h, t) == ops.silence
      {
        var i := |h| - 1 - last.delay - t;
        if i < |frames| {
          assert frames[i] == FrameAt(ops, h, t);
        }
      }
    }
  }

  /** Between blocks: what ring, counter and loop bound hold, given the blocks processed so far. */
  ghost predicate Idle<T(!new)>(ops: SpectrumOps<T>, ring: seq<T>, h: seq<Block<T>>, counter: nat, procBlocks: nat,
                                powersave: bool, nBlocks: nat) {
    && nBlocks > 0 && |ring| == nBlocks && WellFormed(h, nBlocks)
    && counter == Uint32(|h|)
    && procBlocks <= nBlocks && procBlocks <= |h|
    && (nBlocks > 1 ==> RingHolds(ops, ring, h, nBlocks))
    && SkippedSilent(ops, h, powersave, procBlocks, nBlocks)
  }

  /** Between storing the frame of a block and convolving; the counter still names that block. */
  ghost predicate Stored<T(!new)>(ops: SpectrumOps<T>, ring: seq<T>, h: seq<Block<T>>, counter: nat, procBlocks: nat,
                                  powersave: bool, nBlocks: nat) {
    && nBlocks > 0 && |h| > 0 && WellFormed(h, nBlocks)
    && CounterSafe(|h| - 1, nBlocks) && counter == Uint32(|h| - 1)
    && 0 < procBlocks <= nBlocks && procBlocks <= |h|
    && RingHolds(ops, ring, h, nBlocks)
    && (!powersave ==> procBlocks == if |h| < nBlocks then |h| else nBlocks)
    && LoopMissesSilence(ops, h, powersave, procBlocks)
  }

  lemma {:induction false} StoreStep<T(!new)>(ops: SpectrumOps<T>, ring: seq<T>, h: seq<Block<T>>, b: Block<T>,
                                              slot: nat, counter: nat, procBlocks: nat, powersave: bool, nBlocks: nat)
    requires Idle(ops, ring, h, counter, procBlocks, powersave, nBlocks) && CounterSafe(|h|, nBlocks)
    requires b.delay < nBlocks && 0 < |b.parts| <= nBlocks - b.delay
    requires slot < nBlocks && slot == Uint32(counter + b.delay) % nBlocks
    ensures Stored(ops, ring[slot := b.frame], h + [b], counter,
                   if procBlocks < nBlocks then procBlocks + 1 else procBlocks, powersave, nBlocks)
  {
    RingStore(ops, ring, h, b, counter, slot, nBlocks);
    SilentAdvance(ops, h, b, powersave, procBlocks, nBlocks);
  }

  lemma {:induction false} ConvolveStep<T(!new)>(ops: SpectrumOps<T>, ring: seq<T>, ring': seq<T>, h: seq<Block<T>>,
                                                 frames: seq<T>, counter: nat, proc: nat, proc': nat, powersave: bool,
                                                 nBlocks: nat)
    requires ops.Lawful() && Stored(ops, ring, h, counter, proc, powersave, nBlocks)
    requires |frames| == if |h[|h| - 1].parts| < proc then |h[|h| - 1].parts| else proc
    requires ReadFrom(frames, ring, counter, nBlocks)
    requires |ring'| == nBlocks && (nBlocks > 1 ==> ring' == ring)
    requires proc' != proc ==> proc' == 0 && powersave && ops.AllSilent(frames)
    ensures Idle(ops, ring', h, Uint32(counter + 1), proc', powersave, nBlocks)
    ensures Regular(h, powersave) ==> ops.PartSum(frames, h[|h| - 1].parts, |frames|) == Expected(ops, h)
  {
    FramesRead(ops, ring, h, frames, counter, powersave, nBlocks);
    LoopOutput(ops, h, frames, powersave, proc);
    SilentAfter(ops, h, frames, powersave, proc, proc', nBlocks);
    CounterOffset(|h| - 1, 1);
  }

  // ----- the filter -----

  /** coeff: -1 in the configuration passes the signal through; otherwise one spectrum per partition. */
  datatype Coeff<T> = Dirac | Partitions(blocks: seq<T>)

  function ClampDelay(delay: int, nBlocks: nat): (d: nat)
    requires nBlocks > 0
    ensures d < nBlocks && (0 <= delay < nBlocks ==> d == delay)
    ensures (delay < 0 ==> d == 0) && (delay >= nBlocks ==> d + 1 == nBlocks)
  {
    if delay < 0 then 0 else if delay > nBlocks - 1 then nBlocks - 1 else delay
  }

  /** The partitions that fit in the ring behind the pre-delay. */
  function UsedParts<T(!new)>(ops: SpectrumOps<T>, coeff: Coeff<T>, d: nat, nBlocks: nat): (parts: seq<T>)
    requires d < nBlocks
    requires coeff.Partitions? ==> |coeff.blocks| > 0
    ensures 0 < |parts| <= nBlocks - d
    ensures coeff.Dirac? ==> |parts| == 1
  {
    match coeff
    case Dirac => [ops.dirac]
    case Partitions(blocks) => if |blocks| > nBlocks - d then blocks[..nBlocks - d] else blocks
  }

  class FilterState<T(==, !new)> {
    const ops: SpectrumOps<T>
    const nBlocks: nat
    const powersave: bool
    const cbuf: array<T>
    const cbufZero: array<bool>
    var ocbuf: T
    var ocbufZero: bool
    var procBlocks: nat
    var blockCounter: nat
    ghost var history: seq<Block<T>>

    /** Buffer sizes, and every set zero flag is truthful. */
    ghost predicate Buffers()
      reads this`ocbuf, this`ocbufZero, cbuf, cbufZero
    {
      && ops.Lawful()
      && 0 < nBlocks == cbuf.Length == cbufZero.Length && cbuf as object != cbufZero
      && (forall j :: 0 <= j < nBlocks && cbufZero[j] ==> cbuf[j] == ops.silence)
      && (ocbufZero ==> powersave && ocbuf == ops.silence)
    }

    ghost function Repr(): set<object> {
      {this, cbuf, cbufZero}
    }

    ghost predicate Valid()
      reads this, cbuf, cbufZero
    {
      Buffers() && Idle(ops, cbuf[..], history, blockCounter, procBlocks, powersave, nBlocks)
    }

    constructor (ops: SpectrumOps<T>, nBlocks: nat, powersave: bool)
      requires ops.Lawful() && nBlocks > 0
      ensures Valid() && fresh(cbuf) && fresh(cbufZero)
      ensures this.ops == ops && this.nBlocks == nBlocks && this.powersave == powersave
      ensures history == []
    {
      this.ops, this.nBlocks, this.powersave := ops, nBlocks, powersave;
      cbuf := new T[nBlocks](_ => ops.silence);
      cbufZero := new bool[nBlocks](_ => false);
      ocbuf, ocbufZero := ops.silence, false;
      procBlocks, blockCounter := 0, 0;
      history := [];
    }

    /** Ring slot of the frame i blocks before the current one. */
    function Slot(i: nat): (j: nat)
      requires nBlocks > 0
      reads this`blockCounter
      ensures j < nBlocks
    {
      Uint32(blockCounter - i) % nBlocks
    }

    /** Ring slot that a frame with pre-delay d is stored in. */
    function StoreSlot(d: nat): (j: nat)
      requires nBlocks > 0
      reads this`blockCounter
      ensures j < nBlocks
    {
      Uint32(blockCounter + d) % nBlocks
    }

    /** The spectra the partition loop reads: the current slot and the slots before it. */
    ghost predicate Reads(frames: seq<T>)
      requires 0 < nBlocks == cbuf.Length
      reads this`blockCounter, cbuf
    {
      forall i: nat {:trigger Slot(i)} :: i < |frames| ==> frames[i] == cbuf[Slot(i)]
    }

    ghost function CurrentFrames(n: nat): (frames: seq<T>)
      requires 0 < nBlocks == cbuf.Length
      reads this`blockCounter, cbuf
      ensures |frames| == n && Reads(frames)
      ensures ReadFrom(frames, cbuf[..], blockCounter, nBlocks)
    {
      var ring, counter := cbuf[..], blockCounter;
      seq(n, i requires 0 <= i => ring[Uint32(counter - i) % nBlocks])
    }

    /** Mixes the inputs into a slot; with powersave, flagged silent inputs only clear it. */
    method StoreFrame(slot: nat, inputs: seq<T>, inputZero: seq<bool>, scales: seq<real>)
      requires Buffers() && slot < nBlocks && |inputs| == |inputZero|
      requires forall i :: 0 <= i < |inputs| && inputZero[i] ==> inputs[i] == ops.silence
      modifies cbuf, cbufZero
      ensures Buffers()
      ensures cbuf[..] == old(cbuf[..])[slot := ops.mix(inputs, scales)]
    {
      var isZero := forall i :: 0 <= i < |inputs| ==> inputZero[i];
      assert isZero ==> ops.AllSilent(inputs) && ops.mix(inputs, scales) == ops.silence;
      if !isZero || !powersave {
        cbuf[slot] := ops.mix(inputs, scales);
        cbufZero[slot] := false;
      } else if !cbufZero[slot] {
        cbuf[slot] := ops.silence;
        cbufZero[slot] := true;
      }
    }

    method StoreBlock(inputs: seq<T>, inputZero: seq<bool>, scales: seq<real>, coeff: Coeff<T>, delayBlocks: int)
      returns (parts: seq<T>)
      requires Valid() && CounterSafe(|history|, nBlocks) && |inputs| == |inputZero|
      requires forall i :: 0 <= i < |inputs| && inputZero[i] ==> inputs[i] == ops.silence
      requires coeff.Partitions? ==> 0 < |coeff.blocks| <= nBlocks
      modifies this`procBlocks, this`history, cbuf, cbufZero
      ensures Buffers() && Stored(ops, cbuf[..], history, blockCounter, procBlocks, powersave, nBlocks)
      ensures var d := ClampDelay(delayBlocks, nBlocks);
              && parts == UsedParts(ops, coeff, d, nBlocks)
              && history == old(history) + [Block(ops.mix(inputs, scales), d, parts)]
    {
      ghost var proc, ring := procBlocks, cbuf[..];
      if procBlocks < nBlocks {
        procBlocks := procBlocks + 1;
      }
      var d := ClampDelay(delayBlocks, nBlocks);
      parts := UsedParts(ops, coeff, d, nBlocks);
      var slot := StoreSlot(d);
      StoreFrame(slot, inputs, inputZero, scales);
      ghost var b := Block(ops.mix(inputs, scales), d, parts);
      StoreStep(ops, ring, history, b, slot, blockCounter, proc, powersave, nBlocks);
      history := history + [b];
    }

    /** Adds partitions 1, 2, ... to the product of partition 0, skipping slots flagged silent. */
    method AddPartitions(parts: seq<T>, ghost frames: seq<T>)
      requires Buffers()
      requires 0 < |frames| == if |parts| < procBlocks then |parts| else procBlocks
      requires Reads(frames)
      requires ocbuf == ops.PartSum(frames, parts, 1)
      requires ocbufZero ==> frames[0] == ops.silence
      modifies this`ocbuf, this`ocbufZero
      ensures Buffers()
      ensures ocbuf == ops.PartSum(frames, parts, |frames|)
      ensures ocbufZero ==> ops.AllSilent(frames)
    {
      var i := 1;
      while i < |parts| && i < procBlocks
        invariant 1 <= i <= |frames|
        invariant Buffers()
        invariant ocbuf == ops.PartSum(frames, parts, i)
        invariant ocbufZero ==> forall k :: 0 <= k < i ==> frames[k] == ops.silence
      {
        var j := Slot(i);
        if !cbufZero[j] || !powersave {
          ocbuf := ops.add(ocbuf, ops.convolve(cbuf[j], parts[i]));
          ocbufZero := false;
        }
        i := i + 1;
      }
    }

    method Convolve(coeff: Coeff<T>, parts: seq<T>, ghost frames: seq<T>)
      requires Buffers() && 0 < |parts| <= nBlocks
      requires coeff.Dirac? ==> |parts| == 1
      requires 0 < |frames| == if |parts| < procBlocks then |parts| else procBlocks
      requires Reads(frames)
      modifies this`ocbuf, this`ocbufZero, this`procBlocks, cbuf
      ensures Buffers()
      ensures nBlocks > 1 ==> cbuf[..] == old(cbuf[..])
      ensures ocbuf == ops.PartSum(frames, parts, |frames|)
      ensures procBlocks != old(procBlocks) ==> procBlocks == 0 && powersave && ops.AllSilent(frames)
    {
      var cur := Slot(0);
      assert frames[0] == cbuf[cur];
      if nBlocks == 1 {
        assert cur == 0;
        // cbuf and ocbuf are the same buffer when there is a single block
        if !cbufZero[0] || !powersave {
          cbuf[0] := ops.convolve(cbuf[0], parts[0]);
          ocbuf := cbuf[0];
          ocbufZero := false;
        } else {
          ocbuf := cbuf[0];
          ocbufZero := true;
          procBlocks := 0;
        }
      } else {
        if !cbufZero[cur] || !powersave {
          ocbuf := ops.convolve(cbuf[cur], parts[0]);
          ocbufZero := false;
        } else if !ocbufZero {
          ocbuf := ops.silence;
          ocbufZero := true;
        }
        if coeff.Partitions? {
          AddPartitions(parts, frames);
        }
        if ocbufZero {
          procBlocks := 0;
        }
      }
    }

    /** Convolves the stored block and advances the block counter. */
    method ConvolveStored(coeff: Coeff<T>, parts: seq<T>)
      requires Buffers() && Stored(ops, cbuf[..], history, blockCounter, procBlocks, powersave, nBlocks)
      requires parts == history[|history| - 1].parts
      requires coeff.Dirac? ==> |parts| == 1
      modifies this`ocbuf, this`ocbufZero, this`procBlocks, this`blockCounter, cbuf
      ensures Valid()
      ensures Regular(history, powersave) ==> ocbuf == Expected(ops, history)
    {
      ghost var frames := CurrentFrames(if |parts| < procBlocks then |parts| else procBlocks);
      ghost var proc, ring := procBlocks, cbuf[..];
      Convolve(coeff, parts, frames);
      ConvolveStep(ops, ring, cbuf[..], history, frames, blockCounter, proc, procBlocks, powersave, nBlocks);
      blockCounter := Uint32(blockCounter + 1);
    }

    /** One pass of the per-filter loop body: mix the inputs into the ring, then convolve. */
    method ProcessBlock(inputs: seq<T>, inputZero: seq<bool>, scales: seq<real>, coeff: Coeff<T>, delayBlocks: int)
      requires Valid() && CounterSafe(|history|, nBlocks) && |inputs| == |inputZero|
      requires forall i :: 0 <= i < |inputs| && inputZero[i] ==> inputs[i] == ops.silence
      requires coeff.Partitions? ==> 0 < |coeff.blocks| <= nBlocks
      modifies this, cbuf, cbufZero
      ensures Valid()
      ensures var d := ClampDelay(delayBlocks, nBlocks);
              history == old(history) + [Block(ops.mix(inputs, scales), d, UsedParts(ops, coeff, d, nBlocks))]
      ensures Regular(history, powersave) ==> ocbuf == Expected(ops, history)
    {
      var parts := StoreBlock(inputs, inputZero, scales, coeff, delayBlocks);
      ConvolveStored(coeff, parts);
    }
  }
}
