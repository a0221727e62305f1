/** Filters in series: the evaluation buffer that turns the output of one filter into input frames of the next. */
module Cascade {
  import opened Sums
  import opened Division
  import opened Convolution
  import opened PartitionedFilter
  import opened PartitionedFir
  import opened FilterRun

  /** The newest block of an upstream mix: the first half of its time-domain form. */
  function UpstreamBlock(upstream: seq<Samples>, fscales: seq<real>, L: nat): (block: Samples)
    ensures |block| == L
  {
    FreqToTime(Mix(upstream, fscales, 2 * L))[..L]
  }

  /** The static buffer that mixing and evaluation share, for all filters. */
  class Scratch {
    const partLen: nat
    const powersave: bool
    var temp: Samples
    var tempZero: bool

    ghost predicate Valid()
      reads this
    {
      partLen > 0 && |temp| == 2 * partLen && (tempZero ==> powersave && temp == Zeros(2 * partLen))
    }

    constructor (partLen: nat, powersave: bool)
      requires partLen > 0
      ensures Valid() && this.partLen == partLen && this.powersave == powersave
    {
      this.partLen, this.powersave := partLen, powersave;
      temp, tempZero := Zeros(2 * partLen), false;
    }

    /** Mixes the outputs of upstream filters, or notes that they are all silent. */
    method MixUpstream(upstream: seq<Samples>, upstreamZero: seq<bool>, fscales: seq<real>)
      requires Valid() && TruthfulFlags(upstream, upstreamZero, partLen)
      modifies this
      ensures Valid()
      ensures temp == Mix(upstream, fscales, 2 * partLen)
    {
      var len := 2 * partLen;
      var isZero := forall i :: 0 <= i < |upstream| ==> upstreamZero[i];
      if isZero {
        MixSilent(upstream, fscales, len);
      }
      if !isZero || !powersave {
        temp := Mix(upstream, fscales, len);
        tempZero := false;
      } else if !tempZero {
        temp := Zeros(len);
        tempZero := true;
      }
    }
  }

  /** evalbuf holds one and a half convolver buffers. */
  class EvalBuffer {
    const partLen: nat
    const powersave: bool
    const evalbuf: array<real>
    var evalbufZero: bool
    ghost var stream: Samples

    ghost predicate Valid()
      reads this, evalbuf
    {
      && partLen > 0 && evalbuf.Length == 3 * partLen
      && evalbuf[..partLen] == Window(stream, |stream| - partLen, partLen)
      && (evalbufZero ==> powersave && evalbuf[..partLen] == Zeros(partLen))
    }

    ghost predicate Fits(s: Scratch)
      reads s
    {
      s.Valid() && s.partLen == partLen && s.powersave == powersave
    }

    constructor (partLen: nat, powersave: bool)
      requires partLen > 0
      ensures Valid() && fresh(evalbuf)
      ensures this.partLen == partLen && this.powersave == powersave && stream == []
    {
      this.partLen, this.powersave := partLen, powersave;
      evalbuf := new real[3 * partLen](_ => 0.0);
      evalbufZero := false;
      stream := [];
    }

    /** Inverse transform into the upper two thirds, forward transform of the lower two thirds, then shift. */
    method ConvolveEval(input: Samples) returns (output: Samples)
      requires Valid() && |input| == 2 * partLen
      modifies evalbuf
      ensures output == old(evalbuf[..partLen]) + FreqToTime(input)[..partLen]
      ensures evalbuf[..partLen] == FreqToTime(input)[..partLen]
    {
      var time := FreqToTime(input);
      CopyBlock(evalbuf, partLen, time);
      assert evalbuf[..2 * partLen] == old(evalbuf[..partLen]) + time[..partLen];
      output := evalbuf[..2 * partLen];
      assert evalbuf[partLen..2 * partLen] == time[..partLen];
      CopyBlock(evalbuf, 0, evalbuf[partLen..2 * partLen]);
    }

    /** Mixes the outputs of upstream filters and presents them as the frame [previous | current]. */
    method Evaluate(s: Scratch, upstream: seq<Samples>, upstreamZero: seq<bool>, fscales: seq<real>)
      requires Valid() && Fits(s) && TruthfulFlags(upstream, upstreamZero, partLen)
      modifies this, evalbuf, s
      ensures Valid() && Fits(s)
      ensures stream == old(stream) + UpstreamBlock(upstream, fscales, partLen)
      ensures s.temp == Window(stream, |old(stream)| - partLen, 2 * partLen)
    {
      ghost var block := UpstreamBlock(upstream, fscales, partLen);
      s.MixUpstream(upstream, upstreamZero, fscales);
      Present(s, block);
    }

    /** temp becomes the frame [previous | current]; silence after silence is a silent frame. */
    method Present(s: Scratch, ghost block: Samples)
      requires Valid() && Fits(s) && block == FreqToTime(s.temp)[..partLen]
      modifies s, this`evalbufZero, this`stream, evalbuf
      ensures Valid() && Fits(s)
      ensures stream == old(stream) + block
      ensures s.temp == Window(stream, |old(stream)| - partLen, 2 * partLen)
    {
      FrameOfHeld(stream, block, partLen, evalbuf[..partLen], evalbuf[..partLen] + block);
      if !s.tempZero || !evalbufZero || !powersave {
        var frame := ConvolveEval(s.temp);
        s.temp := frame;
        evalbufZero := false;
        if s.tempZero {
          evalbufZero := true;
          s.tempZero := false;
        }
      } else {
        assert block == Zeros(partLen);
        assert s.temp == Zeros(partLen) + Zeros(partLen);
      }
      stream := stream + block;
    }
  }

  // ----- blocks of whole streams -----

  /** Block t of a stream. */
  function BlockAt(s: Samples, t: nat, L: nat): Samples
    requires t * L + L <= |s|
  {
    s[t * L..t * L + L]
  }

  /** Sample p of the direct-form output of a stage over a whole stream, p = t*L + m. */
  function StageSample(mixed: Samples, st: Stage, nBlocks: nat, L: nat, p: nat): real
    requires L > 0 && nBlocks > 0 && p / L < |st.choices|
  {
    RunSample(mixed, st.choices, ClampDelay(st.delay, nBlocks), nBlocks, L, p / L, p % L)
  }

  lemma {:induction false} PositionBelow(p: nat, blocks: nat, L: nat)
    requires L > 0 && p < blocks * L
    ensures p / L < blocks
  {
    var q, r := p / L, p % L;
    assert p == L * q + r && L * blocks == blocks * L;
    if q > blocks {
      MulGap(L, blocks, q);
    }
  }

  /** The direct-form output of a stage over a whole stream. */
  function StageOutput(mixed: Samples, st: Stage, nBlocks: nat, L: nat): (y: Samples)
    requires L > 0 && nBlocks > 0
    ensures |y| == |st.choices| * L
  {
    seq(|st.choices| * L, p requires 0 <= p < |st.choices| * L =>
      PositionBelow(p, |st.choices|, L);
      StageSample(mixed, st, nBlocks, L, p))
  }

  lemma {:induction false} DelayedPosition(p: nat, d: nat, L: nat)
    requires L > 0
    ensures (p / L - d) * L + p % L == p - d * L
  {
    assert p == L * (p / L) + p % L;
    assert (p / L - d) * L == (p / L) * L - d * L;
  }

  /** The FIR of a stream with the taps that sample p's block has chosen, at the place that the pre-delay gives. */
  function DelayedFir(mixed: Samples, st: Stage, nBlocks: nat, L: nat, p: nat): real
    requires L > 0 && nBlocks > 0
  {
    if p / L < |st.choices| then
      var c, d := st.choices[p / L], ClampDelay(st.delay, nBlocks);
      FirOf(EffectiveBlocks(c, d, nBlocks) * L, EffectiveTaps(c), mixed, p - d * L)
    else 0.0
  }

  lemma {:induction false} StageOutputAt(mixed: Samples, st: Stage, nBlocks: nat, L: nat, p: nat)
    requires L > 0 && nBlocks > 0 && p < |st.choices| * L
    ensures StageOutput(mixed, st, nBlocks, L)[p] == DelayedFir(mixed, st, nBlocks, L, p)
  {
    PositionBelow(p, |st.choices|, L);
    DelayedPosition(p, ClampDelay(st.delay, nBlocks), L);
  }

  lemma {:induction false} PositionInBlock(t: nat, m: nat, L: nat)
    requires m < L
    ensures (t * L + m) / L == t && (t * L + m) % L == m
  {
    assert t * L == L * t;
    RemainderOf(t * L + m, t, m, L);
  }

  lemma {:induction false} BlockOfStage(block: Samples, mixed: Samples, st: Stage, nBlocks: nat, L: nat, t: nat)
    requires L > 0 && nBlocks > 0 && t < |st.choices| && IsStageBlock(block, mixed, st, nBlocks, L, t)
    ensures t * L + L <= |st.choices| * L
    ensures block == BlockAt(StageOutput(mixed, st, nBlocks, L), t, L)
  {
    BlockFits(t, |st.choices|, L);
    var y := StageOutput(mixed, st, nBlocks, L);
    forall m | 0 <= m < L
      ensures block[m] == y[t * L + m]
    {
      PositionInBlock(t, m, L);
    }
  }

  /** The outputs of upstream filters hold block t of the streams `outs`. */
  ghost predicate HoldBlocks(bufs: seq<Samples>, outs: seq<Samples>, t: nat, L: nat) {
    && |bufs| == |outs|
    && forall k :: 0 <= k < |bufs| ==>
         |bufs[k]| == 2 * L && t * L + L <= |outs[k]| && FreqToTime(bufs[k])[..L] == BlockAt(outs[k], t, L)
  }

  lemma {:induction false} HeldSample(buf: Samples, out: Samples, t: nat, L: nat, m: nat, p: nat)
    requires m < L && |buf| == 2 * L && t * L + L <= |out| && FreqToTime(buf)[..L] == BlockAt(out, t, L)
    requires p == t * L + m
    ensures At(out, p) == |buf| as real * At(buf, m)
  {
    assert FreqToTime(buf)[..L][m] == BlockAt(out, t, L)[m];
  }

  lemma {:induction false} ScaledTerm(n: real, x: real, a: real, y: real)
    requires y == n * x
    ensures y * a == n * (x * a)
  {
  }

  lemma {:induction false} HoldEach(bufs: seq<Samples>, outs: seq<Samples>, t: nat, L: nat)
    requires |bufs| == |outs| && forall k :: 0 <= k < |bufs| ==> HoldBlocks([bufs[k]], [outs[k]], t, L)
    ensures HoldBlocks(bufs, outs, t, L)
  {
    forall k | 0 <= k < |bufs|
      ensures |bufs[k]| == 2 * L && t * L + L <= |outs[k]| && FreqToTime(bufs[k])[..L] == BlockAt(outs[k], t, L)
    {
      assert HoldBlocks([bufs[k]], [outs[k]], t, L);
      assert [bufs[k]][0] == bufs[k] && [outs[k]][0] == outs[k];
    }
  }

  /** Sample p of the streams is n times sample m of the buffers. */
  ghost predicate TimesBuffers(bufs: seq<Samples>, outs: seq<Samples>, m: int, p: int, n: real) {
    |bufs| == |outs| && forall k :: 0 <= k < |bufs| ==> At(outs[k], p) == n * At(bufs[k], m)
  }

  lemma {:induction false} HeldTimes(bufs: seq<Samples>, outs: seq<Samples>, t: nat, L: nat, m: nat, p: nat, n: real)
    requires m < L && HoldBlocks(bufs, outs, t, L) && p == t * L + m && n == (2 * L) as real
    ensures TimesBuffers(bufs, outs, m, p, n)
  {
    forall k | 0 <= k < |bufs|
      ensures At(outs[k], p) == n * At(bufs[k], m)
    {
      HeldSample(bufs[k], outs[k], t, L, m, p);
    }
  }

  lemma {:induction false} MixTimes(bufs: seq<Samples>, outs: seq<Samples>, fscales: seq<real>, m: int, p: int, n: real)
    requires TimesBuffers(bufs, outs, m, p, n)
    ensures Sum(|outs|, MixTerm(outs, fscales, p)) == n * Sum(|bufs|, MixTerm(bufs, fscales, m))
  {
    var f, g := MixTerm(bufs, fscales, m), MixTerm(outs, fscales, p);
    forall k | 0 <= k < |bufs|
      ensures g(k) == n * f(k)
    {
      ScaledTerm(n, At(bufs[k], m), At(fscales, k), At(outs[k], p));
    }
    SumScale(|bufs|, n, f, g);
  }

  /** Mixing the buffers of upstream filters gives the block of the mixed streams. */
  lemma {:induction false} UpstreamIs(bufs: seq<Samples>, outs: seq<Samples>, fscales: seq<real>, t: nat, L: nat,
                                      len: nat)
    requires HoldBlocks(bufs, outs, t, L) && t * L + L <= len
    ensures UpstreamBlock(bufs, fscales, L) == BlockAt(Mix(outs, fscales, len), t, L)
  {
    var x, y, n := UpstreamBlock(bufs, fscales, L), BlockAt(Mix(outs, fscales, len), t, L), (2 * L) as real;
    forall m | 0 <= m < L
      ensures x[m] == y[m]
    {
      HeldTimes(bufs, outs, t, L, m, t * L + m, n);
      MixTimes(bufs, outs, fscales, m, t * L + m, n);
      UpstreamAt(bufs, outs, fscales, t, L, len, m, n);
    }
  }

  lemma {:induction false} UpstreamAt(bufs: seq<Samples>, outs: seq<Samples>, fscales: seq<real>, t: nat, L: nat,
                                      len: nat, m: nat, n: real)
    requires t * L + L <= len && m < L && n == (2 * L) as real
    requires Sum(|outs|, MixTerm(outs, fscales, t * L + m)) == n * Sum(|bufs|, MixTerm(bufs, fscales, m))
    ensures UpstreamBlock(bufs, fscales, L)[m] == BlockAt(Mix(outs, fscales, len), t, L)[m]
  {
    UpstreamBlockAt(bufs, fscales, L, m, n);
    BlockOfMix(outs, fscales, t, L, len, m);
  }

  lemma {:induction false} UpstreamBlockAt(bufs: seq<Samples>, fscales: seq<real>, L: nat, m: nat, n: real)
    requires m < L && n == (2 * L) as real
    ensures UpstreamBlock(bufs, fscales, L)[m] == n * Sum(|bufs|, MixTerm(bufs, fscales, m))
  {
  }

  lemma {:induction false} BlockOfMix(outs: seq<Samples>, fscales: seq<real>, t: nat, L: nat, len: nat, m: nat)
    requires m < L && t * L + L <= len
    ensures BlockAt(Mix(outs, fscales, len), t, L)[m] == Sum(|outs|, MixTerm(outs, fscales, t * L + m))
  {
  }

  /** The frame that the evaluation buffer presents is the window of the mix of the whole upstream outputs. */
  method EvalBlock(eval: EvalBuffer, s: Scratch, bufs: seq<Samples>, bufsZero: seq<bool>, fscales: seq<real>,
                   ghost outs: seq<Samples>, ghost mixed: Samples, L: nat, t: nat)
    requires eval.Valid() && eval.Fits(s) && eval.partLen == L
    requires HoldBlocks(bufs, outs, t, L) && TruthfulFlags(bufs, bufsZero, L)
    requires t * L + L <= |mixed| && mixed == Mix(outs, fscales, |mixed|) && eval.stream == mixed[..t * L]
    modifies eval, eval.evalbuf, s
    ensures eval.Valid() && eval.Fits(s) && eval.stream == mixed[..t * L + L]
    ensures s.temp == Window(mixed, t * L - L, 2 * L)
  {
    UpstreamIs(bufs, outs, fscales, t, L, |mixed|);
    eval.Evaluate(s, bufs, bufsZero, fscales);
    assert mixed[..t * L] + BlockAt(mixed, t, L) == mixed[..t * L + L];
    WindowOfPrefix(eval.stream, mixed, t * L - L, 2 * L);
  }
}
