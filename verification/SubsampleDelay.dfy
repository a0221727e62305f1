/** The subsample delay line: a short FIR that is run over each fragment block by block,
    with one block of input as its only state. */
module SubsampleDelay {
  import Sums
  import opened Convolution
  import opened PartitionedFir
  import opened FilterRun
  import opened Sequences
  import opened PartitionedFilter

  /** The convolver for short filters: transform, multiply, inverse transform. */
  function TdConvolve(taps: Samples, block: nat, overlap: Samples): (y: Samples)
    requires 0 < block && |taps| <= block && |overlap| == 2 * block
    ensures |y| == 2 * block
  {
    FreqToTime(Circ(overlap, CoeffSpectrum(taps, block)))
  }

  /** y is the FIR with the given taps over stream s at positions o, o + 1, ... */
  ghost predicate FirAt(y: Samples, taps: Samples, s: Samples, o: nat) {
    forall i :: 0 <= i < |y| ==> y[i] == Fir(taps, s, o + i)
  }

  /** The FIR only depends on the stream up to the current position. */
  lemma {:induction false} FirCausal(taps: Samples, s: Samples, t: Samples, p: int)
    requires p < |s|
    ensures Fir(taps, s, p) == Fir(taps, s + t, p)
  {
    var f, g := FirTerm(taps, s, p), FirTerm(taps, s + t, p);
    forall k | 0 <= k < |taps|
      ensures f(k) == g(k)
    {
      AtAppend(s, t, p - k);
    }
    Sums.SumEq(|taps|, f, g);
  }

  lemma {:induction false} FirAtExtend(y: Samples, taps: Samples, s: Samples, t: Samples, o: nat)
    requires FirAt(y, taps, s, o) && o + |y| <= |s|
    ensures FirAt(y, taps, s + t, o)
  {
    forall i | 0 <= i < |y|
      ensures y[i] == Fir(taps, s + t, o + i)
    {
      FirCausal(taps, s, t, o + i);
    }
  }

  lemma {:induction false} FirAtAppend(y: Samples, z: Samples, taps: Samples, s: Samples, o: nat)
    requires FirAt(y, taps, s, o) && FirAt(z, taps, s, o + |y|)
    ensures FirAt(y + z, taps, s, o)
  {
    forall i | 0 <= i < |y + z|
      ensures (y + z)[i] == Fir(taps, s, o + i)
    {
      if i >= |y| {
        assert z[i - |y|] == Fir(taps, s, o + |y| + (i - |y|));
      }
    }
  }

  lemma {:induction false} TakeMore(s: Samples, t: Samples, i: nat, n: nat)
    requires |s| == |t| && i + n <= |s| && t[i..] == s[i..]
    ensures s[..i + n] == s[..i] + t[i..i + n] && t[i + n..] == s[i + n..]
  {
    assert t[i..i + n] == t[i..][..n];
    assert t[i + n..] == t[i..][n..] && s[i + n..] == s[i..][n..];
  }

  lemma {:induction false} StoredLow(y: Samples, x: Samples, low: Samples, i: nat)
    requires i + |low| <= |x| && y == x[..i] + low + x[i + |low|..]
    ensures y[..i + |low|] == x[..i] + low && y[i + |low|..] == x[i + |low|..]
  {
  }

  /** The first half of a convolved window of a stream is the FIR at the window's second half. */
  method FilterWindow(taps: Samples, block: nat, overlap: Samples, ghost s: Samples, ghost o: nat)
    returns (low: Samples)
    requires 0 < block && |taps| <= block && overlap == Window(s, o - block, 2 * block)
    ensures |low| == block && FirAt(low, taps, s, o)
  {
    low := TdConvolve(taps, block, overlap)[..block];
    forall m | 0 <= m < block
      ensures low[m] == Fir(taps, s, o + m)
    {
      PartitionFir(taps, block, s, o - block, m);
    }
  }

  /** The bank of filters, one for each subdelay in -steps+1 .. steps-1. */
  class Line {
    const block: nat
    const steps: int
    const bank: map<int, Samples>
    const rest: array<real>
    ghost var stream: Samples

    ghost predicate Valid()
      reads this, rest
    {
      && 0 < block == rest.Length
      && (forall d :: -steps < d < steps ==> d in bank && |bank[d]| <= block)
      && rest[..] == Window(stream, |stream| - block, block)
    }

    constructor (block: nat, steps: int, bank: map<int, Samples>)
      requires 0 < block
      requires forall d :: -steps < d < steps ==> d in bank && |bank[d]| <= block
      ensures Valid() && fresh(rest)
      ensures this.block == block && this.steps == steps && this.bank == bank && stream == []
    {
      this.block, this.steps, this.bank := block, steps, bank;
      rest := new real[block](_ => 0.0);
      stream := [];
    }

    /** Filters one fragment in place; subdelays outside the bank leave it alone. */
    method Update(buf: array<real>, subdelay: int)
      requires Valid() && buf != rest && buf.Length % block == 0
      modifies this, rest, buf
      ensures Valid()
      ensures !(-steps < subdelay < steps) ==> buf[..] == old(buf[..]) && stream == old(stream)
      ensures -steps < subdelay < steps ==>
                stream == old(stream) + old(buf[..]) && FirAt(buf[..], bank[subdelay], stream, |old(stream)|)
    {
      if subdelay <= -steps || subdelay >= steps {
        return;
      }
      ghost var input, before := buf[..], stream;
      var i := 0;
      while i < buf.Length
        invariant 0 <= i <= buf.Length && (buf.Length - i) % block == 0
        invariant Valid() && stream == before + input[..i]
        invariant buf[i..] == input[i..]
        invariant FirAt(buf[..i], bank[subdelay], stream, |before|)
      {
        StepFits(buf.Length - i, block);
        UpdateBlock(buf, i, subdelay, input, before);
        i := i + block;
      }
      assert input[..i] == input;
    }

    /** The block at i of a fragment. */
    method UpdateBlock(buf: array<real>, i: nat, subdelay: int, ghost input: Samples, ghost before: Samples)
      requires Valid() && buf != rest && i + block <= buf.Length == |input| && -steps < subdelay < steps
      requires stream == before + input[..i] && buf[i..] == input[i..]
      requires FirAt(buf[..i], bank[subdelay], stream, |before|)
      modifies this`stream, rest, buf
      ensures Valid() && stream == before + input[..i + block] && buf[i + block..] == input[i + block..]
      ensures FirAt(buf[..i + block], bank[subdelay], stream, |before|)
    {
      ghost var done, current, taps := buf[..i], buf[i..i + block], bank[subdelay];
      TakeMore(input, buf[..], i, block);
      FirAtExtend(done, taps, stream, current, |before|);
      var low := FilterBlock(buf[i..i + block], subdelay);
      FirAtAppend(done, low, taps, stream, |before|);
      ghost var x := buf[..];
      CopyBlock(buf, i, low);
      StoredLow(buf[..], x, low, i);
    }

    /** One block: [rest | block] is convolved, its first half is the output, and the block is the new rest. */
    method FilterBlock(current: Samples, subdelay: int) returns (low: Samples)
      requires Valid() && |current| == block && -steps < subdelay < steps
      modifies this`stream, rest
      ensures Valid()
      ensures stream == old(stream) + current
      ensures |low| == block && FirAt(low, bank[subdelay], stream, |old(stream)|)
    {
      var cbuffer := NextFrame(current);
      low := FilterWindow(bank[subdelay], block, cbuffer, stream, |old(stream)|);
    }

    /** [rest | block], and the block is the new rest. */
    method NextFrame(current: Samples) returns (cbuffer: Samples)
      requires Valid() && |current| == block
      modifies this`stream, rest
      ensures Valid() && stream == old(stream) + current
      ensures cbuffer == Window(stream, |old(stream)| - block, 2 * block)
    {
      cbuffer := rest[..] + current;
      FrameOfHeld(stream, current, block, rest[..], cbuffer);
      CopyAll(rest, current);
      stream := stream + current;
    }
  }

  lemma {:induction false} StepFits(r: nat, block: nat)
    requires 0 < block && 0 < r && r % block == 0
    ensures block <= r && (r - block) % block == 0
  {
    ModShift(r - block, 1, block);
  }

  /** Runs the line over any sequence of fragments: the output is the direct convolution of the whole
      stream, wherever the fragment boundaries are. */
  method RunFragments(fragments: seq<Samples>, block: nat, taps: Samples)
    returns (output: Samples, ghost whole: Samples)
    requires 0 < block && |taps| <= block
    requires forall k :: 0 <= k < |fragments| ==> |fragments[k]| % block == 0
    ensures whole == Flatten(fragments) && |output| == |whole|
    ensures forall i :: 0 <= i < |output| ==> output[i] == Fir(taps, Flatten(fragments), i)
  {
    var line := new Line(block, 1, map[0 := taps]);
    output := [];
    var k := 0;
    while k < |fragments|
      invariant 0 <= k <= |fragments|
      invariant line.Valid() && fresh(line) && fresh(line.rest) && line.block == block && line.steps == 1
      invariant line.bank == map[0 := taps]
      invariant line.stream == Flatten(fragments[..k]) && |output| == |line.stream|
      invariant FirAt(output, taps, line.stream, 0)
    {
      var buf := new real[|fragments[k]|](i requires 0 <= i < |fragments[k]| => fragments[k][i]);
      assert buf[..] == fragments[k];
      ghost var before := line.stream;
      line.Update(buf, 0);
      FirAtExtend(output, taps, before, fragments[k], 0);
      FirAtAppend(output, buf[..], taps, line.stream, 0);
      output := output + buf[..];
      FlattenAppend(fragments[..k], fragments[k]);
      assert fragments[..k + 1] == fragments[..k] + [fragments[k]];
      k := k + 1;
    }
    assert fragments[..k] == fragments;
    whole := line.stream;
  }
}
