/** Conversion of a whole channel between a strided byte buffer and real samples. */
module PcmStream {
  import opened Stride
  import opened Quantiser
  import opened Pcm
  import opened Sequences

  /** Samples stand `step` bytes apart and take `width` bytes. */
  ghost predicate SlotsFit(length: int, at: int, step: int, width: int, n: int) {
    0 <= at && 0 < width <= step && 0 <= n && (n > 0 ==> Pos(at, step, n - 1) + width <= length)
  }

  lemma {:induction false} SlotFits(length: int, at: int, step: int, width: int, n: int, k: int)
    requires SlotsFit(length, at, step, width, n) && 0 <= k < n
    ensures 0 <= at <= Pos(at, step, k) && Pos(at, step, k) + width <= length
  {
    PosFrom(at, step, k);
    if k < n - 1 {
      PosBelow(at, step, k, n - 1);
    }
  }

  ghost predicate InSlot(p: int, at: int, step: int, width: int, k: int) {
    Pos(at, step, k) <= p < Pos(at, step, k) + width
  }

  ghost predicate InSomeSlot(p: int, at: int, step: int, width: int, n: int) {
    exists k {:trigger Pos(at, step, k)} :: 0 <= k < n && InSlot(p, at, step, width, k)
  }

  lemma {:induction false} SomeSlot(p: int, at: int, step: int, width: int, n: int, k: int)
    requires 0 <= k < n && InSlot(p, at, step, width, k)
    ensures InSomeSlot(p, at, step, width, n)
  {
    assert Pos(at, step, k) <= p;
  }

  /** Slots do not overlap. */
  lemma {:induction false} SlotsApart(p: int, at: int, step: int, width: int, j: int, k: int)
    requires 0 < width <= step && InSlot(p, at, step, width, j) && InSlot(p, at, step, width, k)
    ensures j == k
  {
    if j < k {
      PosBelow(at, step, j, k);
    } else if k < j {
      PosBelow(at, step, k, j);
    }
  }

  ghost function Slot(x: seq<Byte>, at: int, step: int, width: int, n: int, k: int): (bs: seq<Byte>)
    requires SlotsFit(|x|, at, step, width, n) && 0 <= k < n
    ensures |bs| == width
  {
    SlotFits(|x|, at, step, width, n, k);
    x[Pos(at, step, k)..Pos(at, step, k) + width]
  }

  /** The samples of n slots. */
  ghost predicate HoldSamples(samples: seq<real>, x: seq<Byte>, at: int, step: int, f: Format, n: nat)
    requires f.Valid() && SlotsFit(|x|, at, step, f.bytes, n)
  {
    |samples| == n && forall k :: 0 <= k < n ==> samples[k] == Decode(Slot(x, at, step, f.bytes, n, k), f.swap) as real
  }

  method ReadSlots(raw: array<Byte>, at: nat, f: Format, step: nat, n: nat) returns (samples: seq<real>)
    requires f.Valid() && SlotsFit(raw.Length, at, step, f.bytes, n)
    ensures HoldSamples(samples, raw[..], at, step, f, n)
  {
    samples := [];
    PosStep(at, step, 0);
    var k, i := 0, at;
    while k < n
      invariant 0 <= k == |samples| <= n && i == Pos(at, step, k)
      invariant forall j :: 0 <= j < k ==> samples[j] == Decode(Slot(raw[..], at, step, f.bytes, n, j), f.swap) as real
    {
      SlotFits(raw.Length, at, step, f.bytes, n, k);
      var v := ReadSample(raw, i, f);
      assert raw[i..i + f.bytes] == Slot(raw[..], at, step, f.bytes, n, k);
      samples := samples + [v as real];
      PosStep(at, step, k);
      k, i := k + 1, i + step;
    }
  }

  /** Every sample of a channel, decoded. */
  method Raw2Real(raw: array<Byte>, at: nat, f: Format, spacing: nat, n: nat) returns (samples: seq<real>)
    requires f.Valid() && 0 < spacing && SlotsFit(raw.Length, at, spacing * f.bytes, f.bytes, n)
    ensures HoldSamples(samples, raw[..], at, spacing * f.bytes, f, n)
  {
    samples := ReadSlots(raw, at, f, spacing * f.bytes, n);
  }

  ghost predicate SlotHolds(y: seq<Byte>, from: int, bs: seq<Byte>) {
    0 <= from && from + |bs| <= |y| && y[from..from + |bs|] == bs
  }

  /** Slots below n hold the encoded samples; bytes outside them are as in x. */
  ghost predicate Written(y: seq<Byte>, x: seq<Byte>, at: int, step: int, width: int, n: int, values: seq<seq<Byte>>) {
    && |y| == |x| && |values| == n && SlotsFit(|x|, at, step, width, n)
    && (forall k :: 0 <= k < n ==> |values[k]| == width)
    && (forall k {:trigger Pos(at, step, k)} :: 0 <= k < n ==> SlotHolds(y, Pos(at, step, k), values[k]))
    && (forall p :: 0 <= p < |x| && !InSomeSlot(p, at, step, width, n) ==> y[p] == x[p])
  }

  /** Storing the bytes of one sample. */
  method Store(raw: array<Byte>, i: nat, bs: seq<Byte>)
    requires i + |bs| <= raw.Length
    modifies raw
    ensures raw[..] == old(raw[..i]) + bs + old(raw[i + |bs|..])
  {
    ghost var x := raw[..];
    var b := 0;
    while b < |bs|
      invariant 0 <= b <= |bs|
      invariant forall p :: 0 <= p < raw.Length ==> raw[p] == if i <= p < i + b then bs[p - i] else x[p]
    {
      raw[i + b] := bs[b];
      b := b + 1;
    }
  }

  lemma {:induction false} WrittenMore(z: seq<Byte>, y: seq<Byte>, x: seq<Byte>, at: int, step: int, width: int,
                                       values: seq<seq<Byte>>, bs: seq<Byte>)
    requires Written(y, x, at, step, width, |values|, values) && |bs| == width
    requires SlotsFit(|x|, at, step, width, |values| + 1)
    requires SlotHolds(z, Pos(at, step, |values|), bs) && |z| == |y|
    requires forall p :: 0 <= p < |z| && !InSlot(p, at, step, width, |values|) ==> z[p] == y[p]
    ensures Written(z, x, at, step, width, |values| + 1, values + [bs])
  {
    var n, vs := |values|, values + [bs];
    forall k {:trigger Pos(at, step, k)} | 0 <= k < n + 1
      ensures SlotHolds(z, Pos(at, step, k), vs[k])
    {
      SlotFits(|x|, at, step, width, n + 1, k);
      if k < n {
        var from := Pos(at, step, k);
        assert SlotHolds(y, from, values[k]);
        forall p | from <= p < from + width
          ensures z[p] == y[p]
        {
          if InSlot(p, at, step, width, n) {
            SlotsApart(p, at, step, width, k, n);
          }
        }
        assert z[from..from + width] == y[from..from + width];
      }
    }
    forall p | 0 <= p < |x| && !InSomeSlot(p, at, step, width, n + 1)
      ensures z[p] == x[p]
    {
      if InSlot(p, at, step, width, n) {
        SomeSlot(p, at, step, width, n + 1, n);
      }
      if InSomeSlot(p, at, step, width, n) {
        var k :| 0 <= k < n && InSlot(p, at, step, width, k);
        SomeSlot(p, at, step, width, n + 1, k);
      }
    }
  }

  function Encoded(samples: seq<real>, f: Format): (values: seq<seq<Byte>>)
    requires 2 <= f.bits
    ensures |values| == |samples|
    ensures forall k :: 0 <= k < |samples| ==>
      values[k] == Encode(Rounded(f.SampleRange(), samples[k]), f.bytes, f.swap)
  {
    seq(|samples|, k requires 0 <= k < |samples| => Encode(Rounded(f.SampleRange(), samples[k]), f.bytes, f.swap))
  }

  /** Samples further than half a step from the range. */
  function Saturated(r: Range, samples: seq<real>): nat {
    Count(samples, x => Beyond(r, x))
  }

  /** Samples that are rounded properly, at the edges of the range where the comparison counts an overflow. */
  function Edges(r: Range, samples: seq<real>): nat {
    Count(samples, x => AtEdge(r, x))
  }

  /** What the overflow counter grows by. */
  function Overflows(r: Range, samples: seq<real>): nat {
    Count(samples, x => Clips(r, x + 0.5))
  }

  lemma {:induction false} OverflowsMore(r: Range, samples: seq<real>, x: real)
    ensures Overflows(r, samples + [x]) == Overflows(r, samples) + if Clips(r, x + 0.5) then 1 else 0
  {
    CountAppend(samples, x => Clips(r, x + 0.5), x);
  }

  /** The overflow counter grows by the saturated samples and by those at the edges. It is the number of saturated
      samples if and only if there are none at the edges. */
  lemma {:induction false} OverflowsAre(r: Range, samples: seq<real>)
    requires r.Valid()
    ensures Overflows(r, samples) == Saturated(r, samples) + Edges(r, samples)
    ensures Overflows(r, samples) == Saturated(r, samples)
       <==> forall k :: 0 <= k < |samples| ==> !AtEdge(r, samples[k])
  {
    OverflowsSplit(r, samples);
    CountNone(samples, x => AtEdge(r, x));
  }

  lemma {:induction false} OverflowsSplit(r: Range, samples: seq<real>)
    requires r.Valid()
    ensures Overflows(r, samples) == Saturated(r, samples) + Edges(r, samples)
  {
    if |samples| > 0 {
      OverflowsSplit(r, samples[..|samples| - 1]);
      OverflowCounted(r, samples[|samples| - 1]);
    }
  }

  lemma {:induction false} RangeValid(f: Format)
    requires f.Valid()
    ensures f.SampleRange().Valid()
  {
    assert Pow2(f.bits - 1) == 2 * Pow2(f.bits - 2);
  }

  /** The range of the significant bits is within that of the bytes. */
  lemma {:induction false} RangeIs(f: Format)
    requires f.Valid()
    ensures 2 * f.SampleRange().imin == 0 - Pow2(f.bits) && 2 * f.SampleRange().imax == Pow2(f.bits) - 2
    ensures Pow2(f.bits) <= Modulus(f.bytes)
  {
    PowersOfTwo(f.bits - 1);
    PowersOfTwo(f.bytes);
    Pow2Grows(f.bits, 8 * f.bytes);
  }

  /** Of m numbers around zero, v is within half a step of x; if there is none, v is the first or the last of them. */
  ghost predicate Nearest(v: int, x: real, m: int) {
    && ((0 - m - 1) as real <= 2.0 * x <= (m - 1) as real ==> -0.5 <= x - v as real <= 0.5)
    && (2.0 * x < (0 - m - 1) as real ==> 2 * v == 0 - m)
    && (2.0 * x > (m - 1) as real ==> 2 * v == m - 2)
  }

  /** What is read back from a stored sample. */
  lemma {:induction false} ReadBack(f: Format, x: real)
    requires f.Valid()
    ensures Nearest(Decode(Encode(Rounded(f.SampleRange(), x), f.bytes, f.swap), f.swap), x, Pow2(f.bits))
  {
    RangeIs(f);
    RangeValid(f);
    RoundedNear(f.SampleRange(), x);
    DecodeEncode(Rounded(f.SampleRange(), x), f.bytes, f.swap);
  }

  /** The slots of a buffer read back as the samples. */
  ghost predicate SlotsNearest(y: seq<Byte>, at: int, f: Format, step: int, samples: seq<real>)
    requires f.Valid() && SlotsFit(|y|, at, step, f.bytes, |samples|)
  {
    forall k {:trigger samples[k]} :: 0 <= k < |samples| ==>
      Nearest(Decode(Slot(y, at, step, f.bytes, |samples|, k), f.swap), samples[k], Pow2(f.bits))
  }

  lemma {:induction false} SlotsReadBack(y: seq<Byte>, x: seq<Byte>, at: int, f: Format, step: int, samples: seq<real>)
    requires f.Valid() && Written(y, x, at, step, f.bytes, |samples|, Encoded(samples, f))
    ensures SlotsNearest(y, at, f, step, samples)
  {
    forall k | 0 <= k < |samples|
      ensures Nearest(Decode(Slot(y, at, step, f.bytes, |samples|, k), f.swap), samples[k], Pow2(f.bits))
    {
      assert SlotHolds(y, Pos(at, step, k), Encoded(samples, f)[k]);
      assert Slot(y, at, step, f.bytes, |samples|, k) == Encoded(samples, f)[k];
      ReadBack(f, samples[k]);
    }
  }

  method StoreSample(raw: array<Byte>, at: nat, f: Format, step: nat, i: nat, samples: seq<real>, k: nat,
                     overflow: Overflow, ghost x: seq<Byte>, ghost start: nat)
    returns (after: Overflow)
    requires f.Valid() && k < |samples| && SlotsFit(|x|, at, step, f.bytes, |samples|) && i == Pos(at, step, k)
    requires Written(raw[..], x, at, step, f.bytes, k, Encoded(samples[..k], f))
    requires overflow.count == start + Overflows(f.SampleRange(), samples[..k])
    modifies raw
    ensures Written(raw[..], x, at, step, f.bytes, k + 1, Encoded(samples[..k + 1], f))
    ensures after.count == start + Overflows(f.SampleRange(), samples[..k + 1])
  {
    ghost var y := raw[..];
    RangeValid(f);
    OverflowsMore(f.SampleRange(), samples[..k], samples[k]);
    assert samples[..k + 1] == samples[..k] + [samples[k]];
    SlotFits(|x|, at, step, f.bytes, |samples|, k);
    var v;
    v, after := Real2IntNoDither(f.SampleRange(), samples[k], overflow);
    var bs := SampleBytes(v, f);
    Store(raw, i, bs);
    FewerSlots(|x|, at, step, f.bytes, |samples|, k + 1);
    StoredSlot(raw[..], y, i, bs);
    WrittenMore(raw[..], y, x, at, step, f.bytes, Encoded(samples[..k], f), bs);
    assert Encoded(samples[..k + 1], f) == Encoded(samples[..k], f) + [bs];
  }

  lemma {:induction false} StoredSlot(z: seq<Byte>, y: seq<Byte>, i: nat, bs: seq<Byte>)
    requires i + |bs| <= |y| && z == y[..i] + bs + y[i + |bs|..]
    ensures SlotHolds(z, i, bs) && |z| == |y|
    ensures forall p :: 0 <= p < |z| && !(i <= p < i + |bs|) ==> z[p] == y[p]
  {
  }

  lemma {:induction false} FewerSlots(length: int, at: int, step: int, width: int, n: int, m: int)
    requires SlotsFit(length, at, step, width, n) && 0 <= m <= n
    ensures SlotsFit(length, at, step, width, m)
  {
    if m > 0 {
      SlotFits(length, at, step, width, n, m - 1);
    }
  }

  method WriteSlots(raw: array<Byte>, at: nat, f: Format, step: nat, samples: seq<real>, overflow: Overflow)
    returns (after: Overflow)
    requires f.Valid() && SlotsFit(raw.Length, at, step, f.bytes, |samples|)
    modifies raw
    ensures Written(raw[..], old(raw[..]), at, step, f.bytes, |samples|, Encoded(samples, f))
    ensures after.count == overflow.count + Overflows(f.SampleRange(), samples)
  {
    ghost var x := raw[..];
    after := overflow;
    PosStep(at, step, 0);
    FewerSlots(raw.Length, at, step, f.bytes, |samples|, 0);
    var k, i := 0, at;
    while k < |samples|
      invariant 0 <= k <= |samples| && i == Pos(at, step, k)
      invariant Written(raw[..], x, at, step, f.bytes, k, Encoded(samples[..k], f))
      invariant after.count == overflow.count + Overflows(f.SampleRange(), samples[..k])
    {
      after := StoreSample(raw, at, f, step, i, samples, k, after, x, overflow.count);
      PosStep(at, step, k);
      k, i := k + 1, i + step;
    }
    assert samples[..k] == samples;
  }

  /** Every slot gets the encoding of its rounded sample, every other byte is kept, and the overflow count
      grows by the number of saturated samples and of samples at the edges of the range. */
  method Real2Raw(raw: array<Byte>, at: nat, f: Format, spacing: nat, samples: seq<real>, overflow: Overflow)
    returns (after: Overflow)
    requires f.Valid() && 0 < spacing && SlotsFit(raw.Length, at, spacing * f.bytes, f.bytes, |samples|)
    modifies raw
    ensures Written(raw[..], old(raw[..]), at, spacing * f.bytes, f.bytes, |samples|, Encoded(samples, f))
    ensures SlotsNearest(raw[..], at, f, spacing * f.bytes, samples)
    ensures after.count == overflow.count + Saturated(f.SampleRange(), samples) + Edges(f.SampleRange(), samples)
  {
    ghost var x := raw[..];
    after := WriteSlots(raw, at, f, spacing * f.bytes, samples, overflow);
    SlotsReadBack(raw[..], x, at, f, spacing * f.bytes, samples);
    RangeValid(f);
    OverflowsAre(f.SampleRange(), samples);
  }

  // ----- the round trip -----

  ghost predicate InRange(f: Format, v: int)
    requires 2 <= f.bits
  {
    f.SampleRange().imin <= v <= f.SampleRange().imax
  }

  ghost predicate AllInRange(x: seq<Byte>, at: int, f: Format, step: int, n: int)
    requires f.Valid() && SlotsFit(|x|, at, step, f.bytes, n)
  {
    forall k {:trigger Slot(x, at, step, f.bytes, n, k)} :: 0 <= k < n ==>
      InRange(f, Decode(Slot(x, at, step, f.bytes, n, k), f.swap))
  }

  lemma {:induction false} SlotRestored(x: seq<Byte>, at: int, f: Format, step: int, n: int, k: int)
    requires f.Valid() && SlotsFit(|x|, at, step, f.bytes, n) && 0 <= k < n && AllInRange(x, at, f, step, n)
    ensures var bs := Slot(x, at, step, f.bytes, n, k);
      Encode(Rounded(f.SampleRange(), Decode(bs, f.swap) as real), f.bytes, f.swap) == bs
  {
    var bs := Slot(x, at, step, f.bytes, n, k);
    RangeValid(f);
    RoundedInteger(f.SampleRange(), Decode(bs, f.swap));
    EncodeDecode(bs, f.swap);
  }

  /** Samples at the upper end of the range. */
  function AtTop(r: Range, samples: seq<real>): nat {
    Count(samples, x => x == r.imax as real)
  }

  ghost predicate IntegerInRange(r: Range, x: real) {
    x == x.Floor as real && r.imin <= x.Floor <= r.imax
  }

  ghost predicate IntegersInRange(r: Range, samples: seq<real>) {
    forall k {:trigger samples[k]} :: 0 <= k < |samples| ==> IntegerInRange(r, samples[k])
  }

  /** No integer in range is saturated, and those at the upper end are at the edge. */
  lemma {:induction false} IntegersAtTop(r: Range, samples: seq<real>)
    requires r.Valid() && IntegersInRange(r, samples)
    ensures Saturated(r, samples) == 0 && Edges(r, samples) == AtTop(r, samples)
  {
    if |samples| > 0 {
      var n := |samples| - 1;
      IntegersAtTop(r, samples[..n]);
      assert IntegerInRange(r, samples[n]);
      RoundedInteger(r, samples[n].Floor);
    }
  }

  lemma {:induction false} ReadInRange(samples: seq<real>, x: seq<Byte>, at: int, f: Format, step: int, n: nat)
    requires f.Valid() && SlotsFit(|x|, at, step, f.bytes, n) && AllInRange(x, at, f, step, n)
    requires HoldSamples(samples, x, at, step, f, n)
    ensures IntegersInRange(f.SampleRange(), samples)
  {
    forall k | 0 <= k < n
      ensures IntegerInRange(f.SampleRange(), samples[k])
    {
      assert InRange(f, Decode(Slot(x, at, step, f.bytes, n, k), f.swap));
    }
  }

  /** The values are what the slots hold. */
  ghost predicate SlotsAre(values: seq<seq<Byte>>, x: seq<Byte>, at: int, step: int, width: int, n: nat) {
    && |values| == n && SlotsFit(|x|, at, step, width, n)
    && forall k {:trigger values[k]} :: 0 <= k < n ==> values[k] == Slot(x, at, step, width, n, k)
  }

  lemma {:induction false} EncodedSlots(samples: seq<real>, x: seq<Byte>, at: int, f: Format, step: int, n: nat)
    requires f.Valid() && SlotsFit(|x|, at, step, f.bytes, n) && AllInRange(x, at, f, step, n)
    requires HoldSamples(samples, x, at, step, f, n)
    ensures SlotsAre(Encoded(samples, f), x, at, step, f.bytes, n)
  {
    forall k | 0 <= k < n
      ensures Encoded(samples, f)[k] == Slot(x, at, step, f.bytes, n, k)
    {
      SlotRestored(x, at, f, step, n, k);
    }
  }

  /** Byte p, in slot k, is what it was. */
  lemma {:induction false} ByteRestored(y: seq<Byte>, x: seq<Byte>, at: int, step: int, width: int,
                                        values: seq<seq<Byte>>, k: nat, p: int)
    requires Written(y, x, at, step, width, |values|, values) && SlotsAre(values, x, at, step, width, |values|)
    requires k < |values| && InSlot(p, at, step, width, k)
    ensures 0 <= p < |x| && y[p] == x[p]
  {
    SlotFits(|x|, at, step, width, |values|, k);
    var from := Pos(at, step, k);
    assert SlotHolds(y, from, values[k]);
    SameSlice(y, x, from, width, p);
  }

  /** Writing to the slots what they hold changes nothing. */
  lemma {:induction false} Restored(y: seq<Byte>, x: seq<Byte>, at: int, step: int, width: int, values: seq<seq<Byte>>)
    requires Written(y, x, at, step, width, |values|, values) && SlotsAre(values, x, at, step, width, |values|)
    ensures y == x
  {
    forall p | 0 <= p < |x|
      ensures y[p] == x[p]
    {
      if k :| 0 <= k < |values| && InSlot(p, at, step, width, k) {
        ByteRestored(y, x, at, step, width, values, k, p);
      } else {
        assert !InSomeSlot(p, at, step, width, |values|);
      }
    }
  }

  /** Reading a channel and writing it back restores the buffer byte for byte. Overflows are counted for the
      samples at the upper end of the range, and for no others. */
  method RoundTrip(raw: array<Byte>, at: nat, f: Format, spacing: nat, n: nat, overflow: Overflow)
    returns (samples: seq<real>, after: Overflow)
    requires f.Valid() && 0 < spacing && SlotsFit(raw.Length, at, spacing * f.bytes, f.bytes, n)
    requires AllInRange(raw[..], at, f, spacing * f.bytes, n)
    modifies raw
    ensures raw[..] == old(raw[..]) && HoldSamples(samples, raw[..], at, spacing * f.bytes, f, n)
    ensures after.count == overflow.count + AtTop(f.SampleRange(), samples)
  {
    ghost var x, step := raw[..], spacing * f.bytes;
    samples := Raw2Real(raw, at, f, spacing, n);
    RangeValid(f);
    ReadInRange(samples, x, at, f, step, n);
    IntegersAtTop(f.SampleRange(), samples);
    after := Real2Raw(raw, at, f, spacing, samples, overflow);
    EncodedSlots(samples, x, at, f, step, n);
    Restored(raw[..], x, at, step, f.bytes, Encoded(samples, f));
  }

  lemma {:induction false} SameSlice(y: seq<Byte>, x: seq<Byte>, from: int, width: int, p: int)
    requires |y| == |x| && 0 <= from <= p < from + width <= |x| && y[from..from + width] == x[from..from + width]
    ensures y[p] == x[p]
  {
    assert y[p] == y[from..from + width][p - from];
    assert x[p] == x[from..from + width][p - from];
  }
}
