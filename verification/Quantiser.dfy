/** Requantisation of real samples to integers: with high-pass dither and error feedback, and without dither. */
module Quantiser {

  /** Conversion to an integer cuts towards zero. */
  function Truncated(r: real): int {
    if r >= 0.0 then r.Floor else -((-r).Floor)
  }

  lemma {:induction false} TruncatedBounds(r: real)
    ensures r >= 0.0 ==> Truncated(r) as real <= r < Truncated(r) as real + 1.0
    ensures r < 0.0 ==> Truncated(r) as real - 1.0 < r <= Truncated(r) as real
  {
  }

  predicate Within(a: real, bound: real) {
    -bound <= a <= bound
  }

  /** Overflow statistics of an output channel. */
  datatype Overflow = Overflow(count: nat, largest: real, intLargest: int)

  datatype Range = Range(imin: int, imax: int)
  {
    ghost predicate Valid() {
      imin < 0 < imax
    }
  }

  predicate Clips(r: Range, x: real) {
    x <= r.imin as real || x > r.imax as real
  }

  /** What a value becomes that is already offset by half a step. */
  function Cut(r: Range, x: real): int {
    if x < 0.0 then if x <= r.imin as real then r.imin else Truncated(x) - 1
    else if x > r.imax as real then r.imax
    else Truncated(x)
  }

  /** Rounding is downwards, by a whole step for negative integers; the result stays in range. */
  lemma {:induction false} CutBounds(r: Range, x: real)
    requires r.Valid()
    ensures r.imin <= Cut(r, x) <= r.imax
    ensures !Clips(r, x) ==> 0.0 <= x - Cut(r, x) as real <= 1.0
    ensures !Clips(r, x) ==> if x >= 0.0 then x - Cut(r, x) as real < 1.0 else x - Cut(r, x) as real > 0.0
    ensures Clips(r, x) ==> Cut(r, x) == if x < 0.0 then r.imin else r.imax
  {
    TruncatedBounds(x);
  }

  /** The largest magnitude so far. */
  function Larger(m: real, x: real): real {
    if Within(x, m) then m else if x < 0.0 then -x else x
  }

  /** The two branches of both quantisers: `statistic` is the value whose excess over the largest overflow so far is
      tested. */
  method CutSample(r: Range, x: real, statistic: real, overflow: Overflow) returns (sample: int, after: Overflow)
    requires r.Valid()
    ensures sample == Cut(r, x)
    ensures after.count == overflow.count + if Clips(r, x) then 1 else 0
    ensures overflow.intLargest >= 0 ==>
      after.intLargest as real == if Clips(r, x) then overflow.intLargest as real
                                  else Larger(overflow.intLargest as real, sample as real)
    ensures overflow.largest >= 0.0 ==>
      after.largest == if Clips(r, x) && (if x < 0.0 then -statistic else statistic) > overflow.largest
                       then if x < 0.0 then -x else x
                       else overflow.largest
  {
    after := overflow;
    if x < 0.0 {
      if x <= r.imin as real {
        sample := r.imin;
        after := after.(count := after.count + 1);
        if statistic < -after.largest {
          after := after.(largest := -x);
        }
      } else {
        sample := Truncated(x);
        sample := sample - 1;
        if sample < -after.intLargest {
          after := after.(intLargest := -sample);
        }
      }
    } else {
      if x > r.imax as real {
        sample := r.imax;
        after := after.(count := after.count + 1);
        if statistic > after.largest {
          after := after.(largest := x);
        }
      } else {
        sample := Truncated(x);
        if sample > after.intLargest {
          after := after.(intLargest := sample);
        }
      }
    }
  }

  // ----- without dither -----

  function Rounded(r: Range, x: real): int {
    Cut(r, x + 0.5)
  }

  method Real2IntNoDither(r: Range, x: real, overflow: Overflow) returns (sample: int, after: Overflow)
    requires r.Valid()
    ensures sample == Rounded(r, x)
    ensures after.count == overflow.count + if Clips(r, x + 0.5) then 1 else 0
    ensures overflow.largest >= 0.0 ==>
      after.largest == if Clips(r, x + 0.5) then Larger(overflow.largest, x + 0.5) else overflow.largest
    ensures overflow.intLargest >= 0 ==>
      after.intLargest as real
        == if Clips(r, x + 0.5) then overflow.intLargest as real
           else Larger(overflow.intLargest as real, sample as real)
  {
    sample, after := CutSample(r, x + 0.5, x + 0.5, overflow);
  }

  /** The result is within half a step of the input exactly when the input is within half a step of the
      range; otherwise it is the nearer end of the range. */
  lemma {:induction false} RoundedNear(r: Range, x: real)
    requires r.Valid()
    ensures r.imin <= Rounded(r, x) <= r.imax
    ensures -0.5 <= x - Rounded(r, x) as real <= 0.5 <==> r.imin as real - 0.5 <= x <= r.imax as real + 0.5
    ensures x < r.imin as real - 0.5 ==> Rounded(r, x) == r.imin
    ensures x > r.imax as real + 0.5 ==> Rounded(r, x) == r.imax
  {
    CutBounds(r, x + 0.5);
  }

  /** Further than half a step from the range: the result is not the rounded input. */
  predicate Beyond(r: Range, x: real) {
    x < r.imin as real - 0.5 || x > r.imax as real + 0.5
  }

  /** Within half a step of an end of the range, on the side that the comparison takes for an overflow. */
  predicate AtEdge(r: Range, x: real) {
    r.imax as real - 0.5 < x <= r.imax as real + 0.5 || x == r.imin as real - 0.5
  }

  /** An overflow is counted for every input beyond the range, but also for some that are rounded properly: exactly
      those at the edges. */
  lemma {:induction false} OverflowCounted(r: Range, x: real)
    requires r.Valid()
    ensures Beyond(r, x) <==> !(-0.5 <= x - Rounded(r, x) as real <= 0.5)
    ensures Clips(r, x + 0.5) <==> Beyond(r, x) || AtEdge(r, x)
    ensures Clips(r, x + 0.5) && -0.5 <= x - Rounded(r, x) as real <= 0.5 <==> AtEdge(r, x)
  {
    RoundedNear(r, x);
  }

  /** Three quarters below the upper end at eight bits, and at the upper end itself. */
  lemma {:induction false} OverflowOvercounted(r: Range)
    requires r == Range(-128, 127)
    ensures Clips(r, 126.75 + 0.5) && Rounded(r, 126.75) == 127 && !Beyond(r, 126.75)
    ensures Clips(r, 127.0 + 0.5) && Rounded(r, 127.0) == 127 && !Beyond(r, 127.0)
  {
  }

  /** Integers in range are kept; among them only the one at the upper end is at an edge. */
  lemma {:induction false} RoundedInteger(r: Range, v: int)
    requires r.Valid() && r.imin <= v <= r.imax
    ensures Rounded(r, v as real) == v
    ensures !Beyond(r, v as real) && (AtEdge(r, v as real) <==> v == r.imax)
    ensures Clips(r, v as real + 0.5) <==> v == r.imax
  {
    var x := v as real + 0.5;
    TruncatedBounds(x);
    if v >= 0 {
      assert x.Floor == v;
    } else {
      assert Truncated(x) == v + 1;
    }
  }

  // ----- with dither and error feedback -----

  /** Map from table differences to dither values, with the offset of half a step. */
  function DitherValue(d: int): (v: real)
    ensures -255 <= d <= 255 ==> -0.5 <= v <= 1.5
    ensures 255.0 * (v - 0.5) == d as real
  {
    0.5 + d as real / 255.0
  }

  /** The last two errors of a channel. */
  class Feedback {
    var e0: real
    var e1: real

    constructor ()
      ensures e0 == 0.0 && e1 == 0.0
    {
      e0, e1 := 0.0, 0.0;
    }

    /** One dithered sample; d is a difference of table entries. The largest overflow becomes smaller exactly when the
        sample exceeds it without dither, but not with it. */
    method Real2IntHpTpdf(r: Range, x: real, d: int, overflow: Overflow) returns (sample: int, after: Overflow)
      requires r.Valid() && -255 <= d <= 255
      modifies this
      ensures sample == Cut(r, x + old(e0) - old(e1) + DitherValue(d))
      ensures after.count == overflow.count + if Clips(r, x + old(e0) - old(e1) + DitherValue(d)) then 1 else 0
      ensures overflow.intLargest >= 0 ==> after.intLargest >= overflow.intLargest
      ensures overflow.largest >= 0.0 ==>
        var real_sample := x + old(e0) - old(e1);
        var dithered := real_sample + DitherValue(d);
        (after.largest < overflow.largest) ==
          (Clips(r, dithered) && if dithered < 0.0 then -dithered < overflow.largest < -real_sample
                                 else dithered < overflow.largest < real_sample)
      ensures e1 == old(e0) && e0 == x + old(e0) - old(e1) - sample as real
    {
      var real_sample := x + e0 - e1;
      e1 := e0;
      var dithered := real_sample + DitherValue(d);
      sample, after := CutSample(r, dithered, real_sample, overflow);
      e0 := real_sample - sample as real;
    }
  }

  /** A sample of 200 at eight bits, with the least dither, when the largest overflow so far is 199.75. */
  method PeakShrinks() returns (after: Overflow)
    ensures after.count == 1 && after.largest < 199.75
  {
    var state := new Feedback();
    var sample;
    sample, after := state.Real2IntHpTpdf(Range(-128, 127), 200.0, -255, Overflow(0, 199.75, 0));
  }

  /** A step that does not clip leaves an error of at most one and a half steps, whatever the errors before. */
  lemma {:induction false} ErrorBound(r: Range, s: real, d: int)
    requires r.Valid() && -255 <= d <= 255 && !Clips(r, s + DitherValue(d))
    ensures -1.5 <= s - Cut(r, s + DitherValue(d)) as real <= 1.5
  {
    CutBounds(r, s + DitherValue(d));
  }

  /** Error of sample n of a run; before the start of the run there is none. */
  function ErrorAt(e: seq<real>, n: int): real {
    if 0 <= n < |e| then e[n] else 0.0
  }

  /** What is cut for sample n: the input with the last two errors fed back, and dither. */
  function Dithered(input: seq<real>, dither: seq<int>, errors: seq<real>, n: nat): real
    requires n < |input| && n < |dither|
  {
    input[n] + ErrorAt(errors, n - 1) - ErrorAt(errors, n - 2) + DitherValue(dither[n])
  }

  predicate ClippedAt(r: Range, input: seq<real>, dither: seq<int>, errors: seq<real>, n: int) {
    0 <= n < |input| && n < |dither| && Clips(r, Dithered(input, dither, errors, n))
  }

  /** How many of the first n samples are clipped. */
  function ClippedCount(r: Range, input: seq<real>, dither: seq<int>, errors: seq<real>, n: nat): nat {
    if n == 0 then 0
    else ClippedCount(r, input, dither, errors, n - 1) + if ClippedAt(r, input, dither, errors, n - 1) then 1 else 0
  }

  lemma {:induction false} NoneClipped(r: Range, input: seq<real>, dither: seq<int>, errors: seq<real>, n: nat)
    ensures ClippedCount(r, input, dither, errors, n) == 0
       <==> forall k :: 0 <= k < n ==> !ClippedAt(r, input, dither, errors, k)
  {
    if n > 0 {
      NoneClipped(r, input, dither, errors, n - 1);
    }
  }

  /** Sample k is cut from the dithered value, and its error is what the cut and the dither have changed. */
  ghost predicate Quantised(r: Range, input: seq<real>, dither: seq<int>, output: seq<int>, errors: seq<real>, k: nat)
    requires k < |input| && k < |dither| && k < |output| && k < |errors|
  {
    && output[k] == Cut(r, Dithered(input, dither, errors, k))
    && errors[k] == Dithered(input, dither, errors, k) - DitherValue(dither[k]) - output[k] as real
  }

  ghost predicate QuantisedRun(r: Range, input: seq<real>, dither: seq<int>, output: seq<int>, errors: seq<real>)
    requires |output| == |errors| <= |input| && |input| == |dither|
  {
    forall k: nat {:trigger Quantised(r, input, dither, output, errors, k)} ::
      k < |output| ==> Quantised(r, input, dither, output, errors, k)
  }

  lemma {:induction false} QuantisedMore(r: Range, input: seq<real>, dither: seq<int>, output: seq<int>,
                                         errors: seq<real>, sample: int, error: real)
    requires |output| == |errors| < |input| && |input| == |dither| && QuantisedRun(r, input, dither, output, errors)
    requires sample == Cut(r, Dithered(input, dither, errors, |output|))
    requires error == Dithered(input, dither, errors, |output|) - DitherValue(dither[|output|]) - sample as real
    ensures QuantisedRun(r, input, dither, output + [sample], errors + [error])
    ensures ClippedAt(r, input, dither, errors + [error], |output|) == ClippedAt(r, input, dither, errors, |output|)
  {
    var output', errors' := output + [sample], errors + [error];
    forall k: nat | k < |output'|
      ensures Dithered(input, dither, errors', k) == Dithered(input, dither, errors, k)
      ensures Quantised(r, input, dither, output', errors', k)
    {
      assert ErrorAt(errors', k - 1) == ErrorAt(errors, k - 1) && ErrorAt(errors', k - 2) == ErrorAt(errors, k - 2);
      if k < |output| {
        assert Quantised(r, input, dither, output, errors, k);
      }
    }
  }

  /** The count only looks at the errors before. */
  lemma {:induction false} ClippedPrefix(r: Range, input: seq<real>, dither: seq<int>, errors: seq<real>, error: real,
                                         n: nat)
    requires n <= |errors|
    ensures ClippedCount(r, input, dither, errors + [error], n) == ClippedCount(r, input, dither, errors, n)
  {
    if n > 0 {
      ClippedPrefix(r, input, dither, errors, error, n - 1);
      assert ErrorAt(errors + [error], n - 2) == ErrorAt(errors, n - 2);
      assert ErrorAt(errors + [error], n - 3) == ErrorAt(errors, n - 3);
    }
  }

  /** The errors of the first n samples of a run from a fresh state. */
  function ErrorsOf(r: Range, input: seq<real>, dither: seq<int>, n: nat): (errors: seq<real>)
    requires n <= |input| == |dither|
    ensures |errors| == n
  {
    if n == 0 then []
    else
      var before := ErrorsOf(r, input, dither, n - 1);
      var v := Dithered(input, dither, before, n - 1);
      before + [v - DitherValue(dither[n - 1]) - Cut(r, v) as real]
  }

  /** Requantisation of a stream from a fresh state: every output is the cut of the dithered value, the overflow
      count grows by the number of values that clip. */
  method QuantiseRun(r: Range, input: seq<real>, dither: seq<int>, overflow: Overflow)
    returns (output: seq<int>, after: Overflow)
    requires r.Valid() && |dither| == |input| && forall n :: 0 <= n < |dither| ==> -255 <= dither[n] <= 255
    ensures |output| == |input| && QuantisedRun(r, input, dither, output, ErrorsOf(r, input, dither, |input|))
    ensures after.count
         == overflow.count + ClippedCount(r, input, dither, ErrorsOf(r, input, dither, |input|), |input|)
  {
    var state := new Feedback();
    output, after := [], overflow;
    ghost var errors := [];
    var n := 0;
    while n < |input|
      invariant 0 <= n <= |input| && |output| == n && errors == ErrorsOf(r, input, dither, n)
      invariant state.e0 == ErrorAt(errors, n - 1) && state.e1 == ErrorAt(errors, n - 2)
      invariant QuantisedRun(r, input, dither, output, errors)
      invariant after.count == overflow.count + ClippedCount(r, input, dither, errors, n)
    {
      var sample;
      sample, after := state.Real2IntHpTpdf(r, input[n], dither[n], after);
      QuantisedMore(r, input, dither, output, errors, sample, state.e0);
      ClippedPrefix(r, input, dither, errors, state.e0, n);
      output := output + [sample];
      errors := errors + [state.e0];
      n := n + 1;
    }
  }

  /** Every output is the input minus a second difference of the errors. The error of a sample that is not clipped
      stays within 1.5; where neither it nor the two samples before are clipped, the output is within 4.5 of the
      input. A run that counts no overflow has these bounds throughout. */
  lemma {:induction false} NoiseShaped(r: Range, input: seq<real>, dither: seq<int>, output: seq<int>,
                                       errors: seq<real>, k: nat)
    requires r.Valid() && |output| == |errors| <= |input| && |dither| == |input| && k < |output|
    requires forall n :: 0 <= n < |dither| ==> -255 <= dither[n] <= 255
    requires QuantisedRun(r, input, dither, output, errors)
    ensures output[k] as real == input[k] - errors[k] + ErrorAt(errors, k - 1) - ErrorAt(errors, k - 2)
    ensures !ClippedAt(r, input, dither, errors, k) ==> Within(errors[k], 1.5)
    ensures (forall j :: k - 2 <= j <= k ==> !ClippedAt(r, input, dither, errors, j)) ==>
      Within(output[k] as real - input[k], 4.5)
    ensures ClippedCount(r, input, dither, errors, |output|) == 0 ==>
      Within(errors[k], 1.5) && Within(output[k] as real - input[k], 4.5)
  {
    NoneClipped(r, input, dither, errors, |output|);
    assert Quantised(r, input, dither, output, errors, k);
    if !ClippedAt(r, input, dither, errors, k) {
      ErrorStays(r, input, dither, output, errors, k);
      if !ClippedAt(r, input, dither, errors, k - 1) && !ClippedAt(r, input, dither, errors, k - 2) {
        ErrorStays(r, input, dither, output, errors, k - 1);
        ErrorStays(r, input, dither, output, errors, k - 2);
      }
    }
  }

  lemma {:induction false} ErrorStays(r: Range, input: seq<real>, dither: seq<int>, output: seq<int>, errors: seq<real>,
                                      k: int)
    requires r.Valid() && |output| == |errors| <= |input| && |dither| == |input| && k < |output|
    requires forall n :: 0 <= n < |dither| ==> -255 <= dither[n] <= 255
    requires QuantisedRun(r, input, dither, output, errors) && !ClippedAt(r, input, dither, errors, k)
    ensures Within(ErrorAt(errors, k), 1.5)
  {
    if k >= 0 {
      assert Quantised(r, input, dither, output, errors, k);
      ErrorBound(r, Dithered(input, dither, errors, k) - DitherValue(dither[k]), dither[k]);
    }
  }
}
