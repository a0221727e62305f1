/** The pipeline moves on: from every reachable state the device gets its next period after a bounded number of steps,
    whichever of the enabled ones are taken. */
module PipelineProgress {
  import opened Totals
  import opened Pipeline
  import opened PipelineSafety
  import opened PipelineTheorems

  // ----- how far the threads have come -----

  /** Steps between two barriers, at most. */
  function SegmentSteps(c: Config): nat {
    2 * c.n + 3
  }

  /** Steps of an activation, at most. */
  function ActivationSteps(c: Config): nat {
    3 * SegmentSteps(c) + 3
  }

  function SegmentStart(c: Config, seg: nat): int {
    if seg == 0 then 0
    else if seg == 1 then SegmentSteps(c)
    else if seg == 2 then 2 * SegmentSteps(c)
    else 3 * SegmentSteps(c)
  }

  function Place(c: Config, f: Filter): int {
    match f.pc
    case WaitToken => 0
    case Work(seg) => 1 + SegmentStart(c, seg)
    case PostBarrier(seg, next) => 2 + SegmentStart(c, seg) + next
    case TakeBarrier(seg, got) => 3 + c.n + SegmentStart(c, seg) + got
    case PostOutput => 3 * SegmentSteps(c) + 2
  }

  function FilterPosition(c: Config, f: Filter): int {
    Times(f.done, ActivationSteps(c)) + Place(c, f)
  }

  function InputPosition(s: State): int {
    match s.inPc
    case PostInit => 0
    case PostSync => 1
    case WaitStart => 2
    case Reading => 3 + 3 * s.periods
    case WaitOutput => 3 * s.periods + 1
    case PostFilters => 3 * s.periods + 2
  }

  /** Since the last period was written. */
  function OutputPosition(c: Config, s: State): int {
    match s.outPc
    case TakeInit(got) => got
    case WaitSync => c.n + 1
    case FillFirst => c.n + 2
    case FillFirstPosted => c.n + 3
    case PostSecond => c.n + 4
    case FillSecond => c.n + 5
    case StartFirst => c.n + 2
    case StartSecond => c.n + 3
    case Take(got) => c.n + 6 + got
    case PostInput => 2 * c.n + 7
    case Writing => 2 * c.n + 8
  }

  function Positions(c: Config, fs: seq<Filter>): (xs: seq<int>)
    ensures |xs| == |fs| && forall i :: 0 <= i < |fs| ==> xs[i] == FilterPosition(c, fs[i])
  {
    seq(|fs|, i requires 0 <= i < |fs| => FilterPosition(c, fs[i]))
  }

  function Position(c: Config, s: State): int {
    InputPosition(s) + OutputPosition(c, s) + Total(Positions(c, s.filters))
  }

  // ----- every step counts -----

  lemma {:induction false} PlaceAdvances(c: Config, s: State, i: nat)
    requires Shape(c, s) && c.Valid() && i < c.n && FilterOk(c, s.filters[i]) && FilterEnabled(c, s, i)
    ensures var f, f' := s.filters[i], FilterNext(c, s, i).filters[i];
      if f.pc == PostOutput then f'.pc == WaitToken && f'.done == f.done + 1
      else f'.done == f.done && Place(c, f) < Place(c, f')
  {
  }

  lemma {:induction false} FilterAdvances(c: Config, s: State, i: nat)
    requires Shape(c, s) && c.Valid() && i < c.n && FilterOk(c, s.filters[i]) && FilterEnabled(c, s, i)
    ensures |FilterNext(c, s, i).filters| == c.n
    ensures FilterPosition(c, s.filters[i]) < FilterPosition(c, FilterNext(c, s, i).filters[i])
  {
    PlaceAdvances(c, s, i);
  }

  lemma {:induction false} OneFilterMoves(c: Config, s: State, i: nat)
    requires Shape(c, s) && i < c.n && FilterOk(c, s.filters[i]) && FilterEnabled(c, s, i)
    ensures var s' := FilterNext(c, s, i);
      && |s'.filters| == c.n && s'.filters == s.filters[i := s'.filters[i]]
      && s'.inPc == s.inPc && s'.periods == s.periods && s'.outPc == s.outPc && s'.written == s.written
  {
  }

  lemma {:induction false} TotalAdvances(c: Config, fs: seq<Filter>, i: nat, f: Filter)
    requires i < |fs| && FilterPosition(c, fs[i]) < FilterPosition(c, f)
    ensures Total(Positions(c, fs)) < Total(Positions(c, fs[i := f]))
  {
    TotalUpdate(Positions(c, fs), i, FilterPosition(c, f));
    assert Positions(c, fs[i := f]) == Positions(c, fs)[i := FilterPosition(c, f)];
  }

  lemma {:induction false} InputAdvances(c: Config, s: State)
    requires Shape(c, s) && InputEnabled(s)
    ensures var s' := InputNext(c, s);
      s'.filters == s.filters && s'.outPc == s.outPc && InputPosition(s) < InputPosition(s')
  {
  }

  lemma {:induction false} OutputAdvances(c: Config, s: State)
    requires Shape(c, s) && Control(c, s) && OutputEnabled(c, s) && s.outPc != Writing
    ensures var s' := OutputNext(c, s);
      && s'.filters == s.filters && s'.inPc == s.inPc && s'.periods == s.periods
      && OutputPosition(c, s) < OutputPosition(c, s')
  {
  }

  lemma {:induction false} StepAdvances(c: Config, s: State, step: Step)
    requires Invariant(c, s) && Enabled(c, s, step) && Next(c, s, step).written == s.written
    ensures Position(c, s) < Position(c, Next(c, s, step))
  {
    match step
    case Input =>
      InputAdvances(c, s);
    case Output =>
      OutputAdvances(c, s);
    case FilterStep(i) =>
      assert FilterOk(c, s.filters[i]);
      FilterAdvances(c, s, i);
      OneFilterMoves(c, s, i);
      TotalAdvances(c, s.filters, i, FilterNext(c, s, i).filters[i]);
  }

  // ----- and there are not many of them -----

  lemma {:induction false} TimesMore(a: nat, b: nat, m: nat)
    requires a <= b
    ensures Times(a, m) <= Times(b, m)
  {
    if a < b {
      TimesMore(a, b - 1, m);
    }
  }

  function Bound(c: Config, written: nat): int {
    3 * written + 2 * c.n + 20 + Times(c.n, Times(written + 6, ActivationSteps(c)))
  }

  lemma {:induction false} PlaceBounded(c: Config, f: Filter)
    requires c.Valid() && FilterOk(c, f)
    ensures 0 <= Place(c, f) < ActivationSteps(c)
  {
  }

  lemma {:induction false} FilterBounded(c: Config, s: State, i: nat)
    requires Invariant(c, s) && i < c.n
    ensures FilterPosition(c, s.filters[i]) <= Times(s.written + 6, ActivationSteps(c))
  {
    var f := s.filters[i];
    assert FilterOk(c, f) && WithinBatch(s, f);
    PlaceBounded(c, f);
    InputBounded(c, s);
    TimesMore(f.done + 1, s.written + 6, ActivationSteps(c));
  }

  lemma {:induction false} InputBounded(c: Config, s: State)
    requires Invariant(c, s)
    ensures s.periods <= s.written + 3 && Batches(s) <= s.written + 4
    ensures InputPosition(s) <= 3 * s.written + 12 && OutputPosition(c, s) <= 2 * c.n + 8
  {
  }

  lemma {:induction false} PositionBounded(c: Config, s: State)
    requires Invariant(c, s)
    ensures Position(c, s) <= Bound(c, s.written)
  {
    InputBounded(c, s);
    var most := Times(s.written + 6, ActivationSteps(c));
    forall i | 0 <= i < c.n
      ensures Positions(c, s.filters)[i] <= most
    {
      FilterBounded(c, s, i);
    }
    TotalAtMost(Positions(c, s.filters), most);
  }

  /** Every filter has done what has been collected, and the input has been read for it. */
  lemma {:induction false} PositionAtLeast(c: Config, s: State)
    requires Invariant(c, s)
    ensures 3 * s.written - 3 + Times(c.n, Times(s.written, ActivationSteps(c))) <= Position(c, s)
  {
    var least := Times(s.written, ActivationSteps(c));
    forall i | 0 <= i < c.n
      ensures least <= Positions(c, s.filters)[i]
    {
      FilterAtLeast(c, s, i);
    }
    TotalAtLeast(Positions(c, s.filters), least);
    ReadAtLeast(c, s);
  }

  lemma {:induction false} FilterAtLeast(c: Config, s: State, i: nat)
    requires Invariant(c, s) && i < c.n
    ensures Times(s.written, ActivationSteps(c)) <= FilterPosition(c, s.filters[i])
  {
    assert FilterOk(c, s.filters[i]);
    PlaceBounded(c, s.filters[i]);
    CollectedFinished(c, s, i);
    TimesMore(s.written, s.filters[i].done, ActivationSteps(c));
  }

  lemma {:induction false} ReadAtLeast(c: Config, s: State)
    requires Invariant(c, s)
    ensures 3 * s.written - 3 <= InputPosition(s) && 0 <= OutputPosition(c, s)
  {
    CollectedFinished(c, s, 0);
    assert WithinBatch(s, s.filters[0]);
  }

  lemma {:induction false} SixMore(n: nat, w: nat, a: nat)
    ensures Times(n, Times(w + 6, a)) - Times(n, Times(w, a)) == 6 * (n * a)
  {
    TimesIs(w + 6, a);
    TimesIs(w, a);
    TimesIs(n, (w + 6) * a);
    TimesIs(n, w * a);
    assert (w + 6) * a == w * a + 6 * a;
    assert n * (w * a + 6 * a) == n * (w * a) + 6 * (n * a);
  }

  // ----- the next period -----

  /** At most so many steps until the next period has been written. */
  ghost function StepsLeft(c: Config, s: State): nat
    requires Invariant(c, s)
  {
    PositionBounded(c, s);
    Bound(c, s.written) - Position(c, s)
  }

  lemma {:induction false} FewSteps(c: Config, s: State)
    requires Invariant(c, s)
    ensures StepsLeft(c, s) <= 36 * c.n * c.n + 74 * c.n + 23
  {
    PositionAtLeast(c, s);
    SixMore(c.n, s.written, ActivationSteps(c));
    assert c.n * ActivationSteps(c) == 6 * (c.n * c.n) + 12 * c.n;
  }

  /** A step brings the next period, or it leaves fewer steps until then. */
  lemma {:induction false} StepsRunOut(c: Config, s: State, step: Step)
    requires Invariant(c, s) && Enabled(c, s, step)
    ensures Invariant(c, Next(c, s, step))
    ensures var s' := Next(c, s, step);
      s'.written == s.written + 1 || (s'.written == s.written && StepsLeft(c, s') < StepsLeft(c, s))
  {
    StepKeeps(c, s, step);
    OnlyWritingCounts(c, s, step);
    if Next(c, s, step).written == s.written {
      StepAdvances(c, s, step);
    }
  }

  lemma {:induction false} OnlyWritingCounts(c: Config, s: State, step: Step)
    requires Shape(c, s) && Enabled(c, s, step)
    ensures Next(c, s, step).written == s.written || Next(c, s, step).written == s.written + 1
  {
  }

  /** Some step is enabled, and after it the next period is there or nearer. */
  lemma {:induction false} StepOn(c: Config, states: seq<State>, steps: seq<Step>) returns (step: Step, s': State)
    requires c.Valid() && Run(c, states, steps) && Invariant(c, states[|states| - 1])
    ensures Run(c, states + [s'], steps + [step]) && Invariant(c, s')
    ensures var s := states[|states| - 1];
      s'.written == s.written + 1 || (s'.written == s.written && StepsLeft(c, s') < StepsLeft(c, s))
  {
    var s := states[|states| - 1];
    step := SomeEnabled(c, s);
    s' := Next(c, s, step);
    OneStepMore(c, states, steps, step);
    StepsRunOut(c, s, step);
  }

  /** Every run goes on until the device has got another period. */
  lemma {:induction false} NextPeriod(c: Config, states: seq<State>, steps: seq<Step>)
    returns (states': seq<State>, steps': seq<Step>)
    requires c.Valid() && Run(c, states, steps) && Invariant(c, states[|states| - 1])
    ensures Run(c, states', steps') && states <= states' && steps <= steps'
    ensures states'[|states'| - 1].written == states[|states| - 1].written + 1
    decreases StepsLeft(c, states[|states| - 1])
  {
    var step, s' := StepOn(c, states, steps);
    states', steps' := states + [s'], steps + [step];
    if s'.written == states[|states| - 1].written {
      states', steps' := NextPeriod(c, states + [s'], steps + [step]);
    }
  }

  /** The pipeline does its work: every run has a continuation in which the device has got another period. */
  lemma {:induction false} Progress(c: Config, states: seq<State>, steps: seq<Step>)
    requires c.Valid() && Run(c, states, steps)
    ensures exists states': seq<State>, steps': seq<Step> ::
      && Run(c, states', steps') && states <= states' && steps <= steps'
      && states'[|states'| - 1].written == states[|states| - 1].written + 1
  {
    RunInvariant(c, states, steps, |states| - 1);
    var states', steps' := NextPeriod(c, states, steps);
  }

  lemma {:induction false} RunStep(c: Config, states: seq<State>, steps: seq<Step>, k: nat)
    requires c.Valid() && Run(c, states, steps) && k + 1 < |states|
    ensures Invariant(c, states[k]) && Invariant(c, states[k + 1])
    ensures var s, s' := states[k], states[k + 1];
      s'.written == s.written + 1 || (s'.written == s.written && StepsLeft(c, s') < StepsLeft(c, s))
  {
    RunInvariant(c, states, steps, k);
    assert Leads(c, states[k], steps[k], states[k + 1]);
    StepsRunOut(c, states[k], steps[k]);
  }

  lemma {:induction false} WaitRunsOut(c: Config, states: seq<State>, steps: seq<Step>, k: nat, m: nat)
    requires c.Valid() && Run(c, states, steps) && k <= m < |states| && states[m].written == states[k].written
    ensures Invariant(c, states[k]) && m - k <= StepsLeft(c, states[k])
    decreases m - k
  {
    if k < m {
      RunStep(c, states, steps, k);
      WrittenGrows(c, states, steps, k + 1, m);
      WaitRunsOut(c, states, steps, k + 1, m);
    } else {
      RunInvariant(c, states, steps, k);
    }
  }

  /** No schedule can keep the device waiting: between two periods no run takes more steps than a bound that depends on
      the number of filters alone. */
  lemma {:induction false} BoundedWait(c: Config, states: seq<State>, steps: seq<Step>, k: nat, m: nat)
    requires c.Valid() && Run(c, states, steps) && k <= m < |states| && states[m].written == states[k].written
    ensures m - k <= 36 * c.n * c.n + 74 * c.n + 23
  {
    WaitRunsOut(c, states, steps, k, m);
    FewSteps(c, states[k]);
  }

  lemma {:induction false} WrittenGrows(c: Config, states: seq<State>, steps: seq<Step>, k: nat, m: nat)
    requires Run(c, states, steps) && k <= m < |states|
    ensures states[k].written <= states[m].written
    decreases m - k
  {
    if k < m {
      assert Leads(c, states[k], steps[k], states[k + 1]);
      OnlyWritingCounts(c, states[k], steps[k]);
      WrittenGrows(c, states, steps, k + 1, m);
    }
  }
}
