/** What holds in every reachable state of the pipeline, for any number of filter threads. */
module PipelineTheorems {
  import opened Totals
  import opened Pipeline
  import opened PipelineSafety

  // ----- runs -----

  ghost predicate Leads(c: Config, s: State, step: Step, s': State) {
    Shape(c, s) && Enabled(c, s, step) && s' == Next(c, s, step)
  }

  /** A run of the pipeline: any interleaving of enabled steps. */
  ghost predicate Run(c: Config, states: seq<State>, steps: seq<Step>) {
    && |states| == |steps| + 1
    && Init(c, states[0])
    && forall k {:trigger steps[k]} :: 0 <= k < |steps| ==> Leads(c, states[k], steps[k], states[k + 1])
  }

  lemma {:induction false} RunInvariant(c: Config, states: seq<State>, steps: seq<Step>, k: nat)
    requires c.Valid() && Run(c, states, steps) && k < |states|
    ensures Invariant(c, states[k])
  {
    if k == 0 {
      InitHolds(c, states[0]);
    } else {
      RunInvariant(c, states, steps, k - 1);
      assert Leads(c, states[k - 1], steps[k - 1], states[k]);
      StepKeeps(c, states[k - 1], steps[k - 1]);
    }
  }

  // ----- mutual exclusion and order -----

  predicate AtWorkNow(f: Filter) {
    f.pc != WaitToken
  }

  /** The output thread is reading one of the output halves. */
  predicate Draining(s: State) {
    s.outPc == Writing || s.outPc == FillFirst || s.outPc == FillFirstPosted || s.outPc == FillSecond
  }

  lemma {:induction false} BatchesBound(c: Config, s: State)
    requires Invariant(c, s)
    ensures Batches(s) <= 1 || Batches(s) <= OutputPosted(s)
  {
  }

  /** While the input thread fills a half, every filter at work is past initialisation,
      on the period before, and uses the other half. */
  lemma {:induction false} InputHalfExclusive(c: Config, states: seq<State>, steps: seq<Step>, k: nat, i: nat)
    requires c.Valid() && Run(c, states, steps) && k < |states| && i < c.n
    ensures var s := states[k];
      |s.filters| == c.n && (s.inPc == Reading && AtWorkNow(s.filters[i]) ==>
        s.filters[i].done == s.periods > 0 && s.filters[i].curbuf == 1 - s.inBuf)
  {
    RunInvariant(c, states, steps, k);
    var s := states[k];
    if s.inPc == Reading && AtWorkNow(s.filters[i]) {
      AtWork(c, s, i);
      CollectedFinished(c, s, i);
      assert FilterOk(c, s.filters[i]);
      assert s.filters[i].done == s.periods;
      assert (s.periods - 1) % 2 == 1 - s.periods % 2;
    }
  }

  lemma {:induction false} DrainedHalf(c: Config, s: State, i: nat)
    requires Invariant(c, s) && i < c.n && Draining(s) && AtWorkNow(s.filters[i])
    ensures (s.outPc == Writing && s.filters[i].done == s.written + 2)
         || (s.outPc == FillSecond && s.filters[i].done == 1)
  {
    AtWork(c, s, i);
    CollectedFinished(c, s, i);
    BatchesBound(c, s);
  }

  /** While the output thread drains a half, the start-up fills included, every filter at work is
      past initialisation and uses the other half. */
  lemma {:induction false} OutputHalfExclusive(c: Config, states: seq<State>, steps: seq<Step>, k: nat, i: nat)
    requires c.Valid() && Run(c, states, steps) && k < |states| && i < c.n
    ensures var s := states[k];
      |s.filters| == c.n && (Draining(s) && AtWorkNow(s.filters[i]) ==>
        s.filters[i].done > 0 && s.filters[i].curbuf == 1 - s.outBuf)
  {
    RunInvariant(c, states, steps, k);
    var s := states[k];
    if Draining(s) && AtWorkNow(s.filters[i]) {
      DrainedHalf(c, s, i);
      assert FilterOk(c, s.filters[i]);
      assert (s.written + 1) % 2 == 1 - s.written % 2;
    }
  }

  /** A filter at work finds in its input half the input of the period it works on. */
  lemma {:induction false} InputInOrder(c: Config, states: seq<State>, steps: seq<Step>, k: nat, i: nat)
    requires c.Valid() && Run(c, states, steps) && k < |states| && i < c.n
    ensures var s := states[k];
      |s.filters| == c.n && |s.inData| == 2 && (AtWorkNow(s.filters[i]) && s.filters[i].done > 0 ==>
        s.filters[i].curbuf < 2 && s.inData[s.filters[i].curbuf] == s.filters[i].done)
  {
    RunInvariant(c, states, steps, k);
    var s := states[k];
    if AtWorkNow(s.filters[i]) && s.filters[i].done > 0 {
      ReadsOwnPeriod(c, s, i);
    }
  }

  lemma {:induction false} DrainedData(c: Config, s: State, i: nat)
    requires Invariant(c, s) && i < c.n && Draining(s)
    ensures s.outData[s.outBuf][i] == if s.outPc == Writing then s.written + 1 else 0
  {
    var f := s.filters[i];
    assert OutputHolds(s, i);
    CollectedFinished(c, s, i);
    BatchesBound(c, s);
    assert TakenBy(f) <= Batches(s);
    var w := Written(f);
    if s.outPc == Writing {
      assert w == s.written + 1 || w == s.written + 2;
      assert (s.written + 2) % 2 == s.written % 2;
    } else if s.outPc == FillSecond {
      assert w <= 1;
    } else {
      assert w == 0;
    }
  }

  /** The device gets the periods in order, each with the data of every filter thread made from the
      input of that same period, after two silent halves when writing starts synchronised. */
  lemma {:induction false} OutputInOrder(c: Config, states: seq<State>, steps: seq<Step>, k: nat, i: nat)
    requires c.Valid() && Run(c, states, steps) && k < |states| && i < c.n
    ensures var s := states[k];
      Shape(c, s) && (Draining(s) ==> s.outData[s.outBuf][i] == if s.outPc == Writing then s.written + 1 else 0)
  {
    RunInvariant(c, states, steps, k);
    if Draining(states[k]) {
      DrainedData(c, states[k], i);
    }
  }

  // ----- start-up -----

  predicate Filling(s: State) {
    s.outPc == FillFirst || s.outPc == FillFirstPosted || s.outPc == PostSecond || s.outPc == FillSecond
  }

  predicate Starting(s: State) {
    s.outPc == StartFirst || s.outPc == StartSecond
  }

  /** The output thread has gone over to taking periods. */
  predicate Started(s: State) {
    s.outPc.Take? || s.outPc == PostInput || s.outPc == Writing
  }

  ghost predicate FirstFillAt(states: seq<State>, a: int) {
    0 <= a < |states| && states[a].outPc == FillFirst && states[a].outBuf == 0
  }

  ghost predicate SecondFillAt(states: seq<State>, b: int) {
    0 <= b < |states| && states[b].outPc == FillSecond && states[b].outBuf == 1
  }

  ghost predicate FilledBefore(states: seq<State>, k: nat) {
    exists a: nat, b: nat :: a < b < k && FirstFillAt(states, a) && SecondFillAt(states, b)
  }

  lemma {:induction false} FillHalves(c: Config, states: seq<State>, steps: seq<Step>, k: nat)
    requires c.Valid() && Run(c, states, steps) && k < |states|
    ensures states[k].outPc == FillFirst ==> FirstFillAt(states, k)
    ensures states[k].outPc == FillSecond ==> SecondFillAt(states, k)
  {
    RunInvariant(c, states, steps, k);
  }

  /** What a step does to the place of the output thread. */
  lemma {:induction false} OutputPlace(c: Config, s: State, step: Step)
    requires Shape(c, s) && Enabled(c, s, step)
    ensures step != Output ==> Next(c, s, step).outPc == s.outPc
    ensures c.synched && !Starting(s) ==> !Starting(Next(c, s, step))
    ensures !c.synched && !Filling(s) ==> !Filling(Next(c, s, step))
    ensures Filling(Next(c, s, step)) && Next(c, s, step).outPc != FillFirst ==> Filling(s)
    ensures c.synched && Started(Next(c, s, step)) ==> Started(s) || s.outPc == FillSecond || Starting(s)
  {
  }

  /** While the second half is still to be filled the first one has been. */
  lemma {:induction false} FirstFilled(c: Config, states: seq<State>, steps: seq<Step>, k: nat) returns (a: nat)
    requires c.Valid() && Run(c, states, steps) && k < |states| && Filling(states[k])
    ensures a <= k && FirstFillAt(states, a) && (states[k].outPc != FillFirst ==> a < k)
  {
    FillHalves(c, states, steps, k);
    if states[k].outPc == FillFirst {
      a := k;
    } else {
      assert k > 0;
      assert Leads(c, states[k - 1], steps[k - 1], states[k]);
      OutputPlace(c, states[k - 1], steps[k - 1]);
      a := FirstFilled(c, states, steps, k - 1);
    }
  }

  lemma {:induction false} StartUpSteps(c: Config, states: seq<State>, steps: seq<Step>, k: nat)
    requires c.Valid() && Run(c, states, steps) && k < |states|
    ensures c.synched ==> !Starting(states[k]) && (Started(states[k]) ==> FilledBefore(states, k))
    ensures !c.synched ==> !Filling(states[k])
  {
    if k > 0 {
      StartUpSteps(c, states, steps, k - 1);
      assert Leads(c, states[k - 1], steps[k - 1], states[k]);
      OutputPlace(c, states[k - 1], steps[k - 1]);
      if c.synched && Started(states[k]) && !Started(states[k - 1]) {
        var a := FirstFilled(c, states, steps, k - 1);
        FillHalves(c, states, steps, k - 1);
        assert FirstFillAt(states, a) && SecondFillAt(states, k - 1);
      } else if c.synched && Started(states[k]) {
        var a: nat, b: nat :| a < b < k - 1 && FirstFillAt(states, a) && SecondFillAt(states, b);
        assert FirstFillAt(states, a) && SecondFillAt(states, b);
      }
    }
  }

  /** Before the device gets a period it gets both halves, silent, when writing starts synchronised, and nothing
      otherwise. */
  lemma {:induction false} StartUp(c: Config, states: seq<State>, steps: seq<Step>, k: nat)
    requires c.Valid() && Run(c, states, steps) && k < |states| && states[k].outPc == Writing
    ensures c.synched ==>
      exists a: nat, b: nat :: a < b < k && FirstFillAt(states, a) && SecondFillAt(states, b)
    ensures !c.synched ==> forall j: nat :: j <= k ==> !Filling(states[j])
  {
    StartUpSteps(c, states, steps, k);
    if !c.synched {
      forall j: nat | j <= k
        ensures !Filling(states[j])
      {
        StartUpSteps(c, states, steps, j);
      }
    }
  }

  // ----- tokens -----

  /** No filter takes two tokens of one batch: who takes one has finished just the batches before. */
  lemma {:induction false} OneTokenPerBatch(c: Config, states: seq<State>, steps: seq<Step>, k: nat, i: nat)
    requires c.Valid() && Run(c, states, steps) && k < |steps| && steps[k] == FilterStep(i)
    ensures var s := states[k];
      i < c.n == |s.filters| && (s.filters[i].pc == WaitToken ==> s.filters[i].done == Batches(s) - 1)
  {
    RunInvariant(c, states, steps, k);
    assert Leads(c, states[k], steps[k], states[k + 1]);
    if states[k].filters[i].pc == WaitToken {
      OneTokenEach(c, states[k], i);
    }
  }

  /** The tokens of a whole batch collected by the output thread came one from each filter. */
  lemma {:induction false} OneTokenFromEach(c: Config, states: seq<State>, steps: seq<Step>, k: nat, i: nat)
    requires c.Valid() && Run(c, states, steps) && k < |states| && i < c.n && states[k].outPc == PostInput
    ensures |states[k].filters| == c.n && states[k].filters[i].done == states[k].written + 2
  {
    RunInvariant(c, states, steps, k);
    var s := states[k];
    CollectedFinished(c, s, i);
    BatchesBound(c, s);
    assert TakenBy(s.filters[i]) <= Batches(s);
  }

  /** Nobody leaves a barrier round before all have entered it. */
  lemma {:induction false} BarrierSound(c: Config, states: seq<State>, steps: seq<Step>, k: nat, i: nat, j: nat)
    requires c.Valid() && Run(c, states, steps) && k < |states| && i < c.n && j < c.n
    ensures |states[k].filters| == c.n && Completed(c, states[k].filters[i]) <= Entered(c, states[k].filters[j])
  {
    RunInvariant(c, states, steps, k);
  }

  /** Step k takes filter i out of a barrier. */
  predicate Leaves(states: seq<State>, steps: seq<Step>, i: nat, k: nat)
    requires k < |steps| && k + 1 < |states| && i < |states[k].filters| && i < |states[k + 1].filters|
  {
    steps[k] == FilterStep(i) && states[k].filters[i].pc.TakeBarrier? && states[k + 1].filters[i].pc.Work?
  }

  /** How many barriers filter i has left in the first k steps. */
  ghost function LeftBarriers(c: Config, states: seq<State>, steps: seq<Step>, i: nat, k: nat): nat
    requires c.Valid() && Run(c, states, steps) && k < |states| && i < c.n
  {
    if k == 0 then 0
    else
      RunInvariant(c, states, steps, k - 1);
      RunInvariant(c, states, steps, k);
      LeftBarriers(c, states, steps, i, k - 1) + if Leaves(states, steps, i, k - 1) then 1 else 0
  }

  lemma {:induction false} OwnStepCompletes(c: Config, s: State, i: nat)
    requires Shape(c, s) && i < c.n && FilterOk(c, s.filters[i]) && FilterEnabled(c, s, i) && s.filters[i].curbuf < 2
    ensures |FilterNext(c, s, i).filters| == c.n
    ensures var f, f' := s.filters[i], FilterNext(c, s, i).filters[i];
      Completed(c, f') == Completed(c, f) + if f.pc.TakeBarrier? && f'.pc.Work? then 1 else 0
  {
    RoundsStep(c, s.filters[i].done);
  }

  lemma {:induction false} OtherStepKeeps(c: Config, s: State, step: Step, i: nat)
    requires Shape(c, s) && Enabled(c, s, step) && i < c.n && step != FilterStep(i)
    ensures |Next(c, s, step).filters| == c.n && Next(c, s, step).filters[i] == s.filters[i]
  {
  }

  lemma {:induction false} StepCompletes(c: Config, s: State, step: Step, i: nat)
    requires Invariant(c, s) && Enabled(c, s, step) && i < c.n
    ensures |Next(c, s, step).filters| == c.n
    ensures var f, f' := s.filters[i], Next(c, s, step).filters[i];
      Completed(c, f') == Completed(c, f) + if step == FilterStep(i) && f.pc.TakeBarrier? && f'.pc.Work? then 1 else 0
  {
    if step == FilterStep(i) {
      assert FilterOk(c, s.filters[i]);
      OwnStepCompletes(c, s, i);
    } else {
      OtherStepKeeps(c, s, step, i);
    }
  }

  lemma {:induction false} LeftIsCompleted(c: Config, states: seq<State>, steps: seq<Step>, i: nat, k: nat)
    requires c.Valid() && Run(c, states, steps) && k < |states| && i < c.n
    ensures |states[k].filters| == c.n && LeftBarriers(c, states, steps, i, k) == Completed(c, states[k].filters[i])
  {
    RunInvariant(c, states, steps, k);
    if k == 0 {
      StartCounts(c, states[0].filters[i], i, i);
    } else {
      LeftIsCompleted(c, states, steps, i, k - 1);
      RunInvariant(c, states, steps, k - 1);
      assert Leads(c, states[k - 1], steps[k - 1], states[k]);
      StepCompletes(c, states[k - 1], steps[k - 1], i);
    }
  }

  lemma {:induction false} RoundsAre(c: Config, done: nat)
    requires 0 < done
    ensures Rounds(c, done) == 1 + Times(done - 1, c.bars)
  {
    RoundsStep(c, done - 1);
    if done > 1 {
      RoundsAre(c, done - 1);
    }
  }

  /** A filter between two activations has left one barrier for its initialisation and the configured number for every
      period since. */
  lemma {:induction false} BarriersPerPeriod(c: Config, states: seq<State>, steps: seq<Step>, i: nat, k: nat)
    requires c.Valid() && Run(c, states, steps) && k < |states| && i < c.n
    ensures |states[k].filters| == c.n
    ensures var f := states[k].filters[i];
      f.pc == WaitToken && f.done > 0 ==> LeftBarriers(c, states, steps, i, k) == 1 + (f.done - 1) * c.bars
  {
    LeftIsCompleted(c, states, steps, i, k);
    var f := states[k].filters[i];
    if f.done > 0 {
      RoundsAre(c, f.done);
      TimesIs(f.done - 1, c.bars);
    }
  }

  // ----- progress -----

  lemma {:induction false} TotalShort(c: Config, s: State, k: nat)
    requires Invariant(c, s) && k < c.n && TakenBy(s.filters[k]) < Batches(s)
    ensures s.inputToFilter > 0
  {
    if s.inputToFilter == 0 {
      assert forall i :: 0 <= i < c.n ==> TakenBy(s.filters[i]) <= Batches(s);
      TotalReached(Taken(s.filters), Batches(s), k);
    }
  }

  /** A filter that waits for a token while another is at its first barrier has a token coming. */
  lemma {:induction false} BehindOneBatch(c: Config, s: State, i: nat, k: nat)
    requires Invariant(c, s) && i < c.n && k < c.n && s.filters[i].pc.TakeBarrier? && s.filters[k].pc == WaitToken
    requires Completed(c, s.filters[k]) == Completed(c, s.filters[i])
    ensures s.inputToFilter > 0
  {
    AtWork(c, s, i);
    assert FilterOk(c, s.filters[i]);
    var a, b := s.filters[i].done, s.filters[k].done;
    assert TakenBy(s.filters[k]) <= Batches(s) && Batches(s) - 1 <= b;
    if b == Batches(s) {
      RoundsGrow(c, a, b);
    } else {
      TotalShort(c, s, k);
    }
  }

  /** A filter stuck at a barrier is missing the post of another one. */
  lemma {:induction false} MissingPost(c: Config, s: State, i: nat) returns (k: nat)
    requires Shape(c, s) && BarrierTokens(c, s) && i < c.n
    requires s.filters[i].pc.TakeBarrier? && !FilterEnabled(c, s, i)
    ensures k < c.n && k != i && PostedTo(c, s.filters[k], i) <= Completed(c, s.filters[i])
  {
    var f := s.filters[i];
    var r, posts := Completed(c, f) + 1, PostsTo(c, s.filters, i);
    assert BarrierTokensAt(c, s, i);
    MissingSum(c.n, r, GotOf(f));
    k := TotalBelowBut(posts, i, r);
    assert posts[k] == PostedTo(c, s.filters[k], i);
  }

  lemma {:induction false} MissingSum(n: nat, r: int, got: int)
    requires 0 < n && got + 1 < n
    ensures Times(n - 1, r - 1) + got < Times(n - 1, r)
  {
    TimesOne(n - 1, r - 1);
  }

  ghost predicate AllStuck(c: Config, s: State) {
    && Shape(c, s)
    && forall j {:trigger s.filters[j]} :: 0 <= j < c.n ==> !FilterEnabled(c, s, j)
  }

  lemma {:induction false} Stuck(c: Config, s: State, i: nat)
    requires AllStuck(c, s) && i < c.n
    ensures !FilterEnabled(c, s, i)
    ensures s.filters[i].pc.TakeBarrier? || (s.filters[i].pc == WaitToken && s.inputToFilter == 0)
  {
    var f := s.filters[i];
    assert !FilterEnabled(c, s, i);
  }

  /** Filters that wait at a barrier wait for one that is behind; with all filters stuck, there is none. */
  lemma {:induction false} BarrierNotStuck(c: Config, s: State, i: nat)
    requires Invariant(c, s) && i < c.n && s.filters[i].pc.TakeBarrier?
    requires AllStuck(c, s)
    ensures false
    decreases Completed(c, s.filters[i])
  {
    Stuck(c, s, i);
    var k := MissingPost(c, s, i);
    var g := s.filters[k];
    Stuck(c, s, k);
    assert g.pc.TakeBarrier? || g.pc.WaitToken?;
    if g.pc.TakeBarrier? {
      assert PostedTo(c, g, i) == Completed(c, g) + 1;
      BarrierNotStuck(c, s, k);
    } else {
      WaitsLevel(c, g, i);
      assert Entered(c, g) >= Completed(c, s.filters[i]);
      BehindOneBatch(c, s, i, k);
      assert false;
    }
  }

  lemma {:induction false} WaitsLevel(c: Config, f: Filter, j: nat)
    requires f.pc == WaitToken
    ensures Entered(c, f) == Completed(c, f) == PostedTo(c, f, j)
  {
  }

  /** With every filter waiting for a token and none to take, one of the two I/O threads can move. */
  lemma {:induction false} IoNotStuck(c: Config, s: State)
    requires Invariant(c, s) && s.inputToFilter == 0
    requires forall i :: 0 <= i < c.n ==> s.filters[i].pc == WaitToken
    ensures InputEnabled(s) || OutputEnabled(c, s)
  {
    assert Taken(s.filters) == Finished(s.filters);
    assert s.filterToOutput + Times(c.n, Collected(s)) + Collecting(s) == Times(c.n, Batches(s));
    if !InputEnabled(s) && !OutputEnabled(c, s) {
      if s.outPc.Take? || s.outPc.TakeInit? {
        TimesOne(c.n, Collected(s));
        assert Batches(s) >= 1;
        if Collected(s) + 1 <= Batches(s) {
          TimesAtMost(c.n, Collected(s) + 1, Batches(s));
        }
      }
    }
  }

  lemma {:induction false} SomeEnabled(c: Config, s: State) returns (step: Step)
    requires Invariant(c, s)
    ensures Enabled(c, s, step)
  {
    if InputEnabled(s) {
      step := Input;
    } else if OutputEnabled(c, s) {
      step := Output;
    } else if i: nat :| i < c.n && FilterEnabled(c, s, i) {
      assert FilterOk(c, s.filters[i]);
      step := FilterStep(i);
    } else {
      forall i | 0 <= i < c.n
        ensures s.filters[i].pc == WaitToken && s.inputToFilter == 0
      {
        assert !FilterEnabled(c, s, i);
        if s.filters[i].pc.TakeBarrier? {
          BarrierNotStuck(c, s, i);
        }
      }
      assert s.filters[0].pc == WaitToken;
      IoNotStuck(c, s);
    }
  }

  /** A run and one step more. */
  lemma {:induction false} OneStepMore(c: Config, states: seq<State>, steps: seq<Step>, step: Step)
    requires c.Valid() && Run(c, states, steps)
    requires Shape(c, states[|states| - 1]) && Enabled(c, states[|states| - 1], step)
    ensures Run(c, states + [Next(c, states[|states| - 1], step)], steps + [step])
  {
    var states', steps' := states + [Next(c, states[|states| - 1], step)], steps + [step];
    forall j | 0 <= j < |steps'|
      ensures Leads(c, states'[j], steps'[j], states'[j + 1])
    {
      if j < |steps| {
        assert Leads(c, states[j], steps[j], states[j + 1]);
      }
    }
  }

  /** The pipeline never deadlocks: every run can be continued. */
  lemma {:induction false} NoDeadlock(c: Config, states: seq<State>, steps: seq<Step>)
    requires c.Valid() && Run(c, states, steps)
    ensures exists step, s' :: Run(c, states + [s'], steps + [step])
  {
    var k := |states| - 1;
    RunInvariant(c, states, steps, k);
    var step := SomeEnabled(c, states[k]);
    OneStepMore(c, states, steps, step);
  }
}
