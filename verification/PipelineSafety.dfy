/** What every step of the pipeline keeps. */
module PipelineSafety {
  import opened Totals
  import opened Pipeline

  // ----- counters -----

  /** Barriers passed in the first `done` activations. */
  function Rounds(c: Config, done: nat): nat {
    if done == 0 then 0 else Rounds(c, done - 1) + Bars(c, done - 1)
  }

  lemma {:induction false} RoundsStep(c: Config, done: nat)
    ensures Rounds(c, done + 1) == Rounds(c, done) + Bars(c, done)
  {
  }

  /** A filter that has finished fewer activations has passed fewer barriers. */
  lemma {:induction false} RoundsGrow(c: Config, a: nat, b: nat)
    requires c.Valid() && a < b
    ensures Rounds(c, a) + Bars(c, a) <= Rounds(c, b)
    decreases b
  {
    RoundsStep(c, b - 1);
    if a < b - 1 {
      RoundsGrow(c, a, b - 1);
    }
  }

  /** Barrier rounds a filter has left behind. */
  function Completed(c: Config, f: Filter): int {
    Rounds(c, f.done) +
    match f.pc
    case WaitToken => 0
    case Work(seg) => seg
    case PostBarrier(seg, _) => seg
    case TakeBarrier(seg, _) => seg
    case PostOutput => Bars(c, f.done)
  }

  /** Barrier rounds a filter has entered. */
  function Entered(c: Config, f: Filter): int {
    Completed(c, f) + if f.pc.PostBarrier? || f.pc.TakeBarrier? then 1 else 0
  }

  /** Barrier tokens a filter has posted to filter j. */
  function PostedTo(c: Config, f: Filter, j: nat): int {
    Completed(c, f) + if f.pc.TakeBarrier? || (f.pc.PostBarrier? && j < f.pc.next) then 1 else 0
  }

  function GotOf(f: Filter): int {
    if f.pc.TakeBarrier? then f.pc.got else 0
  }

  /** The other filter threads. */
  function Others(c: Config): nat {
    if c.n == 0 then 0 else c.n - 1
  }

  /** Barrier tokens a filter has taken. */
  function Consumed(c: Config, f: Filter): int {
    Times(Others(c), Completed(c, f)) + GotOf(f)
  }

  /** Period tokens a filter has taken. */
  function TakenBy(f: Filter): int {
    f.done + if f.pc.WaitToken? then 0 else 1
  }

  function Taken(fs: seq<Filter>): (xs: seq<int>)
    ensures |xs| == |fs| && forall i :: 0 <= i < |fs| ==> xs[i] == TakenBy(fs[i])
  {
    seq(|fs|, i requires 0 <= i < |fs| => TakenBy(fs[i]))
  }

  function Finished(fs: seq<Filter>): (xs: seq<int>)
    ensures |xs| == |fs| && forall i :: 0 <= i < |fs| ==> xs[i] == fs[i].done
  {
    seq(|fs|, i requires 0 <= i < |fs| => fs[i].done)
  }

  function PostsFrom(c: Config, f: Filter, i: nat, j: nat): int {
    if i == j then 0 else PostedTo(c, f, j)
  }

  function PostsTo(c: Config, fs: seq<Filter>, j: nat): (xs: seq<int>)
    ensures |xs| == |fs| && forall i :: 0 <= i < |fs| ==> xs[i] == PostsFrom(c, fs[i], i, j)
  {
    seq(|fs|, i requires 0 <= i < |fs| => PostsFrom(c, fs[i], i, j))
  }

  /** Batches of period tokens the input thread has posted. */
  function Batches(s: State): int {
    match s.inPc
    case PostInit => 0
    case PostSync => 1
    case WaitStart => 1
    case Reading => s.periods + 1
    case WaitOutput => s.periods
    case PostFilters => s.periods
  }

  /** Tokens the input thread has taken from the output thread. */
  function InputTaken(s: State): int {
    match s.inPc
    case PostInit => 0
    case PostSync => 0
    case WaitStart => 0
    case Reading => s.periods + 1
    case WaitOutput => s.periods
    case PostFilters => s.periods + 1
  }

  /** Whole batches of filter tokens the output thread has collected. */
  function Collected(s: State): int {
    match s.outPc
    case TakeInit(_) => 0
    case Take(_) => s.written + 1
    case PostInput => s.written + 2
    case Writing => s.written + 2
    case _ => 1
  }

  function Collecting(s: State): int {
    match s.outPc
    case TakeInit(got) => got
    case Take(got) => got
    case _ => 0
  }

  /** Tokens the output thread has posted to the input thread. */
  function OutputPosted(s: State): int {
    match s.outPc
    case TakeInit(_) => 0
    case WaitSync => 0
    case FillFirst => 0
    case FillFirstPosted => 1
    case PostSecond => 1
    case FillSecond => 2
    case StartFirst => 0
    case StartSecond => 1
    case Take(_) => s.written + 2
    case PostInput => s.written + 2
    case Writing => s.written + 3
  }

  // ----- the invariant -----

  ghost predicate FilterOk(c: Config, f: Filter) {
    && f.curbuf == (if f.done == 0 then 0 else (f.done - 1) % 2)
    && match f.pc
       case WaitToken => true
       case Work(seg) => seg <= Bars(c, f.done)
       case PostBarrier(seg, next) => seg < Bars(c, f.done) && next <= c.n
       case TakeBarrier(seg, got) => seg < Bars(c, f.done) && got < c.n
       case PostOutput => true
  }

  ghost predicate FiltersOk(c: Config, fs: seq<Filter>) {
    forall i :: 0 <= i < |fs| ==> FilterOk(c, fs[i])
  }

  /** Where the input and output threads stand, against the tokens between them. */
  ghost predicate Control(c: Config, s: State) {
    && s.outputToInput + InputTaken(s) == OutputPosted(s)
    && s.sync == (if s.inPc.PostInit? || s.inPc.PostSync? then 0 else 1)
               - (if s.outPc.TakeInit? || s.outPc.WaitSync? then 0 else 1)
    && s.inBuf == s.periods % 2
    && (s.inPc.PostInit? || s.inPc.PostSync? || s.inPc.WaitStart? ==> s.periods == 0)
    && (s.inPc.WaitOutput? || s.inPc.PostFilters? ==> s.periods > 0)
    && (!(s.outPc.Take? || s.outPc.PostInput? || s.outPc.Writing?) ==> s.written == 0)
    && s.outBuf == (if s.outPc.PostSecond? || s.outPc.FillSecond? then 1 else s.written % 2)
    && Collecting(s) <= c.n
  }

  /** Period tokens: none is lost, and no filter is more than one batch ahead or behind. */
  ghost predicate Tokens(c: Config, s: State) {
    && Total(Taken(s.filters)) + s.inputToFilter == Times(c.n, Batches(s))
    && s.filterToOutput + Times(c.n, Collected(s)) + Collecting(s) == Total(Finished(s.filters))
    && AllWithinBatch(s)
  }

  ghost predicate AllWithinBatch(s: State) {
    forall i :: 0 <= i < |s.filters| ==> WithinBatch(s, s.filters[i])
  }

  ghost predicate WithinBatch(s: State, f: Filter) {
    TakenBy(f) <= Batches(s) && Batches(s) - 1 <= f.done
  }

  ghost predicate BarrierTokens(c: Config, s: State)
    requires |s.filters| == |s.barrier|
  {
    forall j: nat {:trigger BarrierTokensAt(c, s, j)} :: j < |s.filters| ==> BarrierTokensAt(c, s, j)
  }

  /** The barrier tokens of filter j, those it has taken included, are those posted to it. */
  ghost predicate BarrierTokensAt(c: Config, s: State, j: nat)
    requires |s.filters| == |s.barrier| && j < |s.filters|
  {
    s.barrier[j] + Consumed(c, s.filters[j]) == Total(PostsTo(c, s.filters, j))
  }

  /** Nobody has left a round that somebody has not entered. */
  ghost predicate InStep(c: Config, fs: seq<Filter>) {
    forall i, j {:trigger Entered(c, fs[i]), Completed(c, fs[j])} ::
      0 <= i < |fs| && 0 <= j < |fs| ==> Entered(c, fs[i]) >= Completed(c, fs[j])
  }

  /** Periods whose output filter f has written; its part of both halves is initialised. */
  function Written(f: Filter): int {
    if f.done == 0 then 0 else f.done - 1 + if f.pc.PostOutput? then 1 else 0
  }

  ghost predicate Cleared(f: Filter) {
    f.done > 0 || f.pc.PostOutput?
  }

  ghost predicate HasSeen(c: Config, f: Filter) {
    f.done > 0 ==>
      match f.pc
      case WaitToken => true
      case Work(seg) => seg + 1 >= c.bars ==> f.seen == f.done
      case PostBarrier(seg, _) => seg + 2 >= c.bars ==> f.seen == f.done
      case TakeBarrier(seg, _) => seg + 2 >= c.bars ==> f.seen == f.done
      case PostOutput => true
  }

  ghost predicate OutputHolds(s: State, i: nat)
    requires i < |s.filters| && |s.outData| == 2 && i < |s.outData[0]| && i < |s.outData[1]|
  {
    var w := Written(s.filters[i]);
    Cleared(s.filters[i]) ==>
      && s.outData[(w + 1) % 2][i] == w
      && s.outData[w % 2][i] == (if w == 0 then 0 else w - 1)
  }

  ghost predicate Data(c: Config, s: State)
    requires Shape(c, s)
  {
    && (s.periods >= 1 ==> s.inData[(s.periods + 1) % 2] == s.periods)
    && (s.periods >= 2 ==> s.inData[s.periods % 2] == s.periods - 1)
    && (forall i :: 0 <= i < |s.filters| ==> HasSeen(c, s.filters[i]))
    && (forall i :: 0 <= i < |s.filters| ==> OutputHolds(s, i))
  }

  ghost predicate Invariant(c: Config, s: State) {
    && c.Valid() && Shape(c, s) && FiltersOk(c, s.filters)
    && Control(c, s) && Tokens(c, s) && BarrierTokens(c, s) && InStep(c, s.filters) && Data(c, s)
  }

  // ----- consequences -----

  /** When every collected batch is whole, all filters have finished it. */
  lemma {:induction false} AllFinished(c: Config, s: State, m: nat, i: nat)
    requires Shape(c, s) && Tokens(c, s) && i < c.n && m <= Collected(s) && 0 <= Collecting(s)
    requires forall k :: 0 <= k < c.n ==> s.filters[k].done <= m
    ensures s.filters[i].done == m
  {
    TimesAtMost(c.n, m, Collected(s));
    TotalReached(Finished(s.filters), m, i);
  }

  /** A new batch is posted only when every filter is idle. */
  lemma {:induction false} IdleAtPost(c: Config, s: State, i: nat)
    requires Invariant(c, s) && s.inPc == PostFilters && i < c.n
    ensures s.filters[i].pc == WaitToken && s.filters[i].done == s.periods
  {
    assert OutputPosted(s) >= s.periods + 1;
    AllFinished(c, s, s.periods, i);
    assert TakenBy(s.filters[i]) <= s.periods;
  }

  /** Whatever has been collected has been finished by every filter. */
  lemma {:induction false} CollectedFinished(c: Config, s: State, i: nat)
    requires Invariant(c, s) && i < c.n
    ensures s.filters[i].done >= Collected(s)
  {
    if Batches(s) <= Collected(s) {
      TimesAtMost(c.n, Batches(s), Collected(s));
      assert forall k :: 0 <= k < c.n ==> s.filters[k].done <= Batches(s);
      TotalReached(Finished(s.filters), Batches(s), i);
      TotalAtMost(Finished(s.filters), Batches(s));
      Cancel(c.n, Batches(s), Collected(s));
    }
  }

  lemma {:induction false} Cancel(n: nat, a: int, b: int)
    requires 0 < n && Times(n, b) <= Times(n, a)
    ensures b <= a
  {
    if a < b {
      TimesAtMost(n, a, b);
    }
  }

  // ----- input and output steps -----

  lemma {:induction false} InitTokens(c: Config, s: State)
    requires c.Valid() && Init(c, s)
    ensures Tokens(c, s)
  {
    TotalZero(Taken(s.filters));
    TotalZero(Finished(s.filters));
    TimesOne(c.n, 0);
  }

  lemma {:induction false} StartCounts(c: Config, f: Filter, i: nat, j: nat)
    requires f.pc == WaitToken && f.done == 0
    ensures Consumed(c, f) == 0 && PostsFrom(c, f, i, j) == 0
  {
    TimesOne(Others(c), 0);
  }

  lemma {:induction false} InitBarrier(c: Config, s: State)
    requires c.Valid() && Init(c, s)
    ensures BarrierTokens(c, s)
  {
    forall j: nat | j < c.n
      ensures BarrierTokensAt(c, s, j)
    {
      forall i | 0 <= i < c.n
        ensures PostsTo(c, s.filters, j)[i] == 0
      {
        StartCounts(c, s.filters[i], i, j);
      }
      TotalZero(PostsTo(c, s.filters, j));
      StartCounts(c, s.filters[j], j, j);
    }
  }

  lemma {:induction false} InitHolds(c: Config, s: State)
    requires c.Valid() && Init(c, s)
    ensures Invariant(c, s)
  {
    InitTokens(c, s);
    InitBarrier(c, s);
  }

  /** Input and output steps do not touch the filters or their barrier. */
  ghost predicate SameFilters(s: State, s': State) {
    s'.filters == s.filters && s'.barrier == s.barrier
  }

  lemma {:induction false} BarrierUntouched(c: Config, s: State, s': State)
    requires Shape(c, s) && Shape(c, s') && BarrierTokens(c, s) && SameFilters(s, s')
    ensures BarrierTokens(c, s')
  {
    forall j: nat | j < c.n
      ensures BarrierTokensAt(c, s', j)
    {
      assert BarrierTokensAt(c, s, j);
    }
  }

  lemma {:induction false} OutputUntouched(c: Config, s: State, s': State)
    requires Shape(c, s) && Shape(c, s') && Data(c, s) && SameFilters(s, s') && s'.outData == s.outData
    ensures forall i :: 0 <= i < |s'.filters| ==> OutputHolds(s', i)
    ensures forall i :: 0 <= i < |s'.filters| ==> HasSeen(c, s'.filters[i])
  {
    forall i | 0 <= i < |s'.filters|
      ensures OutputHolds(s', i) && HasSeen(c, s'.filters[i])
    {
      assert OutputHolds(s, i) && HasSeen(c, s.filters[i]);
    }
  }

  lemma {:induction false} InputBatches(c: Config, s: State)
    requires Shape(c, s) && Control(c, s) && InputEnabled(s)
    ensures InputNext(c, s).inputToFilter - s.inputToFilter
         == Times(c.n, Batches(InputNext(c, s))) - Times(c.n, Batches(s))
    ensures Batches(InputNext(c, s)) == Batches(s) + if s.inPc == PostInit || s.inPc == PostFilters then 1 else 0
  {
    TimesOne(c.n, Batches(s));
  }

  lemma {:induction false} InputBounds(c: Config, s: State, i: nat)
    requires Invariant(c, s) && InputEnabled(s) && i < c.n
    ensures TakenBy(s.filters[i]) <= Batches(InputNext(c, s)) && Batches(InputNext(c, s)) - 1 <= s.filters[i].done
  {
    InputBatches(c, s);
    assert TakenBy(s.filters[i]) <= Batches(s) && Batches(s) - 1 <= s.filters[i].done;
    if s.inPc == PostFilters {
      IdleAtPost(c, s, i);
    }
  }

  lemma {:induction false} InputTokens(c: Config, s: State)
    requires Invariant(c, s) && InputEnabled(s)
    ensures Tokens(c, InputNext(c, s))
  {
    var s' := InputNext(c, s);
    InputBatches(c, s);
    assert s'.filters == s.filters && s'.filterToOutput == s.filterToOutput;
    assert s'.outPc == s.outPc && s'.written == s.written;
    forall i | 0 <= i < c.n
      ensures TakenBy(s.filters[i]) <= Batches(s') && Batches(s') - 1 <= s.filters[i].done
    {
      InputBounds(c, s, i);
    }
  }

  lemma {:induction false} InputControl(c: Config, s: State)
    requires Shape(c, s) && Control(c, s) && InputEnabled(s)
    ensures Control(c, InputNext(c, s))
  {
  }

  lemma {:induction false} InputData(c: Config, s: State)
    requires Invariant(c, s) && InputEnabled(s)
    ensures Shape(c, InputNext(c, s)) && Data(c, InputNext(c, s))
  {
    NextShape(c, s, Input);
    OutputUntouched(c, s, InputNext(c, s));
  }

  lemma {:induction false} InputKeeps(c: Config, s: State)
    requires Invariant(c, s) && InputEnabled(s)
    ensures Invariant(c, InputNext(c, s))
  {
    InputTokens(c, s);
    InputControl(c, s);
    InputData(c, s);
    BarrierUntouched(c, s, InputNext(c, s));
  }

  lemma {:induction false} OutputCounts(c: Config, s: State)
    requires Shape(c, s) && OutputEnabled(c, s) && Collecting(s) <= c.n
    requires !(s.outPc.Take? || s.outPc.PostInput? || s.outPc.Writing?) ==> s.written == 0
    ensures var s' := OutputNext(c, s);
      s'.filterToOutput + Times(c.n, Collected(s')) + Collecting(s')
        == s.filterToOutput + Times(c.n, Collected(s)) + Collecting(s)
  {
    TimesOne(c.n, Collected(s));
  }

  lemma {:induction false} OutputLeaves(c: Config, s: State)
    requires Shape(c, s) && OutputEnabled(c, s)
    ensures var s' := OutputNext(c, s);
      Shape(c, s') && s'.filters == s.filters && s'.barrier == s.barrier && s'.inPc == s.inPc && s'.periods == s.periods
        && s'.inputToFilter == s.inputToFilter && s'.inData == s.inData && s'.outData == s.outData
  {
  }

  lemma {:induction false} TokensUntouched(c: Config, s: State, s': State)
    requires Tokens(c, s) && s'.filters == s.filters && Batches(s') == Batches(s) && s'.inputToFilter == s.inputToFilter
    requires s'.filterToOutput + Times(c.n, Collected(s')) + Collecting(s')
         == s.filterToOutput + Times(c.n, Collected(s)) + Collecting(s)
    ensures Tokens(c, s')
  {
  }

  lemma {:induction false} OutputControl(c: Config, s: State)
    requires Shape(c, s) && Control(c, s) && OutputEnabled(c, s)
    ensures Control(c, OutputNext(c, s))
  {
  }

  lemma {:induction false} OutputKeeps(c: Config, s: State)
    requires Invariant(c, s) && OutputEnabled(c, s)
    ensures Invariant(c, OutputNext(c, s))
  {
    var s' := OutputNext(c, s);
    OutputLeaves(c, s);
    OutputCounts(c, s);
    TokensUntouched(c, s, s');
    OutputControl(c, s);
    OutputUntouched(c, s, s');
    BarrierUntouched(c, s, s');
  }

  // ----- filter steps -----

  /** Only filter i moves, to f. */
  ghost predicate Moves(s: State, s': State, i: nat, f: Filter)
    requires i < |s.filters|
  {
    && s'.filters == s.filters[i := f]
    && s'.inPc == s.inPc && s'.inBuf == s.inBuf && s'.periods == s.periods
    && s'.outPc == s.outPc && s'.outBuf == s.outBuf && s'.written == s.written
    && s'.outputToInput == s.outputToInput && s'.sync == s.sync
  }

  lemma {:induction false} TakenMoves(fs: seq<Filter>, i: nat, f: Filter)
    requires i < |fs|
    ensures Total(Taken(fs[i := f])) == Total(Taken(fs)) - TakenBy(fs[i]) + TakenBy(f)
    ensures Total(Finished(fs[i := f])) == Total(Finished(fs)) - fs[i].done + f.done
  {
    TotalUpdate(Taken(fs), i, TakenBy(f));
    TotalUpdate(Finished(fs), i, f.done);
    assert Taken(fs[i := f]) == Taken(fs)[i := TakenBy(f)];
    assert Finished(fs[i := f]) == Finished(fs)[i := f.done];
  }

  lemma {:induction false} PostsMove(c: Config, fs: seq<Filter>, i: nat, f: Filter, j: nat)
    requires i < |fs|
    ensures Total(PostsTo(c, fs[i := f], j))
         == Total(PostsTo(c, fs, j)) - PostsFrom(c, fs[i], i, j) + PostsFrom(c, f, i, j)
  {
    TotalUpdate(PostsTo(c, fs, j), i, PostsFrom(c, f, i, j));
    assert PostsTo(c, fs[i := f], j) == PostsTo(c, fs, j)[i := PostsFrom(c, f, i, j)];
  }

  lemma {:induction false} TokensKept(c: Config, s: State, s': State, i: nat, f: Filter)
    requires Shape(c, s) && Tokens(c, s) && i < c.n && Moves(s, s', i, f)
    requires s'.inputToFilter == s.inputToFilter + TakenBy(s.filters[i]) - TakenBy(f)
    requires s'.filterToOutput == s.filterToOutput - s.filters[i].done + f.done
    requires TakenBy(f) <= Batches(s) && s.filters[i].done <= f.done
    ensures Tokens(c, s')
  {
    assert WithinBatch(s, s.filters[i]);
    TakenMoves(s.filters, i, f);
    BatchesKept(s, s', i, f);
  }

  lemma {:induction false} BatchesKept(s: State, s': State, i: nat, f: Filter)
    requires i < |s.filters| && AllWithinBatch(s) && WithinBatch(s, f) && Batches(s') == Batches(s)
    requires s'.filters == s.filters[i := f]
    ensures AllWithinBatch(s')
  {
    forall k | 0 <= k < |s'.filters|
      ensures WithinBatch(s', s'.filters[k])
    {
      assert WithinBatch(s, s.filters[k]);
    }
  }

  lemma {:induction false} BarrierKeptAt(c: Config, s: State, s': State, i: nat, f: Filter, j: nat)
    requires Shape(c, s) && Shape(c, s') && BarrierTokens(c, s) && i < c.n && j < c.n && Moves(s, s', i, f)
    requires if j == i then s'.barrier[i] + Consumed(c, f) == s.barrier[i] + Consumed(c, s.filters[i])
             else s'.barrier[j] == s.barrier[j] - PostedTo(c, s.filters[i], j) + PostedTo(c, f, j)
    ensures BarrierTokensAt(c, s', j)
  {
    assert BarrierTokensAt(c, s, j);
    PostsMove(c, s.filters, i, f, j);
  }

  lemma {:induction false} BarrierKept(c: Config, s: State, s': State, i: nat, f: Filter)
    requires Shape(c, s) && Shape(c, s') && BarrierTokens(c, s) && i < c.n && Moves(s, s', i, f)
    requires s'.barrier[i] + Consumed(c, f) == s.barrier[i] + Consumed(c, s.filters[i])
    requires forall j {:trigger s.barrier[j]} {:trigger s'.barrier[j]} :: 0 <= j < c.n && j != i ==>
      s'.barrier[j] == s.barrier[j] - PostedTo(c, s.filters[i], j) + PostedTo(c, f, j)
    ensures BarrierTokens(c, s')
  {
    forall j: nat | j < c.n
      ensures BarrierTokensAt(c, s', j)
    {
      BarrierKeptAt(c, s, s', i, f, j);
    }
  }

  lemma {:induction false} InStepKept(c: Config, fs: seq<Filter>, i: nat, f: Filter)
    requires i < |fs| && InStep(c, fs)
    requires Entered(c, fs[i]) <= Entered(c, f) && Completed(c, f) <= Entered(c, f)
    requires forall j {:trigger Entered(c, fs[j])} :: 0 <= j < |fs| && j != i ==> Completed(c, f) <= Entered(c, fs[j])
    ensures InStep(c, fs[i := f])
  {
    var fs' := fs[i := f];
    forall j, k | 0 <= j < |fs| && 0 <= k < |fs|
      ensures Entered(c, fs'[j]) >= Completed(c, fs'[k])
    {
      assert Entered(c, fs[j]) >= Completed(c, fs[k]);
    }
  }

  /** The other filters' outputs are as they were, and filter i keeps its own. */
  lemma {:induction false} DataKept(c: Config, s: State, s': State, i: nat, f: Filter)
    requires Shape(c, s) && Shape(c, s') && Data(c, s) && i < c.n && Moves(s, s', i, f)
    requires s'.inData == s.inData && s'.outData == s.outData
    requires Written(f) == Written(s.filters[i]) && Cleared(f) == Cleared(s.filters[i]) && HasSeen(c, f)
    ensures Data(c, s')
  {
    forall k | 0 <= k < c.n
      ensures OutputHolds(s', k) && HasSeen(c, s'.filters[k])
    {
      assert OutputHolds(s, k) && HasSeen(c, s.filters[k]);
    }
  }

  lemma {:induction false} ControlKept(c: Config, s: State, s': State, i: nat, f: Filter)
    requires i < |s.filters| && Control(c, s) && Moves(s, s', i, f)
    ensures Control(c, s')
  {
  }

  /** A move that keeps the data, the tokens and the filter's place among the barriers keeps everything. */
  lemma {:induction false} MoveKeeps(c: Config, s: State, s': State, i: nat, f: Filter)
    requires Invariant(c, s) && Shape(c, s') && i < c.n && Moves(s, s', i, f) && FilterOk(c, f)
    requires s'.inputToFilter == s.inputToFilter + TakenBy(s.filters[i]) - TakenBy(f)
    requires s'.filterToOutput == s.filterToOutput - s.filters[i].done + f.done
    requires TakenBy(f) <= Batches(s) && s.filters[i].done <= f.done
    requires BarrierTokens(c, s') && InStep(c, s'.filters)
    requires s'.inData == s.inData && s'.outData == s.outData
    requires Written(f) == Written(s.filters[i]) && Cleared(f) == Cleared(s.filters[i]) && HasSeen(c, f)
    ensures Invariant(c, s')
  {
    TokensKept(c, s, s', i, f);
    DataKept(c, s, s', i, f);
    ControlKept(c, s, s', i, f);
  }

  /** A step that posts nothing, takes no barrier token and passes no barrier. */
  lemma {:induction false} NoBarrierMove(c: Config, s: State, s': State, i: nat, f: Filter)
    requires Shape(c, s) && Shape(c, s') && BarrierTokens(c, s) && InStep(c, s.filters) && i < c.n
    requires Moves(s, s', i, f) && s'.barrier == s.barrier
    requires Completed(c, f) == Completed(c, s.filters[i]) && Entered(c, s.filters[i]) <= Entered(c, f)
    requires Consumed(c, f) == Consumed(c, s.filters[i])
    requires forall j {:trigger PostedTo(c, f, j)} :: 0 <= j < c.n ==> PostedTo(c, f, j) == PostedTo(c, s.filters[i], j)
    ensures BarrierTokens(c, s') && InStep(c, s'.filters)
  {
    BarrierKept(c, s, s', i, f);
    forall j | 0 <= j < c.n && j != i
      ensures Completed(c, f) <= Entered(c, s.filters[j])
    {
      assert Entered(c, s.filters[j]) >= Completed(c, s.filters[i]);
    }
    assert Entered(c, s.filters[i]) >= Completed(c, s.filters[i]);
    InStepKept(c, s.filters, i, f);
  }

  /** A filter finds a token only when it has not yet taken one of this batch: another filter that
      had not would still be idle, and could not have entered the barriers this one has passed. */
  lemma {:induction false} OneTokenEach(c: Config, s: State, i: nat)
    requires Invariant(c, s) && i < c.n && s.filters[i].pc == WaitToken && s.inputToFilter > 0
    ensures s.filters[i].done == Batches(s) - 1
  {
    assert TakenBy(s.filters[i]) <= Batches(s) && Batches(s) - 1 <= s.filters[i].done;
    if s.filters[i].done == Batches(s) {
      var k := TotalBelow(Taken(s.filters), Batches(s));
      var f := s.filters[k];
      assert TakenBy(f) <= Batches(s) && Batches(s) - 1 <= f.done;
      assert f.pc == WaitToken && f.done == Batches(s) - 1;
      assert Entered(c, f) >= Completed(c, s.filters[i]);
      RoundsGrow(c, f.done, s.filters[i].done);
    }
  }

  lemma {:induction false} TakeTokenKeeps(c: Config, s: State, i: nat)
    requires Invariant(c, s) && i < c.n && FilterEnabled(c, s, i) && s.filters[i].pc == WaitToken
    ensures Invariant(c, FilterNext(c, s, i))
  {
    var f := s.filters[i];
    var f', s' := f.(pc := Work(0)), FilterNext(c, s, i);
    OneTokenEach(c, s, i);
    NoBarrierMove(c, s, s', i, f');
    assert HasSeen(c, f');
    MoveKeeps(c, s, s', i, f');
  }

  lemma {:induction false} ReachBarrierKeeps(c: Config, s: State, i: nat, seg: nat, seen: nat)
    requires Invariant(c, s) && i < c.n && s.filters[i].pc == Work(seg) && seg < Bars(c, s.filters[i].done)
    requires HasSeen(c, s.filters[i].(pc := PostBarrier(seg, 0), seen := seen))
    ensures Invariant(c, s.(filters := s.filters[i := s.filters[i].(pc := PostBarrier(seg, 0), seen := seen)]))
  {
    var f := s.filters[i];
    var f' := f.(pc := PostBarrier(seg, 0), seen := seen);
    var s' := s.(filters := s.filters[i := f']);
    NoBarrierMove(c, s, s', i, f');
    MoveKeeps(c, s, s', i, f');
  }

  /** A filter at work has a token of the newest batch. */
  lemma {:induction false} AtWork(c: Config, s: State, i: nat)
    requires Invariant(c, s) && i < c.n && s.filters[i].pc != WaitToken
    ensures s.filters[i].done == Batches(s) - 1
  {
    assert TakenBy(s.filters[i]) <= Batches(s) && Batches(s) - 1 <= s.filters[i].done;
  }

  /** The half a filter reads holds the input of its own period. */
  lemma {:induction false} ReadsOwnPeriod(c: Config, s: State, i: nat)
    requires Invariant(c, s) && i < c.n && s.filters[i].pc != WaitToken && s.filters[i].done > 0
    ensures s.filters[i].curbuf < 2 && s.inData[s.filters[i].curbuf] == s.filters[i].done
  {
    AtWork(c, s, i);
    assert FilterOk(c, s.filters[i]);
    var a := s.filters[i].done;
    if s.inPc == Reading {
      assert (a - 1) % 2 == (s.periods + 1) % 2;
    } else {
      assert (a - 1) % 2 == s.periods % 2;
    }
  }

  /** Nothing has been read, and nothing written, while a filter initialises. */
  lemma {:induction false} InitialisingAlone(c: Config, s: State, i: nat, k: nat)
    requires Invariant(c, s) && i < c.n && k < c.n && s.filters[i].pc != WaitToken && s.filters[i].done == 0
    ensures s.periods == 0 && s.inPc != Reading && Collected(s) <= 0
    ensures Written(s.filters[k]) == 0
  {
    AtWork(c, s, i);
    CollectedFinished(c, s, i);
    assert TakenBy(s.filters[k]) <= Batches(s);
  }

  /** The steps that finish an activation's work leave every count as it was. */
  lemma {:induction false} WorkOverKeeps(c: Config, s: State, s': State, i: nat)
    requires Invariant(c, s) && i < c.n && s.filters[i].pc == Work(Bars(c, s.filters[i].done))
    requires Shape(c, s') && Moves(s, s', i, s.filters[i].(pc := PostOutput)) && s'.barrier == s.barrier
    requires s'.inputToFilter == s.inputToFilter && s'.filterToOutput == s.filterToOutput
    requires Data(c, s')
    ensures Invariant(c, s')
  {
    var f' := s.filters[i].(pc := PostOutput);
    TokensKept(c, s, s', i, f');
    NoBarrierMove(c, s, s', i, f');
    ControlKept(c, s, s', i, f');
  }

  lemma {:induction false} ClearKeeps(c: Config, s: State, i: nat)
    requires Invariant(c, s) && i < c.n && s.filters[i].pc == Work(1) && s.filters[i].done == 0
    ensures FilterOk(c, s.filters[i]) && Invariant(c, FilterNext(c, s, i))
  {
    var s' := FilterNext(c, s, i);
    forall k | 0 <= k < c.n
      ensures OutputHolds(s', k) && HasSeen(c, s'.filters[k])
    {
      InitialisingAlone(c, s, i, k);
      assert HasSeen(c, s.filters[k]);
      assert Written(s'.filters[k]) == 0;
    }
    InitialisingAlone(c, s, i, i);
    WorkOverKeeps(c, s, s', i);
  }

  /** Filter i writes the half that the output thread will take next from it. */
  lemma {:induction false} WriteHolds(c: Config, s: State, s': State, i: nat)
    requires Invariant(c, s) && i < c.n && s.filters[i].pc == Work(c.bars) && s.filters[i].done > 0
    requires s.filters[i].curbuf < 2 && Shape(c, s') && s' == WorkDone(c, s, i, c.bars)
    ensures OutputHolds(s', i) && HasSeen(c, s'.filters[i])
  {
    var f := s.filters[i];
    assert FilterOk(c, f) && HasSeen(c, f) && OutputHolds(s, i);
    var w := Written(s'.filters[i]);
    assert w == f.done && Written(f) == w - 1;
    assert f.curbuf == (w + 1) % 2 && (Written(f) + 1) % 2 == w % 2;
    assert w % 2 != (w + 1) % 2;
    assert s'.outData[(w + 1) % 2][i] == w;
    assert s'.outData[w % 2] == s.outData[w % 2];
  }

  /** The output of the other filters is as it was. */
  lemma {:induction false} OthersHold(s: State, s': State, i: nat, k: nat)
    requires |s'.filters| == |s.filters| && k < |s.filters| && k != i && s'.filters[k] == s.filters[k]
    requires |s.outData| == |s'.outData| == 2 && k < |s.outData[0]| && k < |s.outData[1]| && k < |s'.outData[0]|
    requires k < |s'.outData[1]|
    requires s'.outData[0][k] == s.outData[0][k] && s'.outData[1][k] == s.outData[1][k]
    requires OutputHolds(s, k)
    ensures OutputHolds(s', k)
  {
  }

  lemma {:induction false} WriteElsewhere(c: Config, s: State, i: nat, k: nat)
    requires Shape(c, s) && i < c.n && k < c.n && k != i && s.filters[i].curbuf < 2 && s.filters[i].done > 0
    ensures var s' := WorkDone(c, s, i, c.bars);
      && Shape(c, s') && s'.filters[k] == s.filters[k]
      && s'.outData[0][k] == s.outData[0][k] && s'.outData[1][k] == s.outData[1][k]
  {
  }

  lemma {:induction false} WriteData(c: Config, s: State, i: nat)
    requires Invariant(c, s) && i < c.n && s.filters[i].pc == Work(c.bars) && s.filters[i].done > 0
    ensures FilterOk(c, s.filters[i]) && Shape(c, FilterNext(c, s, i)) && Data(c, FilterNext(c, s, i))
  {
    assert FilterOk(c, s.filters[i]);
    var s' := WorkDone(c, s, i, c.bars);
    NextShape(c, s, FilterStep(i));
    WriteHolds(c, s, s', i);
    forall k | 0 <= k < c.n
      ensures OutputHolds(s', k) && HasSeen(c, s'.filters[k])
    {
      if k != i {
        assert OutputHolds(s, k) && HasSeen(c, s.filters[k]);
        WriteElsewhere(c, s, i, k);
        OthersHold(s, s', i, k);
      }
    }
  }

  lemma {:induction false} WriteKeeps(c: Config, s: State, i: nat)
    requires Invariant(c, s) && i < c.n && s.filters[i].pc == Work(c.bars) && s.filters[i].done > 0
    ensures FilterOk(c, s.filters[i]) && Invariant(c, FilterNext(c, s, i))
  {
    WriteData(c, s, i);
    WorkOverKeeps(c, s, FilterNext(c, s, i), i);
  }

  lemma {:induction false} WorkKeeps(c: Config, s: State, i: nat)
    requires Invariant(c, s) && i < c.n && s.filters[i].pc.Work?
    ensures FilterOk(c, s.filters[i]) && Invariant(c, FilterNext(c, s, i))
  {
    var f := s.filters[i];
    assert FilterOk(c, f) && HasSeen(c, f);
    var seg := f.pc.seg;
    if seg == Bars(c, f.done) {
      if f.done == 0 {
        ClearKeeps(c, s, i);
      } else {
        WriteKeeps(c, s, i);
      }
    } else if f.done == 0 {
      ReachBarrierKeeps(c, s, i, seg, f.seen);
    } else {
      ReadsOwnPeriod(c, s, i);
      ReachBarrierKeeps(c, s, i, seg, if seg + 2 == c.bars then s.inData[f.curbuf] else f.seen);
    }
  }

  /** Posting one token, or finding that all are posted. */
  function AfterPost(c: Config, f: Filter): Filter
    requires f.pc.PostBarrier?
  {
    f.(pc := if f.pc.next < c.n then PostBarrier(f.pc.seg, f.pc.next + 1) else TakeBarrier(f.pc.seg, 0))
  }

  lemma {:induction false} PostBarrierKeeps(c: Config, s: State, i: nat)
    requires Shape(c, s) && BarrierTokens(c, s) && InStep(c, s.filters) && i < c.n
    requires s.filters[i].pc.PostBarrier? && FilterOk(c, s.filters[i])
    ensures Shape(c, FilterNext(c, s, i)) && Moves(s, FilterNext(c, s, i), i, AfterPost(c, s.filters[i]))
    ensures BarrierTokens(c, FilterNext(c, s, i)) && InStep(c, FilterNext(c, s, i).filters)
  {
    var s', f' := FilterNext(c, s, i), AfterPost(c, s.filters[i]);
    NextShape(c, s, FilterStep(i));
    assert Completed(c, f') == Completed(c, s.filters[i]) && Entered(c, f') == Entered(c, s.filters[i]);
    BarrierKept(c, s, s', i, f');
    InStepKept(c, s.filters, i, f');
  }

  lemma {:induction false} PostKeeps(c: Config, s: State, i: nat)
    requires Invariant(c, s) && i < c.n && s.filters[i].pc.PostBarrier?
    ensures FilterOk(c, s.filters[i]) && Invariant(c, FilterNext(c, s, i))
  {
    var f := s.filters[i];
    assert FilterOk(c, f) && HasSeen(c, f);
    PostBarrierKeeps(c, s, i);
    MoveKeeps(c, s, FilterNext(c, s, i), i, AfterPost(c, f));
  }

  function AfterTake(f: Filter): Filter
    requires f.pc.TakeBarrier?
  {
    f.(pc := TakeBarrier(f.pc.seg, f.pc.got + 1))
  }

  lemma {:induction false} TakeBarrierKeeps(c: Config, s: State, i: nat)
    requires Shape(c, s) && BarrierTokens(c, s) && InStep(c, s.filters) && i < c.n
    requires s.filters[i].pc.TakeBarrier? && FilterOk(c, s.filters[i]) && FilterEnabled(c, s, i)
    requires s.filters[i].pc.got + 1 < c.n
    ensures Shape(c, FilterNext(c, s, i)) && Moves(s, FilterNext(c, s, i), i, AfterTake(s.filters[i]))
    ensures BarrierTokens(c, FilterNext(c, s, i)) && InStep(c, FilterNext(c, s, i).filters)
  {
    var s', f' := FilterNext(c, s, i), AfterTake(s.filters[i]);
    NextShape(c, s, FilterStep(i));
    assert Completed(c, f') == Completed(c, s.filters[i]) && Entered(c, f') == Entered(c, s.filters[i]);
    BarrierKept(c, s, s', i, f');
    InStepKept(c, s.filters, i, f');
  }

  lemma {:induction false} TakeKeeps(c: Config, s: State, i: nat)
    requires Invariant(c, s) && i < c.n && s.filters[i].pc.TakeBarrier? && FilterEnabled(c, s, i)
    requires s.filters[i].pc.got + 1 < c.n
    ensures FilterOk(c, s.filters[i]) && Invariant(c, FilterNext(c, s, i))
  {
    var f := s.filters[i];
    assert FilterOk(c, f) && HasSeen(c, f);
    TakeBarrierKeeps(c, s, i);
    MoveKeeps(c, s, FilterNext(c, s, i), i, AfterTake(f));
  }

  /** A filter that has not entered round r keeps the others from posting for later rounds. */
  lemma {:induction false} PostsBounded(c: Config, fs: seq<Filter>, i: nat, k: nat, r: int)
    requires InStep(c, fs) && i < |fs| && k < |fs| && k != i && Entered(c, fs[k]) < r
    ensures forall j :: 0 <= j < |fs| && j != i ==> PostsTo(c, fs, i)[j] <= r
    ensures PostsTo(c, fs, i)[k] < r
  {
    forall j | 0 <= j < |fs| && j != i
      ensures PostsTo(c, fs, i)[j] <= r
    {
      assert Entered(c, fs[k]) >= Completed(c, fs[j]);
      assert PostsTo(c, fs, i)[j] == PostedTo(c, fs[j], i);
    }
    assert PostsTo(c, fs, i)[k] <= Entered(c, fs[k]);
  }

  /** The barrier is sound: who has taken n - 1 tokens of a round knows that all have entered it,
      although the tokens are anonymous and a fast filter may already have posted for the next round. */
  lemma {:induction false} AllEntered(c: Config, s: State, i: nat, k: nat)
    requires Invariant(c, s) && i < c.n && k < c.n && s.filters[i].pc.TakeBarrier? && s.filters[i].pc.got + 1 == c.n
    ensures Entered(c, s.filters[k]) >= Completed(c, s.filters[i]) + 1
  {
    RoundEntered(c, s, i, k, PostsTo(c, s.filters, i), Completed(c, s.filters[i]) + 1);
  }

  /** The tokens of round r that filter i has taken came from all the others. */
  lemma {:induction false} RoundEntered(c: Config, s: State, i: nat, k: nat, posts: seq<int>, r: int)
    requires Shape(c, s) && BarrierTokens(c, s) && InStep(c, s.filters) && i < c.n && k < c.n
    requires s.filters[i].pc.TakeBarrier? && s.filters[i].pc.got + 1 == c.n
    requires posts == PostsTo(c, s.filters, i) && r == Completed(c, s.filters[i]) + 1
    ensures Entered(c, s.filters[k]) >= r
  {
    if k != i && Entered(c, s.filters[k]) < r {
      PostsBounded(c, s.filters, i, k, r);
      assert BarrierTokensAt(c, s, i);
      TimesOne(Others(c), r - 1);
      TotalReachedBut(posts, i, r, k);
    }
  }

  /** Leaving a barrier consumes the tokens taken and moves on one round. */
  lemma {:induction false} LeaveCounts(c: Config, f: Filter, f': Filter)
    requires f.pc.TakeBarrier? && f.pc.got + 1 == c.n && f' == f.(pc := Work(f.pc.seg + 1))
    ensures Completed(c, f') == Completed(c, f) + 1 == Entered(c, f') == Entered(c, f)
    ensures Consumed(c, f') == Consumed(c, f)
    ensures forall j :: PostedTo(c, f', j) == PostedTo(c, f, j)
  {
    TimesOne(Others(c), Completed(c, f));
  }

  lemma {:induction false} LeaveBarrierKeeps(c: Config, s: State, i: nat, f': Filter)
    requires Invariant(c, s) && i < c.n && s.filters[i].pc.TakeBarrier? && s.filters[i].pc.got + 1 == c.n
    requires f' == s.filters[i].(pc := Work(s.filters[i].pc.seg + 1))
    ensures Shape(c, s.(filters := s.filters[i := f']))
    ensures BarrierTokens(c, s.(filters := s.filters[i := f'])) && InStep(c, s.filters[i := f'])
  {
    var s' := s.(filters := s.filters[i := f']);
    LeaveCounts(c, s.filters[i], f');
    forall j | 0 <= j < c.n && j != i
      ensures Completed(c, f') <= Entered(c, s.filters[j])
    {
      AllEntered(c, s, i, j);
    }
    BarrierKept(c, s, s', i, f');
    InStepKept(c, s.filters, i, f');
  }

  lemma {:induction false} LeaveKeeps(c: Config, s: State, i: nat)
    requires Invariant(c, s) && i < c.n && s.filters[i].pc.TakeBarrier? && s.filters[i].pc.got + 1 == c.n
    ensures FilterOk(c, s.filters[i]) && Invariant(c, FilterNext(c, s, i))
  {
    var f := s.filters[i];
    assert FilterOk(c, f) && HasSeen(c, f);
    var f' := f.(pc := Work(f.pc.seg + 1));
    LeaveBarrierKeeps(c, s, i, f');
    MoveKeeps(c, s, FilterNext(c, s, i), i, f');
  }

  /** Finishing an activation enters the next with the same rounds behind. */
  lemma {:induction false} FinishCounts(c: Config, f: Filter, f': Filter)
    requires f.pc == PostOutput && f'.pc == WaitToken && f'.done == f.done + 1
    ensures Completed(c, f') == Completed(c, f) == Entered(c, f') == Entered(c, f)
    ensures Consumed(c, f') == Consumed(c, f)
    ensures forall j :: PostedTo(c, f', j) == PostedTo(c, f, j)
  {
    RoundsStep(c, f.done);
  }

  function AfterFinish(f: Filter): Filter
    requires f.curbuf < 2
  {
    f.(pc := WaitToken, curbuf := if f.done == 0 then f.curbuf else 1 - f.curbuf, done := f.done + 1)
  }

  lemma {:induction false} FinishBarrierKeeps(c: Config, s: State, i: nat)
    requires Shape(c, s) && BarrierTokens(c, s) && InStep(c, s.filters) && i < c.n
    requires s.filters[i].pc == PostOutput && FilterOk(c, s.filters[i])
    ensures Shape(c, FilterNext(c, s, i)) && Moves(s, FilterNext(c, s, i), i, AfterFinish(s.filters[i]))
    ensures BarrierTokens(c, FilterNext(c, s, i)) && InStep(c, FilterNext(c, s, i).filters)
  {
    var s', f' := FilterNext(c, s, i), AfterFinish(s.filters[i]);
    NextShape(c, s, FilterStep(i));
    FinishCounts(c, s.filters[i], f');
    NoBarrierMove(c, s, s', i, f');
  }

  lemma {:induction false} FinishOk(c: Config, f: Filter)
    requires FilterOk(c, f) && f.pc == PostOutput
    ensures var g := AfterFinish(f);
      && FilterOk(c, g) && HasSeen(c, g) && Written(g) == Written(f) && Cleared(g) && Cleared(f)
      && TakenBy(g) == TakenBy(f)
  {
  }

  lemma {:induction false} FinishKeeps(c: Config, s: State, i: nat)
    requires Invariant(c, s) && i < c.n && s.filters[i].pc == PostOutput
    ensures FilterOk(c, s.filters[i]) && Invariant(c, FilterNext(c, s, i))
  {
    var f := s.filters[i];
    assert FilterOk(c, f) && HasSeen(c, f);
    assert TakenBy(f) <= Batches(s);
    FinishOk(c, f);
    FinishBarrierKeeps(c, s, i);
    MoveKeeps(c, s, FilterNext(c, s, i), i, AfterFinish(f));
  }

  /** Every step of every thread keeps the invariant. */
  lemma {:induction false} StepKeeps(c: Config, s: State, step: Step)
    requires Invariant(c, s) && Enabled(c, s, step)
    ensures Invariant(c, Next(c, s, step))
  {
    match step
    case Input => InputKeeps(c, s);
    case Output => OutputKeeps(c, s);
    case FilterStep(i) =>
      match s.filters[i].pc
      case WaitToken => TakeTokenKeeps(c, s, i);
      case Work(_) => WorkKeeps(c, s, i);
      case PostBarrier(_, _) => PostKeeps(c, s, i);
      case TakeBarrier(_, got) =>
        assert FilterOk(c, s.filters[i]);
        if got + 1 < c.n {
          TakeKeeps(c, s, i);
        } else {
          LeaveKeeps(c, s, i);
        }
      case PostOutput => FinishKeeps(c, s, i);
  }
}
