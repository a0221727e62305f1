/** The blocking pipeline: input thread, filter threads and output thread over counting semaphores.

    Each step is one semaphore operation or one stretch of work; threads interleave freely. The
    counts `periods`, `written` and `done` are history: no step is decided by them except that the
    first activation of a filter is its initialisation. */
module Pipeline {
  /** `bars`: barriers in one period, two or three. `synched`: two silent halves precede the first period. */
  datatype Config = Config(n: nat, bars: nat, synched: bool)
  {
    ghost predicate Valid() {
      0 < n && 2 <= bars <= 3
    }
  }

  datatype InputPc = PostInit | PostSync | WaitStart | Reading | WaitOutput | PostFilters

  /** Work(k): the work before barrier k, or after the last one. PostBarrier(k, next): posting to the
      others one by one. TakeBarrier(k, got): taking their posts one by one. */
  datatype FilterPc =
    | WaitToken
    | Work(seg: nat)
    | PostBarrier(seg: nat, next: nat)
    | TakeBarrier(seg: nat, got: nat)
    | PostOutput

  datatype OutputPc =
    | TakeInit(got: nat)
    | WaitSync
    | FillFirst
    | FillFirstPosted
    | PostSecond
    | FillSecond
    | StartFirst
    | StartSecond
    | Take(got: nat)
    | PostInput
    | Writing

  /** `seen`: the period whose input the filter has read; `done`: activations finished, initialisation included. */
  datatype Filter = Filter(pc: FilterPc, curbuf: nat, seen: nat, done: nat)

  /** Halves hold the number of the period whose data they contain; 0 is silence. An output half
      holds one number for each filter thread's channels. */
  datatype State = State(
    inPc: InputPc, inBuf: nat, periods: nat,
    outPc: OutputPc, outBuf: nat, written: nat,
    filters: seq<Filter>,
    inputToFilter: nat, filterToOutput: nat, outputToInput: nat, sync: nat, barrier: seq<nat>,
    inData: seq<nat>, outData: seq<seq<nat>>)

  ghost predicate Shape(c: Config, s: State) {
    && |s.filters| == c.n && |s.barrier| == c.n
    && |s.inData| == 2 && |s.outData| == 2 && |s.outData[0]| == c.n && |s.outData[1]| == c.n
    && s.inBuf < 2 && s.outBuf < 2
  }

  ghost predicate Init(c: Config, s: State) {
    && Shape(c, s)
    && s.inPc == PostInit && s.inBuf == 0 && s.periods == 0
    && s.outPc == TakeInit(0) && s.outBuf == 0 && s.written == 0
    && (forall i :: 0 <= i < c.n ==> s.filters[i].pc == WaitToken && s.filters[i].curbuf == 0 && s.filters[i].done == 0)
    && s.inputToFilter == 0 && s.filterToOutput == 0 && s.outputToInput == 0 && s.sync == 0
    && (forall i :: 0 <= i < c.n ==> s.barrier[i] == 0)
  }

  // ----- steps -----

  datatype Step = Input | Output | FilterStep(i: nat)

  predicate InputEnabled(s: State) {
    s.inPc == WaitStart || s.inPc == WaitOutput ==> s.outputToInput > 0
  }

  function InputNext(c: Config, s: State): State
    requires InputEnabled(s) && |s.inData| == 2 && s.inBuf < 2
  {
    match s.inPc
    case PostInit => s.(inputToFilter := s.inputToFilter + c.n, inPc := PostSync)
    case PostSync => s.(sync := s.sync + 1, inPc := WaitStart)
    case WaitStart => s.(outputToInput := s.outputToInput - 1, inPc := Reading)
    case Reading =>
      s.(inData := s.inData[s.inBuf := s.periods + 1], inBuf := 1 - s.inBuf, periods := s.periods + 1,
         inPc := WaitOutput)
    case WaitOutput => s.(outputToInput := s.outputToInput - 1, inPc := PostFilters)
    case PostFilters => s.(inputToFilter := s.inputToFilter + c.n, inPc := Reading)
  }

  predicate OutputEnabled(c: Config, s: State) {
    match s.outPc
    case TakeInit(got) => got < c.n ==> s.filterToOutput > 0
    case WaitSync => s.sync > 0
    case Take(got) => got < c.n ==> s.filterToOutput > 0
    case _ => true
  }

  function OutputNext(c: Config, s: State): State
    requires OutputEnabled(c, s) && s.outBuf < 2
  {
    match s.outPc
    case TakeInit(got) =>
      if got < c.n then s.(filterToOutput := s.filterToOutput - 1, outPc := TakeInit(got + 1))
      else s.(outPc := WaitSync)
    case WaitSync => s.(sync := s.sync - 1, outPc := if c.synched then FillFirst else StartFirst)
    case FillFirst => s.(outputToInput := s.outputToInput + 1, outPc := FillFirstPosted)
    case FillFirstPosted => s.(outBuf := 1 - s.outBuf, outPc := PostSecond)
    case PostSecond => s.(outputToInput := s.outputToInput + 1, outPc := FillSecond)
    case FillSecond => s.(outBuf := 1 - s.outBuf, outPc := Take(0))
    case StartFirst => s.(outputToInput := s.outputToInput + 1, outPc := StartSecond)
    case StartSecond => s.(outputToInput := s.outputToInput + 1, outPc := Take(0))
    case Take(got) =>
      if got < c.n then s.(filterToOutput := s.filterToOutput - 1, outPc := Take(got + 1)) else s.(outPc := PostInput)
    case PostInput => s.(outputToInput := s.outputToInput + 1, outPc := Writing)
    case Writing => s.(outBuf := 1 - s.outBuf, written := s.written + 1, outPc := Take(0))
  }

  /** Barriers of an activation: the first one, initialisation, has a single barrier. */
  function Bars(c: Config, done: nat): nat {
    if done == 0 then 1 else c.bars
  }

  predicate FilterEnabled(c: Config, s: State, i: nat)
    requires |s.filters| == |s.barrier| == c.n && i < c.n
  {
    match s.filters[i].pc
    case WaitToken => s.inputToFilter > 0
    case TakeBarrier(seg, got) => got + 1 < c.n ==> s.barrier[i] > 0
    case _ => true
  }

  function Silence(n: nat): (z: seq<seq<nat>>)
    ensures |z| == 2 && |z[0]| == |z[1]| == n && forall i :: 0 <= i < n ==> z[0][i] == 0 && z[1][i] == 0
  {
    [seq(n, _ => 0), seq(n, _ => 0)]
  }

  function Put(xs: seq<nat>, i: nat, v: nat): (ys: seq<nat>)
    requires i < |xs|
    ensures |ys| == |xs| && forall k :: 0 <= k < |xs| ==> ys[k] == (if k == i then v else xs[k])
  {
    xs[i := v]
  }

  /** End of a stretch of work. Initialisation clears every half; in a period the input half is read
      before the barrier that precedes filtering, and the output half is written after the last one. */
  function WorkDone(c: Config, s: State, i: nat, seg: nat): State
    requires i < c.n == |s.filters| && |s.inData| == 2 && |s.outData| == 2 && |s.outData[0]| == |s.outData[1]| == c.n
    requires s.filters[i].curbuf < 2
  {
    var f := s.filters[i];
    if f.done == 0 then
      if seg < 1 then s.(filters := s.filters[i := f.(pc := PostBarrier(seg, 0))])
      else s.(filters := s.filters[i := f.(pc := PostOutput)], inData := [0, 0], outData := Silence(c.n))
    else if seg < c.bars then
      var seen := if seg + 2 == c.bars then s.inData[f.curbuf] else f.seen;
      s.(filters := s.filters[i := f.(pc := PostBarrier(seg, 0), seen := seen)])
    else
      s.(filters := s.filters[i := f.(pc := PostOutput)],
         outData := s.outData[f.curbuf := Put(s.outData[f.curbuf], i, f.seen)])
  }

  function FilterNext(c: Config, s: State, i: nat): State
    requires Shape(c, s) && i < c.n && FilterEnabled(c, s, i) && s.filters[i].curbuf < 2
  {
    var f := s.filters[i];
    match f.pc
    case WaitToken => s.(inputToFilter := s.inputToFilter - 1, filters := s.filters[i := f.(pc := Work(0))])
    case Work(seg) => WorkDone(c, s, i, seg)
    case PostBarrier(seg, next) =>
      if next < c.n then
        s.(barrier := if next == i then s.barrier else s.barrier[next := s.barrier[next] + 1],
           filters := s.filters[i := f.(pc := PostBarrier(seg, next + 1))])
      else s.(filters := s.filters[i := f.(pc := TakeBarrier(seg, 0))])
    case TakeBarrier(seg, got) =>
      if got + 1 < c.n then
        var left: nat := s.barrier[i] - 1;
        s.(barrier := s.barrier[i := left], filters := s.filters[i := f.(pc := TakeBarrier(seg, got + 1))])
      else s.(filters := s.filters[i := f.(pc := Work(seg + 1))])
    case PostOutput =>
      s.(filterToOutput := s.filterToOutput + 1,
         filters := s.filters[i := f.(pc := WaitToken,
                                      curbuf := if f.done == 0 then f.curbuf else 1 - f.curbuf, done := f.done + 1)])
  }

  ghost predicate Enabled(c: Config, s: State, step: Step)
    requires Shape(c, s)
  {
    match step
    case Input => InputEnabled(s)
    case Output => OutputEnabled(c, s)
    case FilterStep(i) => i < c.n && FilterEnabled(c, s, i) && s.filters[i].curbuf < 2
  }

  ghost function Next(c: Config, s: State, step: Step): State
    requires Shape(c, s) && Enabled(c, s, step)
  {
    match step
    case Input => InputNext(c, s)
    case Output => OutputNext(c, s)
    case FilterStep(i) => FilterNext(c, s, i)
  }

  lemma {:induction false} NextShape(c: Config, s: State, step: Step)
    requires Shape(c, s) && Enabled(c, s, step)
    ensures Shape(c, Next(c, s, step))
  {
  }
}
