/** The graph of filters: links between them, the loop check, and the processing order. */
module FilterGraph {
  import opened Sequences

  /** Filters read from, filters written to, and output channels written to. */
  datatype Node = Node(inputs: seq<nat>, outputs: seq<nat>, channels: seq<nat>)

  type Graph = seq<Node>

  ghost predicate InRange(g: Graph) {
    forall i :: 0 <= i < |g| ==>
      (forall k :: k in g[i].inputs ==> k < |g|) && (forall k :: k in g[i].outputs ==> k < |g|)
  }

  /** Every link is named at both of its ends. */
  ghost predicate Symmetric(g: Graph) {
    forall i, k {:trigger k in g[i].outputs} {:trigger i in g[k].inputs} ::
      0 <= i < |g| && 0 <= k < |g| ==> (k in g[i].outputs <==> i in g[k].inputs)
  }

  ghost predicate WellFormed(g: Graph) {
    InRange(g) && Symmetric(g)
  }

  predicate Edge(g: Graph, i: nat, k: nat) {
    i < |g| && k < |g| && k in g[i].outputs
  }

  /** Filters visited by following links forwards. */
  ghost predicate Walk(g: Graph, w: seq<nat>) {
    && |w| > 0 && (forall j :: 0 <= j < |w| ==> w[j] < |g|)
    && forall j {:trigger w[j]} :: 0 <= j < |w| - 1 ==> Edge(g, w[j], w[j + 1])
  }

  ghost predicate WalkFrom(g: Graph, w: seq<nat>, i: nat, k: nat) {
    |w| >= 2 && Walk(g, w) && w[0] == i && w[|w| - 1] == k
  }

  /** k can be reached from i over one link or more. */
  ghost predicate Reaches(g: Graph, i: nat, k: nat) {
    exists w :: WalkFrom(g, w, i, k)
  }

  ghost predicate Acyclic(g: Graph) {
    forall i: nat :: i < |g| ==> !Reaches(g, i, i)
  }

  lemma {:induction false} ReachesEdge(g: Graph, i: nat, k: nat)
    requires Edge(g, i, k)
    ensures Reaches(g, i, k)
  {
    assert WalkFrom(g, [i, k], i, k);
  }

  lemma {:induction false} ReachesStep(g: Graph, i: nat, m: nat, k: nat)
    requires Edge(g, i, m) && Reaches(g, m, k)
    ensures Reaches(g, i, k)
  {
    var w :| WalkFrom(g, w, m, k);
    var w' := [i] + w;
    WalkPrepend(g, i, w);
    assert WalkFrom(g, w', i, k);
  }

  lemma {:induction false} WalkPrepend(g: Graph, m: nat, v: seq<nat>)
    requires Walk(g, v) && Edge(g, m, v[0])
    ensures Walk(g, [m] + v)
  {
    var w := [m] + v;
    forall j | 0 <= j < |w| - 1
      ensures Edge(g, w[j], w[j + 1])
    {
      if j > 0 {
        assert Edge(g, v[j - 1], v[j]);
      }
    }
  }

  lemma {:induction false} WalkSlice(g: Graph, w: seq<nat>, a: nat, b: nat)
    requires Walk(g, w) && a < b < |w|
    ensures Reaches(g, w[a], w[b])
  {
    WalkPart(g, w, a, b + 1);
    assert WalkFrom(g, w[a..b + 1], w[a], w[b]);
  }

  lemma {:induction false} WalkPart(g: Graph, w: seq<nat>, a: nat, b: nat)
    requires Walk(g, w) && a < b <= |w|
    ensures Walk(g, w[a..b])
  {
    var v := w[a..b];
    forall j | 0 <= j < |v| - 1
      ensures Edge(g, v[j], v[j + 1])
    {
      StepOf(g, w, a + j);
    }
  }

  lemma {:induction false} StepOf(g: Graph, w: seq<nat>, j: nat)
    requires Walk(g, w) && j + 1 < |w|
    ensures w[j] < |g| && w[j + 1] < |g| && Edge(g, w[j], w[j + 1])
  {
  }

  // ----- walks in an acyclic graph are short -----

  lemma {:induction false} ShortWalks(g: Graph, w: seq<nat>)
    requires Acyclic(g) && Walk(g, w)
    ensures |w| <= |g|
  {
    if |w| > |g| {
      var i, j := Pigeonhole(w, |g|);
      WalkSlice(g, w, i, j);
    }
  }

  // ----- the loop check -----

  datatype Answer = Yes | No | NoAnswer

  /** The recursive search for `source` among the filters behind `at`. It has no visited set and need not
      end on a cyclic graph: NoAnswer when the recursion is deeper than `depth`. */
  function FilterLoop(g: Graph, source: nat, at: nat, depth: nat): (a: Answer)
    requires InRange(g) && at < |g|
    decreases depth, 1, 0
  {
    if depth == 0 then NoAnswer else LoopScan(g, source, at, 0, depth)
  }

  function LoopScan(g: Graph, source: nat, at: nat, n: nat, depth: nat): (a: Answer)
    requires InRange(g) && at < |g| && n <= |g[at].outputs| && 0 < depth
    decreases depth, 0, |g[at].outputs| - n
  {
    if n == |g[at].outputs| then No
    else if g[at].outputs[n] == source then Yes
    else
      assert g[at].outputs[n] in g[at].outputs;
      var a := FilterLoop(g, source, g[at].outputs[n], depth - 1);
      if a == No then LoopScan(g, source, at, n + 1, depth) else a
  }

  lemma {:induction false} LoopScanYes(g: Graph, source: nat, at: nat, n: nat, depth: nat)
    requires InRange(g) && source < |g| && at < |g| && n <= |g[at].outputs| && 0 < depth
    requires LoopScan(g, source, at, n, depth) == Yes
    ensures Reaches(g, at, source)
    decreases depth, |g[at].outputs| - n
  {
    var k := g[at].outputs[n];
    assert k in g[at].outputs;
    if k == source {
      ReachesEdge(g, at, k);
    } else if FilterLoop(g, source, k, depth - 1) == Yes {
      LoopScanYes(g, source, k, 0, depth - 1);
      ReachesStep(g, at, k, source);
    } else {
      LoopScanYes(g, source, at, n + 1, depth);
    }
  }

  lemma {:induction false} LoopScanNo(g: Graph, source: nat, at: nat, n: nat, depth: nat, m: nat)
    requires InRange(g) && at < |g| && n <= m < |g[at].outputs| && 0 < depth
    requires LoopScan(g, source, at, n, depth) == No
    ensures g[at].outputs[m] != source && g[at].outputs[m] < |g|
    ensures FilterLoop(g, source, g[at].outputs[m], depth - 1) == No
    decreases m - n
  {
    assert g[at].outputs[n] in g[at].outputs;
    if n < m {
      LoopScanNo(g, source, at, n + 1, depth, m);
    }
  }

  /** The answer no is right: no walk leads to the source. */
  lemma {:induction false} LoopNo(g: Graph, source: nat, at: nat, depth: nat, w: seq<nat>)
    requires InRange(g) && at < |g| && FilterLoop(g, source, at, depth) == No
    ensures !WalkFrom(g, w, at, source)
    decreases |w|
  {
    if WalkFrom(g, w, at, source) {
      assert Edge(g, w[0], w[1]);
      var m :| 0 <= m < |g[at].outputs| && g[at].outputs[m] == w[1];
      LoopScanNo(g, source, at, 0, depth, m);
      if |w| > 2 {
        WalkPart(g, w, 1, |w|);
        assert WalkFrom(g, w[1..], w[1], source);
        LoopNo(g, source, w[1], depth - 1, w[1..]);
      }
    }
  }

  /** Partial correctness on any graph: an answer, if there is one, tells whether the source can be reached. */
  lemma {:induction false} FilterLoopCorrect(g: Graph, source: nat, at: nat, depth: nat)
    requires InRange(g) && source < |g| && at < |g| && FilterLoop(g, source, at, depth) != NoAnswer
    ensures FilterLoop(g, source, at, depth) == Yes <==> Reaches(g, at, source)
  {
    if FilterLoop(g, source, at, depth) == Yes {
      LoopScanYes(g, source, at, 0, depth);
    } else if Reaches(g, at, source) {
      var w :| WalkFrom(g, w, at, source);
      LoopNo(g, source, at, depth, w);
    }
  }

  /** A search without answer has followed a walk as long as its depth. */
  lemma {:induction false} NoAnswerWalk(g: Graph, source: nat, at: nat, n: nat, depth: nat) returns (w: seq<nat>)
    requires InRange(g) && at < |g| && 0 < depth && n <= |g[at].outputs|
    requires LoopScan(g, source, at, n, depth) == NoAnswer
    ensures Walk(g, w) && w[0] == at && |w| == depth + 1
    decreases depth, |g[at].outputs| - n
  {
    var k := g[at].outputs[n];
    assert k in g[at].outputs;
    if FilterLoop(g, source, k, depth - 1) == NoAnswer {
      var v := [k];
      if depth > 1 {
        v := NoAnswerWalk(g, source, k, 0, depth - 1);
      }
      w := [at] + v;
      WalkPrepend(g, at, v);
    } else {
      w := NoAnswerWalk(g, source, at, n + 1, depth);
    }
  }

  /** An answer does not depend on the depth at which the search would have been given up. */
  lemma {:induction false} DeeperScan(g: Graph, source: nat, at: nat, n: nat, depth: nat, deeper: nat)
    requires InRange(g) && at < |g| && n <= |g[at].outputs| && 0 < depth <= deeper
    requires LoopScan(g, source, at, n, depth) != NoAnswer
    ensures LoopScan(g, source, at, n, deeper) == LoopScan(g, source, at, n, depth)
    decreases depth, |g[at].outputs| - n
  {
    if n < |g[at].outputs| && g[at].outputs[n] != source {
      var k := g[at].outputs[n];
      assert k in g[at].outputs;
      assert FilterLoop(g, source, k, depth - 1) != NoAnswer;
      DeeperScan(g, source, k, 0, depth - 1, deeper - 1);
      if FilterLoop(g, source, k, depth - 1) == No {
        DeeperScan(g, source, at, n + 1, depth, deeper);
      }
    }
  }

  /** A cycle can be reached. */
  ghost predicate CycleAhead(g: Graph, at: nat) {
    exists c: nat :: c < |g| && (c == at || Reaches(g, at, c)) && Reaches(g, c, c)
  }

  /** The search follows every walk before it answers no. */
  lemma {:induction false} NoAlong(g: Graph, source: nat, depth: nat, w: seq<nat>)
    requires InRange(g) && Walk(g, w) && FilterLoop(g, source, w[0], depth) == No
    ensures |w| <= depth && FilterLoop(g, source, w[|w| - 1], depth + 1 - |w|) == No
    decreases |w|
  {
    if |w| > 1 {
      assert Edge(g, w[0], w[1]);
      var m :| 0 <= m < |g[w[0]].outputs| && g[w[0]].outputs[m] == w[1];
      LoopScanNo(g, source, w[0], 0, depth, m);
      WalkPart(g, w, 1, |w|);
      NoAlong(g, source, depth - 1, w[1..]);
    }
  }

  lemma {:induction false} CycleNeverNo(g: Graph, source: nat, c: nat, depth: nat)
    requires InRange(g) && c < |g| && Reaches(g, c, c)
    ensures FilterLoop(g, source, c, depth) != No
    decreases depth
  {
    if FilterLoop(g, source, c, depth) == No {
      var w :| WalkFrom(g, w, c, c);
      NoAlong(g, source, depth, w);
      CycleNeverNo(g, source, c, depth + 1 - |w|);
    }
  }

  /** Where no cycle can be reached the search ends, at a depth of at most the number of filters. */
  lemma {:induction false} FilterLoopEnds(g: Graph, source: nat, at: nat)
    requires InRange(g) && at < |g| && !CycleAhead(g, at)
    ensures FilterLoop(g, source, at, |g|) != NoAnswer
  {
    if FilterLoop(g, source, at, |g|) == NoAnswer {
      var w := NoAnswerWalk(g, source, at, 0, |g|);
      var i, j := Pigeonhole(w, |g|);
      WalkSlice(g, w, i, j);
      if i > 0 {
        WalkSlice(g, w, 0, i);
      }
    }
  }

  /** Exactly when the search ends with no: the source is out of reach, and so is every cycle. */
  lemma {:induction false} EndsWithNo(g: Graph, source: nat, at: nat)
    requires InRange(g) && source < |g| && at < |g|
    ensures (exists depth: nat :: FilterLoop(g, source, at, depth) == No)
         <==> !Reaches(g, at, source) && !CycleAhead(g, at)
  {
    if depth: nat :| FilterLoop(g, source, at, depth) == No {
      FilterLoopCorrect(g, source, at, depth);
      if CycleAhead(g, at) {
        var c: nat :| c < |g| && (c == at || Reaches(g, at, c)) && Reaches(g, c, c);
        if c == at {
          CycleNeverNo(g, source, c, depth);
        } else {
          var w :| WalkFrom(g, w, at, c);
          NoAlong(g, source, depth, w);
          CycleNeverNo(g, source, c, depth + 1 - |w|);
        }
      }
    }
    if !Reaches(g, at, source) && !CycleAhead(g, at) {
      FilterLoopEnds(g, source, at);
      FilterLoopCorrect(g, source, at, |g|);
    }
  }

  /** Filter 0 feeds filters 1 and 2, which feed each other. */
  function LoopBehind(): Graph {
    [Node([], [1], []), Node([0, 2], [2], []), Node([1], [1], [])]
  }

  /** The loop check does not end on every graph that it is there to refuse: the search for filter 0 behind itself
      goes round the loop for ever. */
  lemma {:induction false} LoopCheckDiverges(depth: nat)
    ensures WellFormed(LoopBehind()) && !Acyclic(LoopBehind())
    ensures FilterLoop(LoopBehind(), 0, 0, depth) == NoAnswer
  {
    RoundTheLoop(0, depth);
    LoopBehindIsCyclic();
  }

  lemma {:induction false} RoundTheLoop(at: nat, depth: nat)
    requires at < 3
    ensures InRange(LoopBehind()) && FilterLoop(LoopBehind(), 0, at, depth) == NoAnswer
    decreases depth
  {
    if depth > 0 {
      RoundTheLoop(if at == 1 then 2 else 1, depth - 1);
    }
  }

  lemma {:induction false} LoopBehindIsCyclic()
    ensures WellFormed(LoopBehind()) && !Acyclic(LoopBehind())
  {
    var g := LoopBehind();
    assert Edge(g, 2, 1) && Edge(g, 1, 2);
    ReachesEdge(g, 2, 1);
    ReachesStep(g, 1, 2, 1);
  }

  /** The search for the source does not end with no at filter k, or k is the source itself. */
  ghost predicate Open(g: Graph, source: nat, k: nat) {
    k == source || Reaches(g, k, source) || CycleAhead(g, k)
  }

  /** Output m is the first one of its filter that is open. */
  ghost predicate FirstOpen(g: Graph, source: nat, at: nat, m: nat) {
    && at < |g| && m < |g[at].outputs| && Open(g, source, g[at].outputs[m])
    && forall j {:trigger g[at].outputs[j]} :: 0 <= j < m ==> !Open(g, source, g[at].outputs[j])
  }

  /** Taking the first open output at every step leads to the source. */
  ghost predicate Led(g: Graph, source: nat, w: seq<nat>) {
    && |w| >= 2 && w[|w| - 1] == source
    && forall j {:trigger StepTaken(g, source, w, j)} :: 0 <= j < |w| - 1 ==> StepTaken(g, source, w, j)
  }

  ghost predicate StepTaken(g: Graph, source: nat, w: seq<nat>, j: nat)
    requires j + 1 < |w|
  {
    (j > 0 ==> w[j] != source) && Leads(g, source, w[j], w[j + 1])
  }

  ghost predicate Leads(g: Graph, source: nat, i: nat, k: nat) {
    exists m: nat :: FirstOpen(g, source, i, m) && g[i].outputs[m] == k
  }

  /** An output that is not open is searched and left behind. */
  lemma {:induction false} ClosedEndsWithNo(g: Graph, source: nat, k: nat, depth: nat)
    requires InRange(g) && source < |g| && k < |g| && !Open(g, source, k) && |g| <= depth
    ensures FilterLoop(g, source, k, depth) == No
  {
    FilterLoopEnds(g, source, k);
    FilterLoopCorrect(g, source, k, |g|);
    DeeperScan(g, source, k, 0, |g|, depth);
  }

  lemma {:induction false} OutputInRange(g: Graph, at: nat, m: nat)
    requires InRange(g) && at < |g| && m < |g[at].outputs|
    ensures g[at].outputs[m] < |g|
  {
    assert g[at].outputs[m] in g[at].outputs;
  }

  /** The scan comes to the first open output and answers what is found there. */
  lemma {:induction false} ScanToOpen(g: Graph, source: nat, at: nat, n: nat, m: nat, depth: nat)
    requires InRange(g) && source < |g| && FirstOpen(g, source, at, m) && n <= m && |g| < depth
    requires g[at].outputs[m] < |g|
    requires g[at].outputs[m] == source || FilterLoop(g, source, g[at].outputs[m], depth - 1) == Yes
    ensures LoopScan(g, source, at, n, depth) == Yes
    decreases m - n
  {
    OutputInRange(g, at, n);
    if n < m {
      ClosedEndsWithNo(g, source, g[at].outputs[n], depth - 1);
      ScanToOpen(g, source, at, n + 1, m, depth);
    }
  }

  lemma {:induction false} LedTail(g: Graph, source: nat, w: seq<nat>)
    requires Led(g, source, w) && |w| > 2
    ensures Led(g, source, w[1..])
  {
    forall j: nat | j < |w| - 2
      ensures StepTaken(g, source, w[1..], j)
    {
      assert StepTaken(g, source, w, j + 1);
    }
  }

  /** Where the first open outputs lead to the source the search answers yes. */
  lemma {:induction false} LedEndsWithYes(g: Graph, source: nat, w: seq<nat>) returns (depth: nat)
    requires InRange(g) && source < |g| && Led(g, source, w)
    ensures |g| <= depth && w[0] < |g| && FilterLoop(g, source, w[0], depth) == Yes
    decreases |w|
  {
    assert StepTaken(g, source, w, 0);
    var m: nat :| FirstOpen(g, source, w[0], m) && g[w[0]].outputs[m] == w[1];
    OutputInRange(g, w[0], m);
    depth := |g| + 1;
    if |w| > 2 {
      assert StepTaken(g, source, w, 1);
      LedTail(g, source, w);
      var d := LedEndsWithYes(g, source, w[1..]);
      depth := d + 1;
    }
    ScanToOpen(g, source, w[0], 0, m, depth);
  }

  lemma {:induction false} LedPrepend(g: Graph, source: nat, at: nat, m: nat, w: seq<nat>)
    requires FirstOpen(g, source, at, m) && |w| > 0 && g[at].outputs[m] == w[0]
    requires w == [source] || (w[0] != source && Led(g, source, w))
    ensures Led(g, source, [at] + w)
  {
    var v := [at] + w;
    forall j: nat | j < |v| - 1
      ensures StepTaken(g, source, v, j)
    {
      if j > 0 {
        assert StepTaken(g, source, w, j - 1);
      } else {
        assert Leads(g, source, at, w[0]);
      }
    }
  }

  /** An answer yes has followed the first open outputs to the source. */
  lemma {:induction false} YesIsLed(g: Graph, source: nat, at: nat, n: nat, depth: nat) returns (w: seq<nat>)
    requires InRange(g) && source < |g| && at < |g| && n <= |g[at].outputs| && 0 < depth
    requires LoopScan(g, source, at, n, depth) == Yes
    requires forall j {:trigger g[at].outputs[j]} :: 0 <= j < n ==> !Open(g, source, g[at].outputs[j])
    ensures Led(g, source, w) && w[0] == at
    decreases depth, |g[at].outputs| - n
  {
    var k := g[at].outputs[n];
    OutputInRange(g, at, n);
    if k == source {
      LedPrepend(g, source, at, n, [source]);
      w := [at] + [source];
    } else if FilterLoop(g, source, k, depth - 1) == Yes {
      FilterLoopCorrect(g, source, k, depth - 1);
      var v := YesIsLed(g, source, k, 0, depth - 1);
      LedPrepend(g, source, at, n, v);
      w := [at] + v;
    } else {
      EndsWithNo(g, source, k);
      assert FilterLoop(g, source, k, depth - 1) == No;
      assert !Open(g, source, g[at].outputs[n]);
      w := YesIsLed(g, source, at, n + 1, depth);
    }
  }

  /** Exactly when the search ends with yes: the first open outputs lead to the source. */
  lemma {:induction false} EndsWithYes(g: Graph, source: nat, at: nat)
    requires InRange(g) && source < |g| && at < |g|
    ensures (exists depth: nat :: FilterLoop(g, source, at, depth) == Yes)
       <==> exists w :: Led(g, source, w) && w[0] == at
  {
    if depth: nat :| FilterLoop(g, source, at, depth) == Yes {
      var w := YesIsLed(g, source, at, 0, depth);
      assert Led(g, source, w) && w[0] == at;
    }
    if w :| Led(g, source, w) && w[0] == at {
      var depth := LedEndsWithYes(g, source, w);
      assert FilterLoop(g, source, at, depth) == Yes;
    }
  }

  // ----- the whole check -----

  /** The check refuses the graph at filter n: the searches for the filters before it have ended with no. */
  ghost predicate RefusedAt(g: Graph, n: nat, depth: nat)
    requires InRange(g)
  {
    && n < |g| && FilterLoop(g, n, n, depth) == Yes
    && forall j {:trigger FilterLoop(g, j, j, depth)} :: 0 <= j < n ==> FilterLoop(g, j, j, depth) == No
  }

  /** The first filter from which a cycle can be reached. */
  ghost predicate FirstLooping(g: Graph, n: nat) {
    n < |g| && CycleAhead(g, n) && forall j {:trigger CycleAhead(g, j)} :: 0 <= j < n ==> !CycleAhead(g, j)
  }

  ghost predicate LedBack(g: Graph, n: nat) {
    exists w :: Led(g, n, w) && w[0] == n
  }

  /** Exactly the cyclic graphs that the check refuses: the first filter from which a cycle can be reached is led back
      to itself. On all other cyclic graphs the check does not end. */
  lemma {:induction false} RefusedIff(g: Graph, n: nat)
    requires InRange(g)
    ensures (exists depth: nat :: RefusedAt(g, n, depth)) <==> FirstLooping(g, n) && LedBack(g, n)
  {
    if depth: nat :| RefusedAt(g, n, depth) {
      EndsWithYes(g, n, n);
      FilterLoopCorrect(g, n, n, depth);
      forall j | 0 <= j < n
        ensures !CycleAhead(g, j)
      {
        assert FilterLoop(g, j, j, depth) == No;
        NoMeansClear(g, j, depth);
      }
    }
    if FirstLooping(g, n) && LedBack(g, n) {
      var w :| Led(g, n, w) && w[0] == n;
      var depth := LedEndsWithYes(g, n, w);
      forall j | 0 <= j < n
        ensures FilterLoop(g, j, j, depth) == No
      {
        assert !CycleAhead(g, j);
        ClosedSearch(g, j, depth);
      }
      assert RefusedAt(g, n, depth);
    }
  }

  lemma {:induction false} NoMeansClear(g: Graph, j: nat, depth: nat)
    requires InRange(g) && j < |g| && FilterLoop(g, j, j, depth) == No
    ensures !CycleAhead(g, j)
  {
    EndsWithNo(g, j, j);
  }

  lemma {:induction false} ClosedSearch(g: Graph, j: nat, depth: nat)
    requires InRange(g) && j < |g| && !CycleAhead(g, j) && |g| <= depth
    ensures FilterLoop(g, j, j, depth) == No
  {
    FilterLoopEnds(g, j, j);
    FilterLoopCorrect(g, j, j, |g|);
    DeeperScan(g, j, j, 0, |g|, depth);
  }

  /** The whole check ends exactly on acyclic graphs and on those that it refuses. */
  lemma {:induction false} CheckEndsIff(g: Graph)
    requires InRange(g)
    ensures (exists depth: nat :: NoLoopFound(g, depth)) || (exists n: nat, depth: nat :: RefusedAt(g, n, depth))
       <==> Acyclic(g) || exists n: nat :: FirstLooping(g, n) && LedBack(g, n)
  {
    LoopCheckExact(g);
    if n: nat, depth: nat :| RefusedAt(g, n, depth) {
      RefusedIff(g, n);
      assert FirstLooping(g, n) && LedBack(g, n);
    }
    if n: nat :| FirstLooping(g, n) && LedBack(g, n) {
      RefusedIff(g, n);
      var depth: nat :| RefusedAt(g, n, depth);
    }
  }

  /** Every search for a filter behind itself answers no. */
  ghost predicate NoLoopFound(g: Graph, depth: nat)
    requires InRange(g)
  {
    forall n {:trigger FilterLoop(g, n, n, depth)} :: 0 <= n < |g| ==> FilterLoop(g, n, n, depth) == No
  }

  /** The check accepts exactly the acyclic graphs: all searches end with no, for some depth, if and only if
      no filter is behind itself. */
  lemma {:induction false} LoopCheckExact(g: Graph)
    requires InRange(g)
    ensures (exists depth: nat :: NoLoopFound(g, depth)) <==> Acyclic(g)
  {
    if depth: nat :| NoLoopFound(g, depth) {
      forall i | 0 <= i < |g|
        ensures !Reaches(g, i, i)
      {
        assert FilterLoop(g, i, i, depth) == No;
        FilterLoopCorrect(g, i, i, depth);
      }
    }
    if Acyclic(g) {
      forall n | 0 <= n < |g|
        ensures FilterLoop(g, n, n, |g|) == No
      {
        FilterLoopEnds(g, n, n);
        FilterLoopCorrect(g, n, n, |g|);
      }
      assert NoLoopFound(g, |g|);
    }
  }

  // ----- processing order -----

  ghost predicate ReadsFrom(g: Graph, u: set<nat>, i: nat) {
    i < |g| && exists m :: m in u && m in g[i].inputs
  }

  lemma {:induction false} InputOf(g: Graph, u: set<nat>, i: nat) returns (m: nat)
    requires WellFormed(g) && ReadsFrom(g, u, i) && forall m :: m in u ==> m < |g|
    ensures m in u && Edge(g, m, i)
  {
    m :| m in u && m in g[i].inputs;
  }

  /** Filters that all read from one another have walks of any length among them. */
  lemma {:induction false} WalkBack(g: Graph, u: set<nat>, k: nat) returns (w: seq<nat>)
    requires WellFormed(g) && u != {} && forall i :: i in u ==> ReadsFrom(g, u, i)
    ensures Walk(g, w) && |w| == k + 1 && w[0] in u
  {
    if k == 0 {
      var i :| i in u;
      w := [i];
    } else {
      var v := WalkBack(g, u, k - 1);
      var m := InputOf(g, u, v[0]);
      WalkPrepend(g, m, v);
      w := [m] + v;
    }
  }

  predicate Ready(g: Graph, used: set<nat>, i: nat)
    requires i < |g|
  {
    forall k :: k in g[i].inputs ==> k in used
  }

  /** Among the filters not yet placed, one has all its inputs placed. */
  lemma {:induction false} SomeReady(g: Graph, members: set<nat>, used: set<nat>) returns (i: nat)
    requires WellFormed(g) && Acyclic(g) && used < members
    requires forall i :: i in members ==> i < |g| && forall k :: k in g[i].inputs ==> k in members
    ensures i in members && i !in used && i < |g| && Ready(g, used, i)
  {
    var u := members - used;
    assert u != {} by {
      var x :| x in members && x !in used;
      assert x in u;
    }
    if forall i :: i in u ==> !Ready(g, used, i) {
      forall i | i in u
        ensures ReadsFrom(g, u, i)
      {
        assert !Ready(g, used, i);
        var m :| m in g[i].inputs && m !in used;
        assert m in u;
      }
      var w := WalkBack(g, u, |g|);
      ShortWalks(g, w);
    }
    i :| i in u && Ready(g, used, i);
  }

  ghost predicate InOrder(g: Graph, order: seq<nat>) {
    forall j {:trigger order[j]} :: 0 <= j < |order| ==> order[j] < |g| && Ready(g, Elements(order[..j]), order[j])
  }

  ghost predicate NoRepeats(s: seq<nat>) {
    forall i, j :: 0 <= i < j < |s| ==> s[i] != s[j]
  }

  lemma {:induction false} OrderAppend(g: Graph, order: seq<nat>, i: nat)
    requires InOrder(g, order) && NoRepeats(order) && i < |g| && i !in order && Ready(g, Elements(order), i)
    ensures InOrder(g, order + [i]) && NoRepeats(order + [i])
    ensures Elements(order + [i]) == Elements(order) + {i}
  {
    var o := order + [i];
    forall j | 0 <= j < |o|
      ensures o[j] < |g| && Ready(g, Elements(o[..j]), o[j])
    {
      if j < |order| {
        assert o[..j] == order[..j];
        assert order[j] < |g|;
      } else {
        assert o[..j] == order;
      }
    }
  }

  /** One pass over the filters of a process: those whose inputs are all placed are placed. */
  method SortPass(g: Graph, members: seq<nat>, start: seq<nat>) returns (order: seq<nat>)
    requires WellFormed(g) && NoRepeats(members) && forall i :: i in members ==> i < |g|
    requires InOrder(g, start) && NoRepeats(start) && Elements(start) <= Elements(members)
    ensures InOrder(g, order) && NoRepeats(order) && Elements(start) <= Elements(order) <= Elements(members)
    ensures forall i :: i in members && i < |g| && Ready(g, Elements(start), i) ==> i in order
    ensures |order| >= |start|
  {
    order := start;
    var i := 0;
    while i < |members|
      invariant 0 <= i <= |members|
      invariant InOrder(g, order) && NoRepeats(order) && Elements(start) <= Elements(order) <= Elements(members)
      invariant forall j {:trigger members[j]} ::
        0 <= j < i && members[j] < |g| && Ready(g, Elements(start), members[j]) ==> members[j] in order
      invariant |order| >= |start|
    {
      var m := members[i];
      assert m in members;
      if m !in order {
        var k := 0;
        while k < |g[m].inputs| && g[m].inputs[k] in order
          invariant 0 <= k <= |g[m].inputs|
          invariant forall j :: 0 <= j < k ==> g[m].inputs[j] in order
        {
          k := k + 1;
        }
        if k == |g[m].inputs| {
          OrderAppend(g, order, m);
          order := order + [m];
        } else {
          assert g[m].inputs[k] in g[m].inputs && g[m].inputs[k] !in Elements(start);
        }
      }
      i := i + 1;
    }
  }

  /** The filters of one process in an order in which each comes after the filters it reads from. Passes
      repeat until all are placed, which ends because the graph has no loop and no link leaves the process. */
  method SortFilters(g: Graph, members: seq<nat>) returns (order: seq<nat>)
    requires WellFormed(g) && Acyclic(g) && NoRepeats(members)
    requires forall i :: i in members ==> i < |g| && forall k :: k in g[i].inputs ==> k in members
    ensures multiset(order) == multiset(members)
    ensures InOrder(g, order)
  {
    order := [];
    ghost var all := Elements(members);
    DistinctSize(members);
    assert Elements(order) == {};
    while |order| < |members|
      invariant InOrder(g, order) && NoRepeats(order) && Elements(order) <= all
      invariant |order| <= |members|
      decreases |members| - |order|
    {
      DistinctSize(order);
      assert Elements(order) != all;
      ghost var i := SomeReady(g, all, Elements(order));
      ghost var before := order;
      order := SortPass(g, members, order);
      DistinctSize(order);
      Grown(Elements(before), Elements(order), i);
      SubsetSize(Elements(order), all);
    }
    DistinctSize(order);
    SameElements(order, members);
  }

  lemma {:induction false} Grown(a: set<nat>, b: set<nat>, x: nat)
    requires a <= b && x in b && x !in a
    ensures |a| < |b|
  {
    SubsetSize(a, b - {x});
  }

  lemma {:induction false} EqualSize(a: set<nat>, b: set<nat>)
    requires a <= b && |a| == |b|
    ensures a == b
  {
    if x :| x in b && x !in a {
      Grown(a, b, x);
    }
  }

  lemma {:induction false} CountOne(s: seq<nat>, x: nat)
    requires NoRepeats(s)
    ensures multiset(s)[x] == if x in s then 1 else 0
  {
    if |s| > 0 {
      var n := |s| - 1;
      CountOne(s[..n], x);
      assert s == s[..n] + [s[n]];
    }
  }

  lemma {:induction false} SameElements(a: seq<nat>, b: seq<nat>)
    requires NoRepeats(a) && NoRepeats(b) && |a| == |b| && Elements(a) <= Elements(b)
    ensures multiset(a) == multiset(b)
  {
    DistinctSize(a);
    DistinctSize(b);
    EqualSize(Elements(a), Elements(b));
    forall x
      ensures multiset(a)[x] == multiset(b)[x]
    {
      CountOne(a, x);
      CountOne(b, x);
      assert x in Elements(a) <==> x in Elements(b);
    }
  }
}
