/** Distribution of filters over processes: connected filters stay together. */
module LoadBalance {
  import opened Division
  import opened FilterGraph
  import opened Sequences

  /** Filters that must run in the same process: linked, or mixing to a common output channel. */
  predicate Tied(g: Graph, i: nat, k: nat) {
    && i < |g| && k < |g|
    && (k in g[i].inputs || k in g[i].outputs || exists ch :: ch in g[i].channels && ch in g[k].channels)
  }

  lemma {:induction false} TiedBack(g: Graph, i: nat, k: nat)
    requires WellFormed(g) && Tied(g, i, k)
    ensures Tied(g, k, i)
  {
    if k in g[i].inputs {
      assert i in g[k].outputs;
    } else if k in g[i].outputs {
      assert i in g[k].inputs;
    }
  }

  ghost predicate Chain(g: Graph, p: seq<nat>) {
    && |p| > 0 && (forall j :: 0 <= j < |p| ==> p[j] < |g|)
    && forall j {:trigger p[j]} :: 0 <= j < |p| - 1 ==> Tied(g, p[j], p[j + 1])
  }

  ghost predicate ChainFrom(g: Graph, p: seq<nat>, i: nat, k: nat) {
    Chain(g, p) && p[0] == i && p[|p| - 1] == k
  }

  /** i and k are in the same connected component. */
  ghost predicate Connected(g: Graph, i: nat, k: nat) {
    exists p :: ChainFrom(g, p, i, k)
  }

  lemma {:induction false} ConnectedSelf(g: Graph, i: nat)
    requires i < |g|
    ensures Connected(g, i, i)
  {
    assert ChainFrom(g, [i], i, i);
  }

  lemma {:induction false} ConnectedStep(g: Graph, i: nat, m: nat, k: nat)
    requires Connected(g, i, m) && Tied(g, m, k)
    ensures Connected(g, i, k)
  {
    var p :| ChainFrom(g, p, i, m);
    var q := p + [k];
    forall j | 0 <= j < |q| - 1
      ensures Tied(g, q[j], q[j + 1])
    {
      if j < |p| - 1 {
        assert Tied(g, p[j], p[j + 1]);
      }
    }
    assert ChainFrom(g, q, i, k);
  }

  lemma {:induction false} ChainConnects(g: Graph, i: nat, p: seq<nat>, k: nat)
    requires WellFormed(g) && Chain(g, p) && Connected(g, i, p[|p| - 1]) && k < |p|
    ensures Connected(g, i, p[k])
    decreases |p| - k
  {
    if k < |p| - 1 {
      ChainConnects(g, i, p, k + 1);
      assert Tied(g, p[k], p[k + 1]);
      TiedBack(g, p[k], p[k + 1]);
      ConnectedStep(g, i, p[k + 1], p[k]);
    }
  }

  /** Two filters connected to a third are connected to each other. */
  lemma {:induction false} ConnectedVia(g: Graph, r: nat, i: nat, k: nat)
    requires WellFormed(g) && Connected(g, r, i) && Connected(g, r, k)
    ensures Connected(g, i, k)
  {
    var p :| ChainFrom(g, p, r, i);
    ConnectedSelf(g, i);
    ChainConnects(g, i, p, 0);
    var q :| ChainFrom(g, q, r, k);
    ChainOnwards(g, i, q, |q| - 1);
  }

  lemma {:induction false} ChainOnwards(g: Graph, i: nat, q: seq<nat>, k: nat)
    requires Chain(g, q) && Connected(g, i, q[0]) && k < |q|
    ensures Connected(g, i, q[k])
  {
    if k > 0 {
      ChainOnwards(g, i, q, k - 1);
      assert Tied(g, q[k - 1], q[k]);
      ConnectedStep(g, i, q[k - 1], q[k]);
    }
  }

  // ----- one class at a time -----

  /** Process c contains whatever is tied to one of its filters. */
  ghost predicate Closed(g: Graph, p: seq<int>, c: int) {
    |p| == |g| && forall i: nat, k: nat {:trigger Tied(g, i, k)} :: Tied(g, i, k) && p[i] == c ==> p[k] == c
  }

  lemma {:induction false} ClosedChain(g: Graph, p: seq<int>, c: int, q: seq<nat>, k: nat)
    requires Closed(g, p, c) && Chain(g, q) && p[q[0]] == c && k < |q|
    ensures p[q[k]] == c
  {
    if k > 0 {
      ClosedChain(g, p, c, q, k - 1);
      assert Tied(g, q[k - 1], q[k]);
    }
  }

  /** All filters in process c are connected to the filter it was started for. */
  ghost predicate Rooted(g: Graph, p: seq<int>, c: int, root: nat) {
    && |p| == |g| && root < |g| && p[root] == c
    && forall i: nat {:trigger p[i]} :: i < |g| && p[i] == c ==> Connected(g, root, i)
  }

  /** Filters are only moved into process c, from no process. */
  ghost predicate Grows(p: seq<int>, p': seq<int>, c: int) {
    |p'| == |p| && forall i {:trigger p'[i]} :: 0 <= i < |p| ==> p'[i] == p[i] || (p'[i] == c && p[i] == -1)
  }

  /** Processes started before c are complete; nothing is in a later one. */
  ghost predicate Earlier(g: Graph, p: seq<int>, c: int) {
    && |p| == |g|
    && (forall i {:trigger p[i]} :: 0 <= i < |p| ==> -1 <= p[i] <= c)
    && forall d :: 0 <= d < c ==> Closed(g, p, d)
  }

  lemma {:induction false} TiedIsFree(g: Graph, p: seq<int>, c: int, i: nat, k: nat)
    requires WellFormed(g) && Earlier(g, p, c) && c >= 0 && Tied(g, i, k) && p[i] == c && p[k] != c
    ensures p[k] == -1
  {
    if p[k] != -1 {
      assert Closed(g, p, p[k]);
      TiedBack(g, i, k);
    }
  }

  lemma {:induction false} MoveOne(g: Graph, p: seq<int>, c: int, root: nat, i: nat, k: nat)
    requires WellFormed(g) && c >= 0 && Earlier(g, p, c) && Rooted(g, p, c, root) && Tied(g, i, k) && p[i] == c
    requires p[k] != c
    ensures p[k] == -1
    ensures Earlier(g, p[k := c], c) && Rooted(g, p[k := c], c, root)
  {
    TiedIsFree(g, p, c, i, k);
    assert Connected(g, root, i);
    ConnectedStep(g, root, i, k);
    var p' := p[k := c];
    forall d | 0 <= d < c
      ensures Closed(g, p', d)
    {
      MoveKeepsClosed(g, p, c, k, d);
    }
  }

  lemma {:induction false} MoveKeepsClosed(g: Graph, p: seq<int>, c: int, k: nat, d: int)
    requires Closed(g, p, d) && k < |g| && p[k] == -1 && 0 <= d < c && WellFormed(g)
    ensures Closed(g, p[k := c], d)
  {
    var p' := p[k := c];
    forall a: nat, b: nat | a < |g| && Tied(g, a, b) && p'[a] == d
      ensures p'[b] == d
    {
      assert p[a] == d;
      assert p[b] == d;
    }
  }

  /** The links of filter i are followed, one way. */
  method FollowLinks(g: Graph, links: seq<nat>, proc: array<int>, c: int, i: nat, ghost root: nat)
    returns (changed: bool)
    requires WellFormed(g) && c >= 0 && proc.Length == |g| && i < |g| && (links == g[i].inputs || links == g[i].outputs)
    requires Earlier(g, proc[..], c) && Rooted(g, proc[..], c, root) && proc[i] == c
    modifies proc
    ensures Earlier(g, proc[..], c) && Rooted(g, proc[..], c, root) && Grows(old(proc[..]), proc[..], c)
    ensures forall k :: k in links ==> k < |g| && proc[k] == c
    ensures changed <==> proc[..] != old(proc[..])
  {
    changed := false;
    var j := 0;
    while j < |links|
      invariant 0 <= j <= |links|
      invariant Earlier(g, proc[..], c) && Rooted(g, proc[..], c, root) && Grows(old(proc[..]), proc[..], c)
      invariant proc[i] == c
      invariant forall m :: 0 <= m < j ==> links[m] < |g| && proc[links[m]] == c
      invariant changed <==> proc[..] != old(proc[..])
    {
      var k := links[j];
      assert k in links;
      if proc[k] != c {
        ghost var p := proc[..];
        MoveOne(g, p, c, root, i, k);
        proc[k] := c;
        assert proc[..] == p[k := c];
        assert old(proc[..])[k] != c;
        changed := true;
      }
      j := j + 1;
    }
  }

  /** The links of filter i stay within process c. */
  ghost predicate LinksInside(g: Graph, p: seq<int>, c: int, i: nat)
    requires i < |g| && |p| == |g|
  {
    (forall k :: k in g[i].inputs ==> k < |g| && p[k] == c) && (forall k :: k in g[i].outputs ==> k < |g| && p[k] == c)
  }

  /** Which filters are connected to those in process c? */
  method GrowByLinks(g: Graph, proc: array<int>, c: int, ghost root: nat) returns (changed: bool)
    requires WellFormed(g) && c >= 0 && proc.Length == |g|
    requires Earlier(g, proc[..], c) && Rooted(g, proc[..], c, root)
    modifies proc
    ensures Earlier(g, proc[..], c) && Rooted(g, proc[..], c, root) && Grows(old(proc[..]), proc[..], c)
    ensures changed <==> proc[..] != old(proc[..])
    ensures !changed ==> forall i :: 0 <= i < |g| && proc[i] == c ==> LinksInside(g, proc[..], c, i)
  {
    changed := false;
    var i := 0;
    while i < |g|
      invariant 0 <= i <= |g|
      invariant Earlier(g, proc[..], c) && Rooted(g, proc[..], c, root) && Grows(old(proc[..]), proc[..], c)
      invariant changed <==> proc[..] != old(proc[..])
      invariant !changed ==> forall m :: 0 <= m < i && proc[m] == c ==> LinksInside(g, proc[..], c, m)
    {
      if proc[i] == c {
        ghost var p := proc[..];
        var s0 := FollowLinks(g, g[i].inputs, proc, c, i, root);
        ghost var p' := proc[..];
        var s1 := FollowLinks(g, g[i].outputs, proc, c, i, root);
        GrowsTwice(p, p', proc[..], c);
        GrowsTwice(old(proc[..]), p, proc[..], c);
        changed := changed || s0 || s1;
      }
      i := i + 1;
    }
  }

  lemma {:induction false} GrowsTwice(p: seq<int>, q: seq<int>, r: seq<int>, c: int)
    requires Grows(p, q, c) && Grows(q, r, c) && c >= 0
    ensures Grows(p, r, c) && (p == r ==> q == r)
  {
    forall i | 0 <= i < |p|
      ensures r[i] == p[i] || (r[i] == c && p[i] == -1)
      ensures q[i] != p[i] ==> r[i] != p[i]
      ensures q[i] != r[i] ==> r[i] != p[i]
    {
      assert q[i] == p[i] || (q[i] == c && p[i] == -1);
    }
  }

  /** Output channels of the filters in process c. */
  method UsedChannels(g: Graph, proc: array<int>, c: int) returns (used: set<nat>)
    requires proc.Length == |g|
    ensures forall ch :: ch in used <==> exists i :: 0 <= i < |g| && proc[i] == c && ch in g[i].channels
  {
    used := {};
    var i := 0;
    while i < |g|
      invariant 0 <= i <= |g|
      invariant forall ch :: ch in used <==> exists m :: 0 <= m < i && proc[m] == c && ch in g[m].channels
    {
      if proc[i] == c {
        used := used + set ch | ch in g[i].channels;
      }
      i := i + 1;
    }
  }

  /** Filters with an output channel in common with process c are moved there. */
  method GrowByOutputs(g: Graph, proc: array<int>, c: int, ghost root: nat) returns (changed: bool)
    requires WellFormed(g) && c >= 0 && proc.Length == |g|
    requires Earlier(g, proc[..], c) && Rooted(g, proc[..], c, root)
    modifies proc
    ensures Earlier(g, proc[..], c) && Rooted(g, proc[..], c, root) && Grows(old(proc[..]), proc[..], c)
    ensures changed <==> proc[..] != old(proc[..])
    ensures !changed ==> forall i, k, ch ::
      0 <= i < |g| && 0 <= k < |g| && proc[i] == c && ch in g[i].channels && ch in g[k].channels ==> proc[k] == c
  {
    changed := false;
    ghost var p0 := proc[..];
    var used := UsedChannels(g, proc, c);
    var k := 0;
    while k < |g|
      invariant 0 <= k <= |g|
      invariant Earlier(g, proc[..], c) && Rooted(g, proc[..], c, root) && Grows(p0, proc[..], c)
      invariant changed <==> proc[..] != p0
      invariant forall m :: 0 <= m < k && proc[m] != c ==> forall ch :: ch in g[m].channels ==> ch !in used
    {
      if proc[k] != c && exists ch :: ch in g[k].channels && ch in used {
        ghost var ch :| ch in g[k].channels && ch in used;
        ghost var i: nat :| i < |g| && p0[i] == c && ch in g[i].channels;
        ghost var p := proc[..];
        assert p[i] == c;
        MoveOne(g, p, c, root, i, k);
        proc[k] := c;
        assert proc[..] == p[k := c];
        changed := true;
      }
      k := k + 1;
    }
  }

  lemma {:induction false} NowClosed(g: Graph, p: seq<int>, c: int)
    requires WellFormed(g) && |p| == |g|
    requires forall i :: 0 <= i < |g| && p[i] == c ==> LinksInside(g, p, c, i)
    requires forall i, k, ch ::
      0 <= i < |g| && 0 <= k < |g| && p[i] == c && ch in g[i].channels && ch in g[k].channels ==> p[k] == c
    ensures Closed(g, p, c)
  {
    forall i: nat, k: nat | i < |g| && Tied(g, i, k) && p[i] == c
      ensures p[k] == c
    {
      assert LinksInside(g, p, c, i);
    }
  }

  ghost function Outside(p: seq<int>, c: int): (s: set<int>)
    ensures forall i :: i in s <==> 0 <= i < |p| && p[i] != c
  {
    set i | 0 <= i < |p| && p[i] != c
  }

  lemma {:induction false} OutsideShrinks(p: seq<int>, p': seq<int>, c: int)
    requires Grows(p, p', c) && p != p' && c >= 0
    ensures Outside(p', c) < Outside(p, c)
  {
    forall i | i in Outside(p', c)
      ensures i in Outside(p, c)
    {
      assert p'[i] == p[i];
    }
    var k :| 0 <= k < |p| && p'[k] != p[k];
    assert k in Outside(p, c) && k !in Outside(p', c);
  }

  /** Moves filters into process c until nothing more is tied to it. */
  method FillProcess(g: Graph, proc: array<int>, c: int, ghost root: nat)
    requires WellFormed(g) && c >= 0 && proc.Length == |g|
    requires Earlier(g, proc[..], c) && Rooted(g, proc[..], c, root)
    modifies proc
    ensures Earlier(g, proc[..], c + 1) && Rooted(g, proc[..], c, root) && Grows(old(proc[..]), proc[..], c)
  {
    ghost var p0 := proc[..];
    var again := true;
    while again
      invariant Earlier(g, proc[..], c) && Rooted(g, proc[..], c, root) && Grows(p0, proc[..], c)
      invariant !again ==> Closed(g, proc[..], c)
      decreases Outside(proc[..], c), again
    {
      ghost var p := proc[..];
      var s0 := GrowByLinks(g, proc, c, root);
      ghost var q := proc[..];
      var s1 := GrowByOutputs(g, proc, c, root);
      GrowsTwice(p, q, proc[..], c);
      GrowsTwice(p0, p, proc[..], c);
      again := s0 || s1;
      if again {
        OutsideShrinks(p, proc[..], c);
      } else {
        NowClosed(g, proc[..], c);
      }
    }
  }

  /** Every process up to c has a filter it was started for. */
  ghost predicate AllRooted(g: Graph, p: seq<int>, roots: seq<nat>) {
    forall d {:trigger roots[d]} :: 0 <= d < |roots| ==> Rooted(g, p, d, roots[d])
  }

  lemma {:induction false} RootedGrows(g: Graph, p: seq<int>, p': seq<int>, c: int, roots: seq<nat>)
    requires AllRooted(g, p, roots) && Grows(p, p', c) && c >= |roots|
    ensures AllRooted(g, p', roots)
  {
    forall d | 0 <= d < |roots|
      ensures Rooted(g, p', d, roots[d])
    {
      assert Rooted(g, p, d, roots[d]);
      forall i: nat | i < |g| && p'[i] == d
        ensures Connected(g, roots[d], i)
      {
        assert p[i] == d;
      }
      assert p'[roots[d]] == p[roots[d]];
    }
  }

  /** First step: as many processes as the ties allow. */
  method AssignProcesses(g: Graph, proc: array<int>) returns (count: nat, ghost roots: seq<nat>)
    requires WellFormed(g) && proc.Length == |g| && forall i :: 0 <= i < |g| ==> proc[i] == -1
    modifies proc
    ensures |roots| == count && AllRooted(g, proc[..], roots)
    ensures forall i :: 0 <= i < |g| ==> 0 <= proc[i] < count
    ensures forall d :: 0 <= d < count ==> Closed(g, proc[..], d)
  {
    count, roots := 0, [];
    var n := 0;
    while n < |g|
      invariant 0 <= n <= |g| && |roots| == count
      invariant Earlier(g, proc[..], count) && AllRooted(g, proc[..], roots)
      invariant forall i :: 0 <= i < |g| ==> proc[i] < count
      invariant forall i :: 0 <= i < n ==> proc[i] != -1
    {
      if proc[n] == -1 {
        ghost var p := proc[..];
        StartProcess(g, p, count, n);
        proc[n] := count;
        assert proc[..] == p[n := count];
        RootedGrows(g, p, proc[..], count, roots);
        ghost var q := proc[..];
        FillProcess(g, proc, count, n);
        RootedGrows(g, q, proc[..], count, roots);
        assert forall i {:trigger proc[..][i]} :: 0 <= i < |g| ==>
          proc[..][i] == q[i] || (proc[..][i] == count && q[i] == -1);
        roots := roots + [n];
        count := count + 1;
      }
      n := n + 1;
    }
  }

  /** A new process starts with one filter that is in no other. */
  lemma {:induction false} StartProcess(g: Graph, p: seq<int>, c: int, n: nat)
    requires WellFormed(g) && c >= 0 && Earlier(g, p, c) && n < |g| && p[n] == -1
    requires forall i :: 0 <= i < |g| ==> p[i] < c
    ensures Earlier(g, p[n := c], c) && Rooted(g, p[n := c], c, n) && Grows(p, p[n := c], c)
  {
    ConnectedSelf(g, n);
    var p' := p[n := c];
    forall d | 0 <= d < c
      ensures Closed(g, p', d)
    {
      MoveKeepsClosed(g, p, c, n, d);
    }
  }

  /** Two filters are in the same process exactly when they are connected. */
  lemma {:induction false} ProcessesAreComponents(g: Graph, p: seq<int>, roots: seq<nat>, i: nat, k: nat)
    requires WellFormed(g) && |p| == |g| && i < |g| && k < |g|
    requires AllRooted(g, p, roots)
    requires forall m :: 0 <= m < |g| ==> 0 <= p[m] < |roots|
    requires forall d :: 0 <= d < |roots| ==> Closed(g, p, d)
    ensures p[i] == p[k] <==> Connected(g, i, k)
  {
    if p[i] == p[k] {
      assert Rooted(g, p, p[i], roots[p[i]]);
      ConnectedVia(g, roots[p[i]], i, k);
    }
    if Connected(g, i, k) {
      var q :| ChainFrom(g, q, i, k);
      ClosedChain(g, p, p[i], q, |q| - 1);
    }
  }

  // ----- folding -----

  /** Second step: processes are dealt out over the processors in turn. */
  method FoldProcesses(proc: array<int>, count: nat, cpus: nat)
    requires 0 < cpus && forall i :: 0 <= i < proc.Length ==> 0 <= proc[i] < count
    modifies proc
    ensures forall i :: 0 <= i < proc.Length ==> proc[i] == old(proc[i]) % cpus
  {
    ghost var p0 := proc[..];
    var j, n := 0, 0;
    while n < count
      invariant 0 <= n <= count && j == n % cpus
      invariant forall i :: 0 <= i < proc.Length ==> proc[i] == if p0[i] < n then p0[i] % cpus else p0[i]
    {
      Remainder(n, cpus);
      var i := 0;
      while i < proc.Length
        invariant 0 <= i <= proc.Length
        invariant forall m :: 0 <= m < i ==> proc[m] == if p0[m] <= n then p0[m] % cpus else p0[m]
        invariant forall m :: i <= m < proc.Length ==> proc[m] == if p0[m] < n then p0[m] % cpus else p0[m]
      {
        if p0[i] < n {
          Remainder(p0[i], cpus);
        }
        if proc[i] == n {
          proc[i] := j;
        }
        i := i + 1;
      }
      NextRemainder(n, cpus);
      j := j + 1;
      if j == cpus {
        j := 0;
      }
      n := n + 1;
    }
  }

  ghost predicate KeepsTogether(g: Graph, p: seq<int>) {
    && |p| == |g|
    && forall i: nat, k: nat {:trigger Connected(g, i, k)} ::
         i < |g| && k < |g| && Connected(g, i, k) ==> p[i] == p[k]
  }

  ghost predicate Separates(g: Graph, p: seq<int>) {
    && |p| == |g|
    && forall i: nat, k: nat {:trigger p[i], p[k]} :: i < |g| && k < |g| && p[i] == p[k] ==> Connected(g, i, k)
  }

  ghost predicate Used(p: seq<int>, d: int) {
    exists i :: 0 <= i < |p| && p[i] == d
  }

  /** One filter of every connected component. */
  ghost predicate OneOfEach(g: Graph, roots: seq<nat>) {
    && (forall a, b {:trigger roots[a], roots[b]} :: 0 <= a < b < |roots| ==> !Connected(g, roots[a], roots[b]))
    && forall i: nat {:trigger Reached(g, roots, i)} :: i < |g| ==> Reached(g, roots, i)
  }

  ghost predicate Reached(g: Graph, roots: seq<nat>, i: nat) {
    exists a :: 0 <= a < |roots| && Connected(g, roots[a], i)
  }

  lemma {:induction false} RootsOfEach(g: Graph, p: seq<int>, roots: seq<nat>)
    requires WellFormed(g) && |p| == |g| && AllRooted(g, p, roots)
    requires forall m :: 0 <= m < |g| ==> 0 <= p[m] < |roots|
    requires forall d :: 0 <= d < |roots| ==> Closed(g, p, d)
    ensures OneOfEach(g, roots)
  {
    forall a, b | 0 <= a < b < |roots|
      ensures !Connected(g, roots[a], roots[b])
    {
      assert Rooted(g, p, a, roots[a]) && Rooted(g, p, b, roots[b]);
      ProcessesAreComponents(g, p, roots, roots[a], roots[b]);
    }
    forall i: nat | i < |g|
      ensures Reached(g, roots, i)
    {
      assert Rooted(g, p, p[i], roots[p[i]]);
    }
  }

  /** How many of the roots, and so of the components, are in process d. */
  function Components(p: seq<int>, roots: seq<nat>, d: int): nat {
    Count(roots, (r: nat) => r < |p| && p[r] == d)
  }

  /** After n roots have been dealt out, process n % cpus is the next one. */
  lemma {:induction false} DealtEvenly(p: seq<int>, roots: seq<nat>, cpus: nat, d: nat, e: nat, n: nat)
    requires d <= e < cpus && n <= |roots|
    requires forall a :: 0 <= a < |roots| ==> roots[a] < |p| && p[roots[a]] == a % cpus
    ensures Components(p, roots[..n], d) - Components(p, roots[..n], e) == if d < n % cpus <= e then 1 else 0
  {
    if n > 0 {
      DealtEvenly(p, roots, cpus, d, e, n - 1);
      NextRemainder(n - 1, cpus);
      assert roots[..n][..n - 1] == roots[..n - 1];
      assert p[roots[n - 1]] == (n - 1) % cpus;
    } else {
      SmallRemainder(0, cpus);
    }
  }

  /** Connected filters share a process; every process index up to the returned one is used; and the components are
      dealt out evenly, no process having more than one component more than another. */
  method LoadBalanceFilters(g: Graph, proc: array<int>, cpus: nat) returns (last: int, ghost roots: seq<nat>)
    requires WellFormed(g) && 0 < cpus && 0 < |g| == proc.Length && forall i :: 0 <= i < |g| ==> proc[i] == -1
    modifies proc
    ensures KeepsTogether(g, proc[..])
    ensures 0 <= last < cpus && forall i :: 0 <= i < |g| ==> 0 <= proc[i] <= last
    ensures forall d :: 0 <= d <= last ==> Used(proc[..], d)
    ensures last + 1 < cpus ==> Separates(g, proc[..])
    ensures OneOfEach(g, roots)
    ensures forall d, e :: 0 <= d < e < cpus ==>
      0 <= Components(proc[..], roots, d) - Components(proc[..], roots, e) <= 1
  {
    var count;
    count, roots := AssignProcesses(g, proc);
    ghost var p := proc[..];
    FoldProcesses(proc, count, cpus);
    last := if count < cpus then count - 1 else cpus - 1;
    assert 0 <= p[0] < count;
    ghost var f := proc[..];
    forall i: nat, k: nat | i < |g| && k < |g|
      ensures Connected(g, i, k) ==> f[i] == f[k]
      ensures count < cpus && f[i] == f[k] ==> Connected(g, i, k)
    {
      ProcessesAreComponents(g, p, roots, i, k);
      SmallRemainder(p[i], cpus);
      SmallRemainder(p[k], cpus);
    }
    forall i | 0 <= i < |g|
      ensures 0 <= proc[i] <= last
    {
      SmallRemainder(p[i], cpus);
    }
    forall d | 0 <= d <= last
      ensures Used(f, d)
    {
      assert Rooted(g, p, d, roots[d]);
      SmallRemainder(d, cpus);
      assert f[roots[d]] == d;
    }
    RootsOfEach(g, p, roots);
    RootsDealt(g, p, f, roots, cpus);
  }

  lemma {:induction false} RootsDealt(g: Graph, p: seq<int>, f: seq<int>, roots: seq<nat>, cpus: nat)
    requires 0 < cpus && |p| == |g| == |f| && AllRooted(g, p, roots)
    requires forall i :: 0 <= i < |p| ==> f[i] == p[i] % cpus
    ensures forall d, e :: 0 <= d < e < cpus ==> 0 <= Components(f, roots, d) - Components(f, roots, e) <= 1
  {
    forall a | 0 <= a < |roots|
      ensures roots[a] < |f| && f[roots[a]] == a % cpus
    {
      assert Rooted(g, p, a, roots[a]);
    }
    forall d, e | 0 <= d < e < cpus
      ensures 0 <= Components(f, roots, d) - Components(f, roots, e) <= 1
    {
      DealtEvenly(f, roots, cpus, d, e, |roots|);
      assert roots[..|roots|] == roots;
    }
  }

  // ----- the later check -----

  /** Two filters whose processes differ although a link or an output channel joins them. */
  ghost predicate Crosses(g: Graph, p: seq<int>, i: nat, k: nat)
    requires |p| == |g|
  {
    && i < |g| && k < |g| && p[i] != p[k]
    && (k in g[i].outputs || exists ch :: ch in g[i].channels && ch in g[k].channels)
  }

  /** The check refuses nothing exactly when connected filters share a process. */
  lemma {:induction false} CheckAcceptsBalanced(g: Graph, p: seq<int>)
    requires WellFormed(g) && |p| == |g|
    ensures (forall i: nat, k: nat :: !Crosses(g, p, i, k)) <==> KeepsTogether(g, p)
  {
    if KeepsTogether(g, p) {
      forall i: nat, k: nat
        ensures !Crosses(g, p, i, k)
      {
        if Crosses(g, p, i, k) {
          ConnectedSelf(g, i);
          ConnectedStep(g, i, i, k);
        }
      }
    }
    if forall i: nat, k: nat :: !Crosses(g, p, i, k) {
      forall i: nat, k: nat {:trigger Connected(g, i, k)} | i < |g| && k < |g| && Connected(g, i, k)
        ensures p[i] == p[k]
      {
        NoCrossing(g, p, i, k);
      }
    }
  }

  lemma {:induction false} NoCrossing(g: Graph, p: seq<int>, i: nat, k: nat)
    requires WellFormed(g) && |p| == |g| && i < |g| && k < |g| && Connected(g, i, k)
    requires forall a: nat, b: nat :: !Crosses(g, p, a, b)
    ensures p[i] == p[k]
  {
    var q :| ChainFrom(g, q, i, k);
    forall a: nat, b: nat {:trigger Tied(g, a, b)} | Tied(g, a, b) && p[a] == p[i]
      ensures p[b] == p[i]
    {
      assert !Crosses(g, p, a, b) && !Crosses(g, p, b, a);
      if b in g[a].inputs {
        assert a in g[b].outputs;
      }
    }
    ClosedChain(g, p, p[i], q, |q| - 1);
  }

  /** After balancing, the check never refuses. */
  lemma {:induction false} BalancedAccepted(g: Graph, p: seq<int>, i: nat, k: nat)
    requires WellFormed(g) && KeepsTogether(g, p)
    ensures !Crosses(g, p, i, k)
  {
    CheckAcceptsBalanced(g, p);
  }

  /** In an accepted configuration every input of a filter is in the filter's own process, so that the
      processing order of the process exists. */
  lemma {:induction false} InputsInProcess(g: Graph, p: seq<int>, i: nat, k: nat)
    requires WellFormed(g) && KeepsTogether(g, p) && i < |g| && k in g[i].inputs
    ensures k < |g| && p[k] == p[i]
  {
    ConnectedSelf(g, i);
    assert Tied(g, i, k);
    ConnectedStep(g, i, i, k);
  }
}
