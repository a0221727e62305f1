/** Blocks of a stream one after the other, counting, and distinct values. */
module Sequences {

  function Flatten<T>(blocks: seq<seq<T>>): (s: seq<T>) {
    if |blocks| == 0 then [] else blocks[0] + Flatten(blocks[1..])
  }

  lemma {:induction false} FlattenAppend<T>(blocks: seq<seq<T>>, block: seq<T>)
    ensures Flatten(blocks + [block]) == Flatten(blocks) + block
  {
    if |blocks| == 0 {
      assert Flatten([block]) == block + Flatten([]);
    } else {
      FlattenAppend(blocks[1..], block);
      assert (blocks + [block])[1..] == blocks[1..] + [block];
    }
  }

  /** How many values have a property. */
  function Count<T>(s: seq<T>, p: T -> bool): nat {
    if |s| == 0 then 0 else Count(s[..|s| - 1], p) + if p(s[|s| - 1]) then 1 else 0
  }

  lemma {:induction false} CountAppend<T>(s: seq<T>, p: T -> bool, x: T)
    ensures Count(s + [x], p) == Count(s, p) + if p(x) then 1 else 0
  {
    assert (s + [x])[..|s|] == s;
  }

  lemma {:induction false} CountNone<T>(s: seq<T>, p: T -> bool)
    ensures Count(s, p) == 0 <==> forall k :: 0 <= k < |s| ==> !p(s[k])
  {
    if |s| > 0 {
      CountNone(s[..|s| - 1], p);
    }
  }

  // ----- distinct values -----

  ghost function Below(n: nat): (s: set<nat>)
    ensures |s| == n && forall i: nat :: i in s <==> i < n
  {
    if n == 0 then {} else Below(n - 1) + {n - 1}
  }

  lemma {:induction false} SubsetSize(a: set<nat>, b: set<nat>)
    requires a <= b
    ensures |a| <= |b|
  {
    if a != {} {
      var x :| x in a;
      SubsetSize(a - {x}, b - {x});
    }
  }

  ghost function Elements(w: seq<nat>): (s: set<nat>)
    ensures forall x :: x in s <==> x in w
  {
    set x | x in w
  }

  lemma {:induction false} DistinctSize(w: seq<nat>)
    requires forall i, j :: 0 <= i < j < |w| ==> w[i] != w[j]
    ensures |Elements(w)| == |w|
  {
    if |w| > 0 {
      var n := |w| - 1;
      DistinctSize(w[..n]);
      assert Elements(w) == Elements(w[..n]) + {w[n]};
    } else {
      assert Elements(w) == {};
    }
  }

  /** More than n values below n: two are equal. */
  lemma {:induction false} Pigeonhole(w: seq<nat>, n: nat) returns (i: nat, j: nat)
    requires |w| > n && forall k :: 0 <= k < |w| ==> w[k] < n
    ensures i < j < |w| && w[i] == w[j]
  {
    if forall i, j :: 0 <= i < j < |w| ==> w[i] != w[j] {
      DistinctSize(w);
      SubsetSize(Elements(w), Below(n));
    }
    i, j :| i < j < |w| && w[i] == w[j];
  }
}
