/** The random table shared by all dithered channels: the differences that a channel draws do not depend on
    the other channels, and they telescope across every wrap. */
module DitherTable {
  import opened Division
  import opened Totals
  import opened Sequences

  /** Every partial sum stays within 255. */
  ghost predicate Bounded(s: seq<int>) {
    forall k {:trigger s[..k]} :: 0 <= k <= |s| ==> -255 <= Total(s[..k]) <= 255
  }

  ghost predicate Bytes(s: seq<int>) {
    forall k :: 0 <= k < |s| ==> -128 <= s[k] <= 127
  }

  /** Each value minus the one before. */
  function Differences(last: int, values: seq<int>): (d: seq<int>)
    ensures |d| == |values|
  {
    seq(|values|, k requires 0 <= k < |values| => values[k] - if k == 0 then last else values[k - 1])
  }

  function Last(last: int, values: seq<int>): int {
    if values == [] then last else values[|values| - 1]
  }

  lemma {:induction false} DifferencesJoin(last: int, vs: seq<int>, ws: seq<int>)
    ensures Differences(last, vs + ws) == Differences(last, vs) + Differences(Last(last, vs), ws)
  {
  }

  /** Differences telescope. */
  lemma {:induction false} TotalOfDifferences(last: int, values: seq<int>)
    ensures Total(Differences(last, values)) == Last(last, values) - last
  {
    if |values| > 0 {
      var n := |values| - 1;
      TotalOfDifferences(last, values[..n]);
      assert Differences(last, values)[..n] == Differences(last, values[..n]);
    }
  }

  /** Differences of bytes have bounded partial sums. */
  lemma {:induction false} DifferencesBounded(last: int, values: seq<int>)
    requires -128 <= last <= 127 && Bytes(values)
    ensures Bounded(Differences(last, values))
  {
    var d := Differences(last, values);
    forall k | 0 <= k <= |d|
      ensures -255 <= Total(d[..k]) <= 255
    {
      assert d[..k] == Differences(last, values[..k]);
      TotalOfDifferences(last, values[..k]);
    }
  }

  // ----- the size of the table -----

  const RANDTAB_SPACING: nat := 10
  const MIN_RANDTAB_SPACING: nat := 1

  /** Entries between the starts of two channels before a limit on the table's size is looked at. */
  function WantedSpacing(rate: nat, n: nat): nat {
    var least := LeastSpacing(rate, n);
    if RANDTAB_SPACING * rate < least then least else RANDTAB_SPACING * rate
  }

  function LeastSpacing(rate: nat, n: nat): nat {
    if MIN_RANDTAB_SPACING * rate > n then n else MIN_RANDTAB_SPACING * rate
  }

  datatype Option<T> = None | Some(value: T)

  /** Entries of the table for blocks of n samples, unless a limit does not allow the least spacing. */
  function TableSize(channels: nat, rate: nat, limit: int, n: nat): Option<nat>
    requires 0 < channels
  {
    var wanted := WantedSpacing(rate, n);
    var spacing := if limit > 0 && channels * wanted > limit then limit / channels else wanted;
    if spacing < LeastSpacing(rate, n) then None else Some(channels * spacing + 1)
  }

  /** Exactly when the table is longer than a block: ten seconds of all channels are at least a block, or, where the
      limit applies, what it leaves is. At sampling rates of a block or more it always is. */
  lemma {:induction false} TableReaches(channels: nat, rate: nat, limit: int, n: nat)
    requires 0 < channels && TableSize(channels, rate, limit, n).Some?
    ensures var size, ten := TableSize(channels, rate, limit, n).value, RANDTAB_SPACING * rate;
      && (limit <= 0 || channels * ten <= limit ==> (size > n <==> channels * ten >= n))
      && (limit > 0 && channels * ten > limit ==> (size > n <==> channels * (limit / channels) >= n))
      && (rate >= n ==> size > n)
  {
    assert WantedSpacing(rate, n) == RANDTAB_SPACING * rate;
    if rate >= n {
      assert LeastSpacing(rate, n) == n;
      AtLeastOnce(channels, n, if limit > 0 && channels * (RANDTAB_SPACING * rate) > limit then limit / channels
                               else RANDTAB_SPACING * rate);
    }
  }

  /** Exactly when a table is refused: the limit leaves each channel less than a second and less than a block. */
  lemma {:induction false} TableRefused(channels: nat, rate: nat, limit: int, n: nat)
    requires 0 < channels
    ensures TableSize(channels, rate, limit, n).None?
       <==> limit > 0 && limit / channels < rate && limit / channels < n
  {
    if limit > 0 && channels * WantedSpacing(rate, n) <= limit {
      QuotientAtLeast(limit, channels, WantedSpacing(rate, n));
    }
  }

  lemma {:induction false} QuotientAtLeast(limit: nat, channels: nat, spacing: nat)
    requires 0 < channels && channels * spacing <= limit
    ensures spacing <= limit / channels
  {
    var q := limit / channels;
    assert limit == channels * q + limit % channels;
    if q < spacing {
      MulGap(channels, q, spacing);
    }
  }

  lemma {:induction false} AtLeastOnce(channels: nat, n: nat, spacing: nat)
    requires 0 < channels && n <= spacing
    ensures n <= channels * spacing
  {
    assert (channels - 1) * spacing >= 0;
  }

  /** One channel at 8000 samples a second with blocks of 131072 samples. */
  lemma {:induction false} TableTooShort()
    ensures TableSize(1, 8000, 0, 131072) == Some(80001)
  {
  }

  // ----- the places a channel visits -----

  /** Where a block of n samples is taken from: from the start again when the table does not reach. */
  function Base(pointer: nat, n: nat, length: nat): nat {
    if pointer + n >= length then 1 else pointer
  }

  /** The pointer after a number of blocks. */
  function Pointer(start: nat, n: nat, length: nat, blocks: nat): nat {
    if blocks == 0 then start else Base(Pointer(start, n, length, blocks - 1), n, length) + n
  }

  /** The pointer moves on by a block at a time as long as there is another entry behind it, and otherwise starts again:
      the block is then taken from the second entry on. */
  lemma {:induction false} PointerRuns(start: nat, n: nat, length: nat, blocks: nat, more: nat)
    requires 1 <= start <= length && 0 < n < length
    ensures start + blocks * n < length ==> Pointer(start, n, length, blocks) == start + blocks * n
    ensures blocks > 0 && start + (blocks - 1) * n < length <= start + blocks * n ==>
      Pointer(start, n, length, blocks) == 1 + n
    ensures Pointer(start, n, length, blocks + more) == Pointer(Pointer(start, n, length, blocks), n, length, more)
    decreases blocks, more
  {
    if blocks > 0 {
      PointerRuns(start, n, length, blocks - 1, 0);
      assert blocks * n == (blocks - 1) * n + n;
    }
    if more > 0 {
      PointerRuns(start, n, length, blocks, more - 1);
    }
  }

  lemma {:induction false} PointerInside(start: nat, n: nat, length: nat, blocks: nat)
    requires 1 <= start <= length && 0 < n < length
    ensures 1 <= Pointer(start, n, length, blocks) <= length
    ensures blocks > 0 ==> Pointer(start, n, length, blocks) >= 2
    ensures 1 <= Base(Pointer(start, n, length, blocks), n, length)
    ensures Base(Pointer(start, n, length, blocks), n, length) + n <= length
  {
    if blocks > 0 {
      PointerInside(start, n, length, blocks - 1);
    }
  }

  /** The entries that a channel visits in a number of blocks; the first entry of the table is not among them. */
  function Visited(entries: seq<int>, start: nat, n: nat, blocks: nat): (values: seq<int>)
    requires 1 <= start <= |entries| && 0 < n < |entries|
    ensures |values| == blocks * n
  {
    if blocks == 0 then []
    else
      PointerInside(start, n, |entries|, blocks - 1);
      var base := Base(Pointer(start, n, |entries|, blocks - 1), n, |entries|);
      assert blocks * n == (blocks - 1) * n + n;
      Visited(entries, start, n, blocks - 1) + entries[base..base + n]
  }

  lemma {:induction false} VisitedBytes(entries: seq<int>, start: nat, n: nat, blocks: nat)
    requires 1 <= start <= |entries| && 0 < n < |entries| && Bytes(entries)
    ensures Bytes(Visited(entries, start, n, blocks))
  {
    if blocks > 0 {
      VisitedBytes(entries, start, n, blocks - 1);
      PointerInside(start, n, |entries|, blocks - 1);
      var base := Base(Pointer(start, n, |entries|, blocks - 1), n, |entries|);
      BytesJoin(Visited(entries, start, n, blocks - 1), entries[base..base + n]);
    }
  }

  lemma {:induction false} BytesJoin(x: seq<int>, y: seq<int>)
    requires Bytes(x) && Bytes(y)
    ensures Bytes(x + y)
  {
  }

  /** After a block the pointer stands behind the last entry visited. */
  lemma {:induction false} LastVisited(entries: seq<int>, first: int, start: nat, n: nat, blocks: nat)
    requires 1 <= start <= |entries| && 0 < n < |entries| && blocks > 0
    ensures 2 <= Pointer(start, n, |entries|, blocks) <= |entries|
    ensures Last(first, Visited(entries, start, n, blocks)) == entries[Pointer(start, n, |entries|, blocks) - 1]
  {
    PointerInside(start, n, |entries|, blocks - 1);
    PointerInside(start, n, |entries|, blocks);
  }

  /** One block more. */
  lemma {:induction false} VisitedMore(entries: seq<int>, first: int, start: nat, n: nat, blocks: nat, base: nat,
                                       values: seq<int>)
    requires 1 <= start <= |entries| && 0 < n < |entries|
    requires base == Base(Pointer(start, n, |entries|, blocks), n, |entries|)
    requires base + n <= |entries| && values == entries[base..base + n]
    ensures Differences(first, Visited(entries, start, n, blocks + 1))
         == Differences(first, Visited(entries, start, n, blocks))
           + Differences(Last(first, Visited(entries, start, n, blocks)), values)
  {
    DifferencesJoin(first, Visited(entries, start, n, blocks), values);
  }

  // ----- channels -----

  ghost predicate ValidTable(table: array<int>)
    reads table
  {
    table.Length > 0 && Bytes(table[..])
  }

  /** Place of one channel in the shared table. */
  class State {
    var pointer: nat

    ghost predicate Valid(table: array<int>)
      reads this
    {
      1 <= pointer <= table.Length
    }

    constructor (start: nat, table: array<int>)
      requires 1 <= start <= table.Length
      ensures Valid(table) && pointer == start
    {
      pointer := start;
    }

    /** Before a block: back to the start when the table does not reach, with the last value as its first entry. */
    method Preloop(table: array<int>, n: nat) returns (base: nat)
      requires Valid(table) && ValidTable(table) && 0 < n < table.Length
      modifies this, table
      ensures base == Base(old(pointer), n, table.Length) && pointer == base + n && Valid(table)
      ensures table[..] == if old(pointer) + n >= table.Length
                           then old(table[..])[0 := old(table[pointer - 1])] else old(table[..])
      ensures 1 <= base && base + n <= table.Length && table[base - 1] == old(table[pointer - 1])
    {
      if pointer + n >= table.Length {
        table[0] := table[pointer - 1];
        pointer := 1;
      }
      base := pointer;
      pointer := pointer + n;
    }

    /** The differences of one block of n samples: of the entries from the block's base on, the first of them from
        the value that the block before has ended with. */
    method Block(table: array<int>, n: nat) returns (diffs: seq<int>)
      requires Valid(table) && ValidTable(table) && 0 < n < table.Length
      modifies this, table
      ensures Valid(table) && ValidTable(table) && table[1..] == old(table[1..])
      ensures var base := Base(old(pointer), n, table.Length);
        && pointer == base + n <= table.Length && 1 <= base
        && diffs == Differences(old(table[pointer - 1]), table[base..base + n])
    {
      var base := Preloop(table, n);
      diffs := [];
      var k := 0;
      while k < n
        invariant 0 <= k <= n
        invariant diffs == Differences(table[base - 1], table[base..base + k])
      {
        diffs := diffs + [table[base + k] - table[base + k - 1]];
        k := k + 1;
      }
    }
  }

  ghost predicate ValidStates(states: seq<State>, table: array<int>)
    reads states, table
  {
    && ValidTable(table)
    && (forall i :: 0 <= i < |states| ==> states[i].Valid(table))
    && forall i, j :: 0 <= i < j < |states| ==> states[i] != states[j]
  }

  /** Blocks of channel c in a schedule. */
  function Turns(schedule: seq<nat>, c: nat): nat {
    Count(schedule, x => x == c)
  }

  lemma {:induction false} TurnsMore(schedule: seq<nat>, x: nat, c: nat)
    ensures Turns(schedule + [x], c) == Turns(schedule, c) + if x == c then 1 else 0
  {
    CountAppend(schedule, y => y == c, x);
  }

  /** A channel that started at `start` of the table `entries` has drawn `drew` in a number of blocks. The value
      that its first difference is taken from stays open as long as it stands in the table's first entry. */
  ghost predicate Drew(drew: seq<int>, entries: seq<int>, table: seq<int>, first: int, start: nat, pointer: nat, n: nat,
                       blocks: nat)
    requires 1 <= start <= |entries| && 0 < n < |entries|
  {
    && |table| == |entries| && table[1..] == entries[1..] && Bytes(entries)
    && -128 <= first <= 127 && (start > 1 ==> first == entries[start - 1])
    && pointer == Pointer(start, n, |entries|, blocks)
    && drew == Differences(first, Visited(entries, start, n, blocks))
  }

  /** The channel's next block. Before its first block the value to start from may have been exchanged. */
  lemma {:induction false} DrewMore(drew: seq<int>, entries: seq<int>, table: seq<int>, table': seq<int>, first: int,
                                    start: nat, pointer: nat, n: nat, blocks: nat, base: nat, diffs: seq<int>)
    returns (first': int)
    requires 1 <= start <= |entries| && 0 < n < |entries|
    requires Drew(drew, entries, table, first, start, pointer, n, blocks) && Bytes(table)
    requires 1 <= pointer <= |table| == |table'| && table'[1..] == table[1..]
    requires base == Base(pointer, n, |table|) && 1 <= base && base + n <= |table|
    requires diffs == Differences(table[pointer - 1], table'[base..base + n])
    ensures blocks > 0 ==> first' == first
    ensures Drew(drew + diffs, entries, table', first', start, base + n, n, blocks + 1)
  {
    first' := if blocks == 0 then table[pointer - 1] else first;
    SameFrom(table, entries, pointer - 1);
    SameSlice(table', entries, base, n);
    if blocks > 0 {
      LastVisited(entries, first, start, n, blocks);
    }
    VisitedMore(entries, first', start, n, blocks, base, table'[base..base + n]);
  }

  lemma {:induction false} SameSlice(x: seq<int>, y: seq<int>, base: nat, n: nat)
    requires 1 <= base && base + n <= |x| == |y| && x[1..] == y[1..]
    ensures x[base..base + n] == y[base..base + n]
  {
    assert x[base..base + n] == x[1..][base - 1..base - 1 + n];
    assert y[base..base + n] == y[1..][base - 1..base - 1 + n];
  }

  lemma {:induction false} SameFrom(x: seq<int>, y: seq<int>, k: nat)
    requires |x| == |y| && k < |x| && x[1..] == y[1..]
    ensures k > 0 ==> x[k] == y[k]
  {
    if k > 0 {
      assert x[k] == x[1..][k - 1] && y[k] == y[1..][k - 1];
    }
  }

  /** Every channel has drawn what its turns give. */
  ghost predicate AllDrew(drew: seq<seq<int>>, entries: seq<int>, table: seq<int>, firsts: seq<int>, starts: seq<nat>,
                          pointers: seq<nat>, n: nat, schedule: seq<nat>) {
    && 0 < n < |entries| && |drew| == |firsts| == |starts| == |pointers|
    && forall c {:trigger starts[c]} :: 0 <= c < |starts| ==>
         && 1 <= starts[c] <= |entries|
         && Drew(drew[c], entries, table, firsts[c], starts[c], pointers[c], n, Turns(schedule, c))
  }

  ghost function Pointers(states: seq<State>): (p: seq<nat>)
    reads states
    ensures |p| == |states| && forall c :: 0 <= c < |states| ==> p[c] == states[c].pointer
  {
    seq(|states|, c requires 0 <= c < |states| reads states => states[c].pointer)
  }

  lemma {:induction false} OthersDrew(drew: seq<seq<int>>, entries: seq<int>, table: seq<int>, firsts: seq<int>,
                                      starts: seq<nat>, pointers: seq<nat>, n: nat, schedule: seq<nat>, x: nat,
                                      drew': seq<int>, table': seq<int>, first': int, pointer': nat)
    requires AllDrew(drew, entries, table, firsts, starts, pointers, n, schedule) && x < |starts|
    requires |table'| == |table| && table'[1..] == table[1..]
    requires 1 <= starts[x] <= |entries|
    requires Drew(drew', entries, table', first', starts[x], pointer', n, Turns(schedule, x) + 1)
    ensures AllDrew(drew[x := drew'], entries, table', firsts[x := first'], starts, pointers[x := pointer'], n,
                    schedule + [x])
  {
    forall c | 0 <= c < |starts|
      ensures 1 <= starts[c] <= |entries|
      ensures Drew(drew[x := drew'][c], entries, table', firsts[x := first'][c], starts[c], pointers[x := pointer'][c],
                   n, Turns(schedule + [x], c))
    {
      TurnsMore(schedule, x, c);
    }
  }

  /** After a block of channel x. */
  lemma {:induction false} BlockDrew(drew: seq<seq<int>>, entries: seq<int>, table: seq<int>, firsts: seq<int>,
                                     starts: seq<nat>, pointers: seq<nat>, n: nat, schedule: seq<nat>, x: nat,
                                     diffs: seq<int>, table': seq<int>, pointer': nat)
    returns (firsts': seq<int>)
    requires AllDrew(drew, entries, table, firsts, starts, pointers, n, schedule) && x < |starts| && Bytes(table)
    requires 1 <= |table| == |table'| && table'[1..] == table[1..] && 1 <= pointers[x] <= |table|
    requires var base := Base(pointers[x], n, |table|);
      && 1 <= base && base + n == pointer' <= |table|
      && diffs == Differences(table[pointers[x] - 1], table'[base..base + n])
    ensures AllDrew(drew[x := drew[x] + diffs], entries, table', firsts', starts, pointers[x := pointer'], n,
                    schedule + [x])
  {
    assert 1 <= starts[x] <= |entries|;
    var base := Base(pointers[x], n, |table|);
    var first := DrewMore(drew[x], entries, table, table', firsts[x], starts[x], pointers[x], n, Turns(schedule, x),
                          base, diffs);
    OthersDrew(drew, entries, table, firsts, starts, pointers, n, schedule, x, drew[x] + diffs, table', first,
               pointer');
    firsts' := firsts[x := first];
  }

  /** One block of channel x. */
  method ChannelBlock(states: seq<State>, table: array<int>, x: nat, n: nat, drew: seq<seq<int>>,
                      ghost entries: seq<int>, ghost firsts: seq<int>, ghost starts: seq<nat>, ghost schedule: seq<nat>)
    returns (drew': seq<seq<int>>, ghost firsts': seq<int>)
    requires ValidStates(states, table) && x < |states| == |starts| && 0 < n < table.Length
    requires AllDrew(drew, entries, table[..], firsts, starts, Pointers(states), n, schedule)
    modifies states, table
    ensures ValidStates(states, table)
    ensures AllDrew(drew', entries, table[..], firsts', starts, Pointers(states), n, schedule + [x])
  {
    ghost var before, pointers := table[..], Pointers(states);
    var diffs := states[x].Block(table, n);
    assert Pointers(states) == pointers[x := states[x].pointer];
    firsts' := BlockDrew(drew, entries, before, firsts, starts, pointers, n, schedule, x, diffs, table[..],
                         states[x].pointer);
    drew' := drew[x := drew[x] + diffs];
  }

  /** The dither of a channel that started at `start` of the table `entries`: the differences of the entries that it
      visits in a number of blocks, the first of them from the entry before its start, with bounded partial sums. */
  ghost predicate IsDither(drew: seq<int>, entries: seq<int>, first: int, start: nat, n: nat, blocks: nat) {
    && 1 <= start <= |entries| && 0 < n < |entries|
    && |drew| == blocks * n && drew == Differences(first, Visited(entries, start, n, blocks))
    && -128 <= first <= 127 && (start > 1 ==> first == entries[start - 1])
    && Bounded(drew)
  }

  lemma {:induction false} DrewIsDither(drew: seq<int>, entries: seq<int>, table: seq<int>, first: int, start: nat,
                                        pointer: nat, n: nat, blocks: nat)
    requires 1 <= start <= |entries| && 0 < n < |entries|
    requires Drew(drew, entries, table, first, start, pointer, n, blocks)
    ensures IsDither(drew, entries, first, start, n, blocks)
  {
    VisitedBytes(entries, start, n, blocks);
    DifferencesBounded(first, Visited(entries, start, n, blocks));
  }

  /** Any interleaving of channel blocks: what a channel draws depends on the table, its own start and the number of
      its turns alone, and every partial sum of its integer dither stays within 255, however often the table has
      wrapped. */
  method RunSchedule(states: seq<State>, table: array<int>, schedule: seq<nat>, n: nat)
    returns (drew: seq<seq<int>>, ghost firsts: seq<int>)
    requires ValidStates(states, table) && 0 < n < table.Length
    requires forall i :: 0 <= i < |schedule| ==> schedule[i] < |states|
    modifies states, table
    ensures ValidStates(states, table) && |drew| == |firsts| == |states|
    ensures forall c: nat :: c < |states| ==>
      IsDither(drew[c], old(table[..]), firsts[c], old(states[c].pointer), n, Turns(schedule, c))
  {
    ghost var entries, starts := table[..], Pointers(states);
    drew := seq(|states|, _ => []);
    firsts := seq(|states|, c requires 0 <= c < |states| => entries[starts[c] - 1]);
    var i := 0;
    while i < |schedule|
      invariant 0 <= i <= |schedule| && ValidStates(states, table) && |drew| == |states|
      invariant AllDrew(drew, entries, table[..], firsts, starts, Pointers(states), n, schedule[..i])
    {
      assert schedule[..i + 1] == schedule[..i] + [schedule[i]];
      drew, firsts := ChannelBlock(states, table, schedule[i], n, drew, entries, firsts, starts, schedule[..i]);
      i := i + 1;
    }
    assert schedule[..i] == schedule;
    forall c: nat | c < |states|
      ensures IsDither(drew[c], entries, firsts[c], old(states[c].pointer), n, Turns(schedule, c))
    {
      DrewIsDither(drew[c], entries, table[..], firsts[c], starts[c], states[c].pointer, n, Turns(schedule, c));
    }
  }
}
