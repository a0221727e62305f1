/** Two kinds of buffers that correspond operation by operation: what a filter computes with the one kind
    corresponds to what it computes with the other. */
module Morphism {
  import opened PartitionedFilter

  /** The operations keep buffers related. */
  ghost predicate Keeps<S(!new), T(!new)>(related: (S, T) -> bool, a: SpectrumOps<S>, b: SpectrumOps<T>) {
    && related(a.silence, b.silence)
    && (forall x, y, c, d {:trigger a.convolve(x, c), b.convolve(y, d)} ::
          related(x, y) && related(c, d) ==> related(a.convolve(x, c), b.convolve(y, d)))
    && (forall x, y, c, d {:trigger a.add(x, c), b.add(y, d)} ::
          related(x, y) && related(c, d) ==> related(a.add(x, c), b.add(y, d)))
  }

  ghost predicate AllRelated<S, T>(related: (S, T) -> bool, xs: seq<S>, ys: seq<T>) {
    |xs| == |ys| && forall i :: 0 <= i < |xs| ==> related(xs[i], ys[i])
  }

  ghost predicate SameBlock<S, T>(related: (S, T) -> bool, a: Block<S>, b: Block<T>) {
    related(a.frame, b.frame) && a.delay == b.delay && AllRelated(related, a.parts, b.parts)
  }

  ghost predicate SameHistory<S, T>(related: (S, T) -> bool, a: seq<Block<S>>, b: seq<Block<T>>) {
    |a| == |b| && forall k :: 0 <= k < |a| ==> SameBlock(related, a[k], b[k])
  }

  lemma {:induction false} SameHistoryMore<S, T>(related: (S, T) -> bool, a: seq<Block<S>>, b: seq<Block<T>>,
                                                 x: Block<S>, y: Block<T>)
    requires SameHistory(related, a, b) && SameBlock(related, x, y)
    ensures SameHistory(related, a + [x], b + [y])
  {
  }

  lemma {:induction false} PartSumRelated<S(!new), T(!new)>(related: (S, T) -> bool, a: SpectrumOps<S>,
                                                            b: SpectrumOps<T>, xs: seq<S>, ys: seq<T>, cs: seq<S>,
                                                            ds: seq<T>, n: nat)
    requires Keeps(related, a, b) && AllRelated(related, xs, ys) && AllRelated(related, cs, ds)
    requires 0 < n <= |xs| && n <= |cs|
    ensures related(a.PartSum(xs, cs, n), b.PartSum(ys, ds, n))
  {
    if n > 1 {
      PartSumRelated(related, a, b, xs, ys, cs, ds, n - 1);
    }
    assert related(a.convolve(xs[n - 1], cs[n - 1]), b.convolve(ys[n - 1], ds[n - 1]));
  }

  lemma {:induction false} RecentRelated<S(!new), T(!new)>(related: (S, T) -> bool, a: SpectrumOps<S>,
                                                           b: SpectrumOps<T>, h: seq<Block<S>>, k: seq<Block<T>>,
                                                           newest: int, n: nat)
    requires Keeps(related, a, b) && SameHistory(related, h, k)
    ensures AllRelated(related, Recent(a, h, newest, n), Recent(b, k, newest, n))
  {
    forall i | 0 <= i < n
      ensures related(Recent(a, h, newest, n)[i], Recent(b, k, newest, n)[i])
    {
      if 0 <= newest - i < |h| {
        assert SameBlock(related, h[newest - i], k[newest - i]);
      }
    }
  }

  /** What the last block must produce for the one history corresponds to what it must produce for the other. */
  lemma {:induction false} ExpectedRelated<S(!new), T(!new)>(related: (S, T) -> bool, a: SpectrumOps<S>,
                                                             b: SpectrumOps<T>, h: seq<Block<S>>, k: seq<Block<T>>)
    requires Keeps(related, a, b) && SameHistory(related, h, k) && |h| > 0 && |h[|h| - 1].parts| > 0
    ensures |k[|k| - 1].parts| > 0 && related(Expected(a, h), Expected(b, k))
  {
    var t := |h| - 1;
    assert SameBlock(related, h[t], k[t]);
    var newest, n := t - h[t].delay, |h[t].parts|;
    RecentRelated(related, a, b, h, k, newest, n);
    PartSumRelated(related, a, b, Recent(a, h, newest, n), Recent(b, k, newest, n), h[t].parts, k[t].parts, n);
  }

  /** Delays and numbers of partitions are the same, and so the output of both is specified or that of neither. */
  lemma {:induction false} SameRegular<S(!new), T(!new)>(related: (S, T) -> bool, a: seq<Block<S>>, b: seq<Block<T>>,
                                                         powersave: bool)
    requires SameHistory(related, a, b) && |a| > 0
    ensures Regular(a, powersave) <==> Regular(b, powersave)
  {
    forall k | 0 <= k < |a|
      ensures a[k].delay == b[k].delay && |a[k].parts| == |b[k].parts|
    {
      assert SameBlock(related, a[k], b[k]);
    }
  }
}
