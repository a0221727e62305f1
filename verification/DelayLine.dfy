/** Channel delay: a buffer in two modes that behaves as a queue of `delay` samples. */
module DelayLine {
  import opened Division
  import opened Stride
  import opened Sequences

  // ----- rings of full buffers -----

  function Following(k: nat, n: nat): nat
    requires k < n
  {
    if k + 1 == n then 0 else k + 1
  }

  /** `count` buffers of a ring of n, from `start` on. */
  ghost function Chain(bufs: seq<seq<int>>, start: nat, count: nat, n: nat): seq<int>
    requires start < n <= |bufs|
    decreases count
  {
    if count == 0 then [] else bufs[start] + Chain(bufs, Following(start, n), count - 1, n)
  }

  function After(start: nat, k: nat, n: nat): nat
    requires start < n && k <= n
  {
    if start + k < n then start + k else start + k - n
  }

  ghost predicate AllFull(bufs: seq<seq<int>>, n: nat, F: nat) {
    n <= |bufs| && forall i :: 0 <= i < n ==> |bufs[i]| == F
  }

  lemma {:induction false} ChainLength(bufs: seq<seq<int>>, start: nat, count: nat, n: nat, F: nat)
    requires start < n && AllFull(bufs, n, F)
    ensures |Chain(bufs, start, count, n)| == count * F
    decreases count
  {
    if count > 0 {
      ChainLength(bufs, Following(start, n), count - 1, n, F);
      assert count * F == (count - 1) * F + F;
    }
  }

  lemma {:induction false} ChainAppend(bufs: seq<seq<int>>, start: nat, count: nat, n: nat)
    requires start < n <= |bufs| && count < n
    ensures Chain(bufs, start, count + 1, n) == Chain(bufs, start, count, n) + bufs[After(start, count, n)]
    decreases count
  {
    var next := Following(start, n);
    if count > 0 {
      ChainAppend(bufs, next, count - 1, n);
      assert After(next, count - 1, n) == After(start, count, n);
    } else {
      assert Chain(bufs, next, 0, n) == [];
    }
  }

  lemma {:induction false} ChainUpdate(bufs: seq<seq<int>>, start: nat, count: nat, n: nat, c: nat, block: seq<int>)
    requires start < n <= |bufs| && count <= n && c < n
    requires forall i {:trigger After(start, i, n)} :: 0 <= i < count ==> After(start, i, n) != c
    ensures Chain(bufs[c := block], start, count, n) == Chain(bufs, start, count, n)
    decreases count
  {
    if count > 0 {
      var next := Following(start, n);
      assert After(start, 0, n) == start;
      forall i | 0 <= i < count - 1
        ensures After(next, i, n) != c
      {
        assert After(next, i, n) == After(start, i + 1, n);
      }
      ChainUpdate(bufs, next, count - 1, n, c, block);
    }
  }

  // ----- the queue -----

  /** The oldest F samples leave the queue. */
  function Out(pending: seq<int>, block: seq<int>): seq<int> {
    (pending + block)[..|block|]
  }

  /** The rest stays. */
  function Rest(pending: seq<int>, block: seq<int>): seq<int> {
    (pending + block)[|block|..]
  }

  /** What a ring whose current buffer is `cur` holds, oldest sample first. */
  ghost function RingPending(bufs: seq<seq<int>>, rest: seq<int>, cur: nat, n: nat): seq<int>
    requires cur < n <= |bufs|
  {
    rest + Chain(bufs, Following(cur, n), n - 1, n)
  }

  lemma {:induction false} RingKeepsBlock(bufs: seq<seq<int>>, cur: nat, n: nat, block: seq<int>)
    requires 2 <= n <= |bufs| && cur < n
    ensures Chain(bufs[cur := block], Following(Following(cur, n), n), n - 1, n)
         == Chain(bufs, Following(Following(cur, n), n), n - 2, n) + block
  {
    var start := Following(Following(cur, n), n);
    ChainAppend(bufs[cur := block], start, n - 2, n);
    assert After(start, n - 2, n) == cur;
    ChainUpdate(bufs, start, n - 2, n, cur, block);
  }

  lemma {:induction false} SliceQueue(rest: seq<int>, last: seq<int>, middle: seq<int>, block: seq<int>)
    requires |last| == |block| && |rest| <= |last|
    ensures Out(rest + (last + middle), block) == rest + last[..|last| - |rest|]
    ensures Rest(rest + (last + middle), block) == last[|last| - |rest|..] + (middle + block)
  {
  }

  /** One block through the ring. */
  lemma {:induction false} RingStep(bufs: seq<seq<int>>, rest: seq<int>, cur: nat, n: nat, block: seq<int>)
    requires 2 <= n && cur < n && AllFull(bufs, n, |block|) && |rest| < |block|
    ensures var last, r := bufs[Following(cur, n)], |rest|;
      && Out(RingPending(bufs, rest, cur, n), block) == rest + last[..|block| - r]
      && Rest(RingPending(bufs, rest, cur, n), block)
         == RingPending(bufs[cur := block], last[|block| - r..], Following(cur, n), n)
  {
    var next := Following(cur, n);
    var last, middle := bufs[next], Chain(bufs, Following(next, n), n - 2, n);
    assert RingPending(bufs, rest, cur, n) == rest + (last + middle);
    SliceQueue(rest, last, middle, block);
    RingKeepsBlock(bufs, cur, n, block);
  }

  /** One block through the short buffers. */
  lemma {:induction false} ShortStep(pending: seq<int>, block: seq<int>)
    requires |pending| <= |block|
    ensures Out(pending, block) == pending + block[..|block| - |pending|]
    ensures Rest(pending, block) == block[|block| - |pending|..]
  {
  }

  // ----- plain copies -----

  method Copy(dst: array<int>, src: array<int>, from: nat, n: nat)
    requires dst != src && n <= dst.Length && from + n <= src.Length
    modifies dst
    ensures dst[..] == src[from..from + n] + old(dst[n..])
  {
    ghost var d, s := dst[..], src[..];
    var k := 0;
    while k < n
      invariant 0 <= k <= n
      invariant forall j :: 0 <= j < k ==> dst[j] == s[from + j]
      invariant forall j :: k <= j < dst.Length ==> dst[j] == d[j]
    {
      dst[k] := src[from + k];
      k := k + 1;
    }
  }

  /** The rest buffer comes out and takes the tail of the oldest full buffer. */
  method RestOut(buf: array<int>, at: nat, spacing: nat, F: nat, rest: nat, rbuf: array<int>, lastbuf: array<int>)
    requires rbuf != lastbuf && buf != rbuf && buf != lastbuf && rest <= F == lastbuf.Length && rest <= rbuf.Length
    requires Fits(buf.Length, at, spacing, rest)
    modifies rbuf, buf
    ensures rbuf[..rest] == lastbuf[F - rest..]
    ensures Scattered(buf[..], old(buf[..]), at, spacing, old(rbuf[..rest]))
  {
    if rest != 0 {
      CopyFrom(buf, at, rbuf, spacing, rest);
      Copy(rbuf, lastbuf, F - rest, rest);
    } else {
      ScatterNothing(buf[..], at, spacing);
    }
  }

  /** The rest buffer comes out, followed by the head of the oldest full buffer, whose tail becomes the rest. */
  method RingOut(buf: array<int>, at: nat, spacing: nat, F: nat, rest: nat, rbuf: array<int>, lastbuf: array<int>)
    requires rbuf != lastbuf && buf != rbuf && buf != lastbuf && rest <= F == lastbuf.Length && rest <= rbuf.Length
    requires Fits(buf.Length, at, spacing, F)
    modifies rbuf, buf
    ensures rbuf[..rest] == lastbuf[F - rest..]
    ensures Scattered(buf[..], old(buf[..]), at, spacing, old(rbuf[..rest]) + lastbuf[..F - rest])
  {
    ghost var x, head, tail := buf[..], rbuf[..rest], lastbuf[..F - rest];
    FitsLess(buf.Length, at, spacing, F, rest);
    FitsTail(buf.Length, at, spacing, F, rest);
    RestOut(buf, at, spacing, F, rest, rbuf, lastbuf);
    ghost var y := buf[..];
    PosIs(at, spacing, rest);
    CopyFrom(buf, at + rest * spacing, lastbuf, spacing, F - rest);
    ScatterTwo(buf[..], y, x, at, spacing, head, tail);
  }

  /** The block's tail is kept in one short buffer, its head moves up, and the other short buffer comes out. */
  method ShortMoves(buf: array<int>, at: nat, spacing: nat, F: nat, rest: nat, cur: array<int>, other: array<int>)
    requires cur != other && buf != cur && buf != other && rest <= F && rest <= cur.Length && rest <= other.Length
    requires Fits(buf.Length, at, spacing, F)
    modifies cur, buf
    ensures cur[..rest] == Gather(old(buf[..]), at, spacing, F)[F - rest..]
    ensures Scattered(buf[..], old(buf[..]), at, spacing,
                      other[..rest] + Gather(old(buf[..]), at, spacing, F)[..F - rest])
  {
    ghost var x := buf[..];
    ghost var block := Gather(x, at, spacing, F);
    var keep := F - rest;
    FitsLess(buf.Length, at, spacing, F, rest);
    FitsTail(buf.Length, at, spacing, F, keep);
    GatherTail(x, at, spacing, block, keep);
    PosIs(at, spacing, keep);
    CopyTo(cur, buf, at + keep * spacing, spacing, rest);
    assert cur[..rest] == block[keep..];
    ShiftSamples(buf, at, spacing, keep, rest);
    GatherHead(x, at, spacing, block, keep);
    ghost var y := buf[..];
    CopyFrom(buf, at, other, spacing, rest);
    ScatterBack(buf[..], y, x, at, spacing, other[..rest], block[..keep]);
  }

  method AllocateBuffers(n: nat, F: nat) returns (bufs: seq<array<int>>)
    ensures |bufs| == n
    ensures forall i :: 0 <= i < n ==> fresh(bufs[i]) && bufs[i].Length == F && Silent(bufs[i][..])
    ensures forall i, j :: 0 <= i < j < n ==> bufs[i] != bufs[j]
  {
    bufs := [];
    while |bufs| < n
      invariant |bufs| <= n
      invariant forall i :: 0 <= i < |bufs| ==> fresh(bufs[i]) && bufs[i].Length == F && Silent(bufs[i][..])
      invariant forall i, j :: 0 <= i < j < |bufs| ==> bufs[i] != bufs[j]
    {
      var b := new int[F](_ => 0);
      bufs := bufs + [b];
    }
  }

  method Clear(dst: array<int>, n: nat)
    requires n <= dst.Length
    modifies dst
    ensures forall k :: 0 <= k < n ==> dst[k] == 0
    ensures dst[n..] == old(dst[n..])
  {
    var k := 0;
    while k < n
      invariant 0 <= k <= n
      invariant forall j :: 0 <= j < k ==> dst[j] == 0
      invariant dst[n..] == old(dst[n..])
    {
      dst[k] := 0;
      k := k + 1;
    }
  }

  predicate Silent(x: seq<int>) {
    forall k :: 0 <= k < |x| ==> x[k] == 0
  }

  lemma {:induction false} ChainSilent(bufs: seq<seq<int>>, start: nat, count: nat, n: nat)
    requires start < n <= |bufs| && forall i :: 0 <= i < n ==> Silent(bufs[i])
    ensures Silent(Chain(bufs, start, count, n))
    decreases count
  {
    if count > 0 {
      ChainSilent(bufs, Following(start, n), count - 1, n);
      assert Silent(bufs[start]);
    }
  }

  /** The queue after a request: of the requested length, and silent if that is longer; but as it was, if the request
      exceeds the maximum or asks for nothing new. */
  ghost predicate Changed(maxdelay: int, pending: seq<int>, newdelay: nat, pending': seq<int>) {
    && (newdelay <= maxdelay ==> |pending'| == newdelay)
    && (newdelay > maxdelay || newdelay == |pending| ==> pending' == pending)
    && (|pending| < newdelay <= maxdelay ==> Silent(pending'))
  }

  function RingDelay(n: int, rest: int, F: int): int {
    (n - 1) * F + rest
  }

  function Quotient(a: int, F: int): int
    requires F > 0
  {
    a / F
  }

  /** Whole fragments and a rest make up the delay, within the buffers allocated for the maximum. */
  lemma {:induction false} RingFits(delay: nat, maxdelay: int, F: nat)
    requires 0 < F < delay <= maxdelay
    ensures 1 <= Quotient(delay, F) <= Quotient(maxdelay, F)
    ensures RingDelay(delay / F + 1, delay % F, F) == delay && delay % F < F
  {
    QuotientGrows(F, delay, F);
    QuotientGrows(delay, maxdelay, F);
  }

  lemma {:induction false} QuotientGrows(a: nat, b: nat, F: nat)
    requires 0 < F && a <= b
    ensures a / F <= b / F
  {
    var p, q := a / F, b / F;
    assert a == F * p + a % F && b == F * q + b % F;
    if q < p {
      MulGap(F, q, p);
    }
  }

  /** The initial delay fits in the buffers that are allocated for the maximum. For short delays these have
      just the maximum's length; longer ones are made of whole fragments. */
  predicate InitFits(F: nat, initdelay: nat, maxdelay: int)
    requires 0 < F
  {
    maxdelay > 0 ==> if maxdelay <= F then initdelay <= maxdelay else Quotient(initdelay, F) <= Quotient(maxdelay, F)
  }

  lemma {:induction false} InitQuotient(F: nat, init: nat, delay: nat, maxdelay: int)
    requires 0 < F < delay && (maxdelay <= 0 ==> init == delay)
    ensures init % F < F && RingDelay(init / F + 1, init % F, F) == init
    ensures init / F == 0 ==> init == init % F && maxdelay > 0
  {
    if init / F == 0 {
      assert init == F * (init / F) + init % F;
    }
  }

  /** Initial delay, buffers in use and samples in the rest buffer, and what is allocated: full buffers,
      room in a short buffer, room in the rest buffer. */
  datatype Sizes = Sizes(init: nat, used: nat, rest: nat, full: nat, short: nat, restRoom: nat)

  /** The sizes are enough for the initial delay and for every delay up to the maximum. */
  ghost predicate Enough(z: Sizes, F: nat, maxdelay: int) {
    && F > 0
    && (maxdelay > 0 ==> z.short >= Min(maxdelay, F))
    && (maxdelay > F ==> z.full > Quotient(maxdelay, F) && z.restRoom >= F)
    && (if z.used > 0
        then 2 <= z.used <= z.full && z.rest < F && z.rest <= z.restRoom && z.init == RingDelay(z.used, z.rest, F)
        else z.rest == z.init <= F && z.rest <= z.short)
  }

  /** A maximum of zero overrides the initial delay. */
  function StartDelay(delay: nat, maximum: int): nat {
    if maximum == 0 then 0 else delay
  }

  /** The sizes that the program chooses: for the initial delay when no maximum is set, for the maximum otherwise. */
  function SizesOf(F: nat, initdelay: nat, maximum: int): Sizes
    requires 0 < F
  {
    var wanted := if maximum <= 0 then initdelay else maximum;
    var clamped := maximum >= 0 && wanted > maximum;
    var delay: nat := if clamped then maximum else wanted;
    var init: nat := if clamped then maximum else initdelay;
    if delay == 0 then Sizes(init, 0, 0, 0, 0, 0)
    else if delay <= F then Sizes(init, 0, init, 0, delay, 0)
    else
      var used := init / F + 1;
      Sizes(init, if used == 1 then 0 else used, init % F, delay / F + 1,
            if maximum > 0 then F else 0, if maximum > 0 then F else init % F)
  }

  /** The sizes are enough if and only if the initial delay fits in what is allocated for the maximum. */
  lemma {:induction false} SizesEnough(F: nat, initdelay: nat, maximum: int)
    requires 0 < F
    ensures Enough(SizesOf(F, initdelay, maximum), F, maximum) <==> InitFits(F, initdelay, maximum)
    ensures SizesOf(F, initdelay, maximum).init == StartDelay(initdelay, maximum)
  {
    if maximum > F {
      InitQuotient(F, initdelay, maximum, maximum);
    } else if maximum < 0 && initdelay > F {
      InitQuotient(F, initdelay, initdelay, maximum);
    }
  }

  /** The callers pass the configured delay and maximum, both increased by half the length of the subsample
      filters when other channels of the group use them and this one does not. A configured delay is no larger
      than a configured maximum, and -1 stands for no maximum: increased by two or more it becomes a maximum
      that the delay does not keep to. */
  lemma {:induction false} CallersFit(F: nat, delay: nat, maximum: int, extra: nat)
    requires 2 * extra + 1 <= F && (maximum == -1 || delay <= maximum)
    ensures InitFits(F, delay + extra, maximum + extra) <==> maximum >= 0 || extra <= 1
  {
    if maximum >= 0 && maximum + extra > F {
      QuotientGrows(delay + extra, maximum + extra, F);
    }
  }

  /** Exactly when a call leads to buffers of the right size and to the delay that is asked for: the configuration
      sets a maximum, or nothing is added. */
  lemma {:induction false} CallersDelay(F: nat, delay: nat, maximum: int, extra: nat)
    requires 2 * extra + 1 <= F && (maximum == -1 || delay <= maximum)
    ensures InitFits(F, delay + extra, maximum + extra) && StartDelay(delay + extra, maximum + extra) == delay + extra
       <==> maximum >= 0 || extra == 0
  {
    CallersFit(F, delay, maximum, extra);
  }

  /** No maximum and one sample added: the buffers are of the right size, but for no delay at all, and the delay is
      refused whenever it is asked for again. */
  lemma {:induction false} DelayLost(F: nat, delay: nat, pending: seq<int>, pending': seq<int>)
    requires 3 <= F && Changed(-1 + 1, pending, delay + 1, pending')
    ensures InitFits(F, delay + 1, -1 + 1) && StartDelay(delay + 1, -1 + 1) == 0 && pending' == pending
  {
  }

  lemma {:induction false} EmptyQueue(pending: seq<int>, block: seq<int>)
    requires pending == []
    ensures Out(pending, block) == block && Rest(pending, block) == []
  {
  }

  lemma {:induction false} PlainFits(length: nat, n: nat)
    requires n <= length
    ensures Fits(length, 0, 1, n)
  {
    PosIs(0, 1, n - 1);
  }

  lemma {:induction false} GatherPlain(x: seq<int>, block: seq<int>)
    requires |block| <= |x| && x[..|block|] == block && Fits(|x|, 0, 1, |block|)
    ensures Gather(x, 0, 1, |block|) == block
  {
    forall k | 0 <= k < |block|
      ensures 0 <= Pos(0, 1, k) < |x| && x[Pos(0, 1, k)] == block[k]
    {
      PosIs(0, 1, k);
      assert x[..|block|][k] == block[k];
    }
    GatherIs(x, 0, 1, block);
  }

  lemma {:induction false} ScatterPlain(y: seq<int>, x: seq<int>, vs: seq<int>, n: nat)
    requires Scattered(y, x, 0, 1, vs) && |vs| == n <= |x|
    ensures y == vs + x[n..]
  {
    forall p | 0 <= p < |x|
      ensures y[p] == (vs + x[n..])[p]
    {
      PosIs(0, 1, p);
      if p >= n && OnStride(p, 0, 1, n) {
        var k :| 0 <= k < n && p == Pos(0, 1, k);
        PosIs(0, 1, k);
      }
    }
  }

  /** The samples in the buffers of one delayed channel. Buffers that the program does not allocate have length 0. */
  class DelayBuffer {
    const fragsize: nat
    const maxdelay: int
    const fbufs: seq<array<int>>
    const rbuf: array<int>
    const short0: array<int>
    const short1: array<int>
    var curdelay: nat
    var curbuf: nat
    var nFbufs: nat
    var nRest: nat

    ghost predicate Distinct() {
      && (forall i, j :: 0 <= i < j < |fbufs| ==> fbufs[i] != fbufs[j])
      && (forall i :: 0 <= i < |fbufs| ==> fbufs[i] != rbuf && fbufs[i] != short0 && fbufs[i] != short1)
      && rbuf != short0 && rbuf != short1 && short0 != short1
    }

    /** Room for every delay up to the maximum. */
    ghost predicate Capacity() {
      && (maxdelay > 0 ==> short0.Length >= Min(maxdelay, fragsize) && short1.Length >= Min(maxdelay, fragsize))
      && (maxdelay > fragsize > 0 ==> |fbufs| > Quotient(maxdelay, fragsize) && rbuf.Length >= fragsize)
    }

    ghost predicate Valid()
      reads this
    {
      && fragsize > 0 && Distinct() && Capacity()
      && (forall i :: 0 <= i < |fbufs| ==> fbufs[i].Length == fragsize)
      && (if nFbufs > 0
          then 2 <= nFbufs <= |fbufs| && curbuf < nFbufs && nRest < fragsize && nRest <= rbuf.Length
               && curdelay == RingDelay(nFbufs, nRest, fragsize)
          else curbuf < 2 && nRest == curdelay <= fragsize && nRest <= short0.Length && nRest <= short1.Length)
    }

    ghost function Footprint(): set<object> {
      {rbuf, short0, short1} + set i | 0 <= i < |fbufs| :: fbufs[i]
    }

    ghost function Bufs(): (b: seq<seq<int>>)
      reads fbufs
      ensures |b| == |fbufs| && forall i :: 0 <= i < |fbufs| ==> b[i] == fbufs[i][..]
    {
      BufsTo(|fbufs|)
    }

    ghost function BufsTo(m: nat): (b: seq<seq<int>>)
      requires m <= |fbufs|
      reads fbufs
      ensures |b| == m && forall i :: 0 <= i < m ==> b[i] == fbufs[i][..]
    {
      if m == 0 then [] else BufsTo(m - 1) + [fbufs[m - 1][..]]
    }

    /** The queue. */
    ghost function Pending(): (p: seq<int>)
      requires Valid()
      reads this, fbufs, rbuf, short0, short1
    {
      if nFbufs > 0 then RingPending(Bufs(), rbuf[..nRest], curbuf, nFbufs)
      else if curbuf == 0 then short1[..nRest]
      else short0[..nRest]
    }

    lemma {:induction false} PendingLength()
      requires Valid()
      ensures |Pending()| == curdelay
    {
      if nFbufs > 0 {
        ChainLength(Bufs(), Following(curbuf, nFbufs), nFbufs - 1, nFbufs, fragsize);
      }
    }

    /** The block goes into the current full buffer. */
    method StoreBlock(buf: array<int>, at: nat, spacing: nat)
      requires Valid() && nFbufs > 0 && buf !in Footprint() && Fits(buf.Length, at, spacing, fragsize)
      modifies fbufs[curbuf]
      ensures Bufs() == old(Bufs())[curbuf := Gather(buf[..], at, spacing, fragsize)]
    {
      ghost var bufs, block := Bufs(), Gather(buf[..], at, spacing, fragsize);
      CopyTo(fbufs[curbuf], buf, at, spacing, fragsize);
      assert fbufs[curbuf][..] == block;
      forall i | 0 <= i < |fbufs|
        ensures fbufs[i][..] == bufs[curbuf := block][i]
      {
        if i != curbuf {
          assert fbufs[i] != fbufs[curbuf];
        }
      }
    }

    method RingMoves(buf: array<int>, at: nat, spacing: nat, lastbuf: array<int>)
      requires Valid() && nFbufs > 0 && buf !in Footprint() && Fits(buf.Length, at, spacing, fragsize)
      requires lastbuf == fbufs[Following(curbuf, nFbufs)]
      modifies fbufs, rbuf, buf
      ensures Bufs() == old(Bufs())[curbuf := Gather(old(buf[..]), at, spacing, fragsize)]
      ensures rbuf[..nRest] == old(Bufs())[Following(curbuf, nFbufs)][fragsize - nRest..]
      ensures Scattered(buf[..], old(buf[..]), at, spacing,
                        old(rbuf[..nRest]) + old(Bufs())[Following(curbuf, nFbufs)][..fragsize - nRest])
    {
      StoreBlock(buf, at, spacing);
      ghost var bufs' := Bufs();
      assert lastbuf[..] == old(Bufs())[Following(curbuf, nFbufs)];
      RingOut(buf, at, spacing, fragsize, nRest, rbuf, lastbuf);
      assert Bufs() == bufs';
    }

    /** Ring mode: the queue's head comes out of the rest buffer and the oldest full buffer. */
    method UpdateRing(buf: array<int>, at: nat, spacing: nat)
      requires Valid() && nFbufs > 0 && buf !in Footprint() && Fits(buf.Length, at, spacing, fragsize)
      modifies this`curbuf, fbufs, rbuf, buf
      ensures Valid()
      ensures Pending() == Rest(old(Pending()), Gather(old(buf[..]), at, spacing, fragsize))
      ensures Scattered(buf[..], old(buf[..]), at, spacing,
                        Out(old(Pending()), Gather(old(buf[..]), at, spacing, fragsize)))
    {
      ghost var block, bufs, rest := Gather(buf[..], at, spacing, fragsize), Bufs(), rbuf[..nRest];
      var next := Following(curbuf, nFbufs);
      RingStep(bufs, rest, curbuf, nFbufs, block);
      RingMoves(buf, at, spacing, fbufs[next]);
      curbuf := next;
    }

    /** Short mode: the queue's head comes out of the buffer that was filled one block before. */
    method UpdateShort(buf: array<int>, at: nat, spacing: nat)
      requires Valid() && nFbufs == 0 && buf !in Footprint() && Fits(buf.Length, at, spacing, fragsize)
      modifies this`curbuf, short0, short1, buf
      ensures Valid()
      ensures Pending() == Rest(old(Pending()), Gather(old(buf[..]), at, spacing, fragsize))
      ensures Scattered(buf[..], old(buf[..]), at, spacing,
                        Out(old(Pending()), Gather(old(buf[..]), at, spacing, fragsize)))
    {
      ghost var x, pending := buf[..], Pending();
      ghost var block := Gather(x, at, spacing, fragsize);
      ShortPending();
      var cur, other := if curbuf == 0 then short0 else short1, if curbuf == 0 then short1 else short0;
      ShortMoves(buf, at, spacing, fragsize, nRest, cur, other);
      ShortStep(pending, block);
      Toggle();
      ShortPending();
    }

    /** The short buffers change places. */
    method Toggle()
      requires Valid() && nFbufs == 0
      modifies this`curbuf
      ensures Valid() && curbuf == 1 - old(curbuf)
    {
      curbuf := 1 - curbuf;
    }

    lemma {:induction false} ShortPending()
      requires Valid() && nFbufs == 0
      ensures Pending() == (if curbuf == 0 then short1 else short0)[..nRest] && |Pending()| == nRest <= fragsize
    {
    }

    method ToShort(newdelay: nat)
      requires Valid() && curdelay != newdelay <= fragsize && newdelay <= maxdelay
      modifies this`curdelay, this`curbuf, this`nFbufs, this`nRest, short0, short1
      ensures Valid() && curdelay == newdelay == |Pending()|
      ensures newdelay > old(curdelay) || old(curdelay) > fragsize ==> Silent(Pending())
    {
      nRest := newdelay;
      if curdelay > fragsize || curdelay < newdelay {
        Clear(short0, newdelay);
        Clear(short1, newdelay);
      }
      nFbufs := 0;
      curbuf := 0;
      curdelay := newdelay;
    }

    method ClearRing()
      requires Distinct() && nFbufs <= |fbufs| && nRest <= rbuf.Length
      requires forall i :: 0 <= i < |fbufs| ==> fbufs[i].Length == fragsize
      modifies fbufs, rbuf
      ensures forall i :: 0 <= i < nFbufs ==> Silent(fbufs[i][..])
      ensures Silent(rbuf[..nRest])
    {
      var i := 0;
      while i < nFbufs
        invariant 0 <= i <= nFbufs
        invariant forall j {:trigger fbufs[j]} :: 0 <= j < i ==> Silent(fbufs[j][..])
      {
        Clear(fbufs[i], fragsize);
        i := i + 1;
      }
      if nRest != 0 {
        Clear(rbuf, nRest);
      }
    }

    method ToRing(newdelay: nat)
      requires Valid() && fragsize < newdelay <= maxdelay && curdelay != newdelay
      modifies this`curdelay, this`curbuf, this`nFbufs, this`nRest, fbufs, rbuf
      ensures Valid() && curdelay == newdelay == |Pending()|
      ensures newdelay > old(curdelay) ==> Silent(Pending())
    {
      RingFits(newdelay, maxdelay, fragsize);
      nRest := newdelay % fragsize;
      nFbufs := newdelay / fragsize + 1;
      var grew := curdelay < newdelay;
      if grew {
        ClearRing();
      }
      curbuf := 0;
      curdelay := newdelay;
      PendingLength();
      if grew {
        ChainSilent(Bufs(), Following(curbuf, nFbufs), nFbufs - 1, nFbufs);
      }
    }

    /** Ignored when nothing changes or the maximum is exceeded. A longer delay starts silent; a
        shorter one starts with whatever the buffers hold. */
    method ChangeDelay(newdelay: nat)
      requires Valid()
      modifies this`curdelay, this`curbuf, this`nFbufs, this`nRest, fbufs, rbuf, short0, short1
      ensures Valid()
      ensures curdelay == |Pending()| == if newdelay <= maxdelay then newdelay else old(curdelay)
      ensures newdelay > maxdelay || newdelay == old(curdelay) ==> Pending() == old(Pending())
      ensures old(curdelay) < newdelay <= maxdelay ==> Silent(Pending())
    {
      PendingLength();
      if newdelay == curdelay || newdelay > maxdelay {
        return;
      }
      if newdelay <= fragsize {
        ToShort(newdelay);
      } else {
        ToRing(newdelay);
      }
    }

    method Shift(buf: array<int>, at: nat, spacing: nat)
      requires Valid() && buf !in Footprint() && Fits(buf.Length, at, spacing, fragsize)
      modifies this`curbuf, fbufs, rbuf, short0, short1, buf
      ensures Valid()
      ensures Pending() == Rest(old(Pending()), Gather(old(buf[..]), at, spacing, fragsize))
      ensures Scattered(buf[..], old(buf[..]), at, spacing,
                        Out(old(Pending()), Gather(old(buf[..]), at, spacing, fragsize)))
    {
      if nFbufs > 0 {
        UpdateRing(buf, at, spacing);
      } else if nRest > 0 {
        UpdateShort(buf, at, spacing);
      } else {
        EmptyQueue(Pending(), Gather(buf[..], at, spacing, fragsize));
      }
    }

    /** One block: the request is considered, then the block goes through the queue, in place or in a target
        buffer of its own. `mid` is the queue after the request. */
    method Update(buf: array<int>, at: nat, spacing: nat, delay: nat, target: array?<int>)
      returns (ghost mid: seq<int>)
      requires Valid() && buf !in Footprint() && Fits(buf.Length, at, spacing, fragsize)
      requires target != null ==> target !in Footprint() && target != buf && target.Length >= fragsize
      modifies this, fbufs, rbuf, short0, short1
      modifies if target == null then {buf} else {target}
      ensures Valid()
      ensures |mid| == (if delay <= maxdelay then delay else |old(Pending())|)
      ensures delay > maxdelay || delay == |old(Pending())| ==> mid == old(Pending())
      ensures |old(Pending())| < delay <= maxdelay ==> Silent(mid)
      ensures Pending() == Rest(mid, Gather(old(buf[..]), at, spacing, fragsize))
      ensures target == null ==>
        Scattered(buf[..], old(buf[..]), at, spacing, Out(mid, Gather(old(buf[..]), at, spacing, fragsize)))
      ensures target != null ==>
        target[..] == Out(mid, Gather(buf[..], at, spacing, fragsize)) + old(target[fragsize..])
    {
      PendingLength();
      ChangeDelay(delay);
      mid := Pending();
      if target != null {
        ShiftCopy(buf, at, spacing, target);
      } else {
        Shift(buf, at, spacing);
      }
    }

    method ShiftCopy(buf: array<int>, at: nat, spacing: nat, target: array<int>)
      requires Valid() && buf !in Footprint() && Fits(buf.Length, at, spacing, fragsize)
      requires target !in Footprint() && target != buf && target.Length >= fragsize
      modifies this`curbuf, fbufs, rbuf, short0, short1, target
      ensures Valid()
      ensures Pending() == Rest(old(Pending()), Gather(buf[..], at, spacing, fragsize))
      ensures target[..] == Out(old(Pending()), Gather(buf[..], at, spacing, fragsize)) + old(target[fragsize..])
    {
      ghost var block, pending := Gather(buf[..], at, spacing, fragsize), Pending();
      CopyTo(target, buf, at, spacing, fragsize);
      ghost var x := target[..];
      PlainFits(target.Length, fragsize);
      GatherPlain(x, block);
      assert Pending() == pending;
      Shift(target, 0, 1);
      ScatterPlain(target[..], x, Out(pending, block), fragsize);
    }

    /** More samples or buffers are in use than have been allocated. */
    ghost predicate Overrun()
      reads this
    {
      if nFbufs > 0 then nFbufs > |fbufs| else nRest > short0.Length
    }

    /** Buffers for the initial delay when no maximum is set, and for the maximum otherwise. The first block
        overruns them if and only if the initial delay does not fit in what is allocated for the maximum. */
    constructor (fragmentSize: nat, initdelay: nat, maximum: int)
      requires 0 < fragmentSize
      ensures fragsize == fragmentSize && maxdelay == maximum
      ensures fresh(rbuf) && fresh(short0) && fresh(short1) && forall i :: 0 <= i < |fbufs| ==> fresh(fbufs[i])
      ensures curdelay == StartDelay(initdelay, maximum) == if maximum == 0 then 0 else initdelay
      ensures Valid() <==> InitFits(fragmentSize, initdelay, maximum)
      ensures Overrun() <==> !InitFits(fragmentSize, initdelay, maximum)
      ensures Valid() ==> |Pending()| == curdelay && Silent(Pending())
    {
      var sizes := SizesOf(fragmentSize, initdelay, maximum);
      SizesEnough(fragmentSize, initdelay, maximum);
      var bufs := AllocateBuffers(sizes.full, fragmentSize);
      fragsize, maxdelay, curdelay := fragmentSize, maximum, sizes.init;
      curbuf, nFbufs, nRest := 0, sizes.used, sizes.rest;
      fbufs := bufs;
      short0 := new int[sizes.short](_ => 0);
      short1 := new int[sizes.short](_ => 0);
      rbuf := new int[sizes.restRoom](_ => 0);
      new;
      if Valid() {
        SilentQueue();
      }
    }

    lemma {:induction false} SilentQueue()
      requires Valid() && Silent(rbuf[..]) && Silent(short0[..]) && Silent(short1[..])
      requires forall i :: 0 <= i < |fbufs| ==> Silent(fbufs[i][..])
      ensures |Pending()| == curdelay && Silent(Pending())
    {
      PendingLength();
      if nFbufs > 0 {
        ChainSilent(Bufs(), Following(curbuf, nFbufs), nFbufs - 1, nFbufs);
      }
    }
  }

  function Min(a: int, b: int): int {
    if a < b then a else b
  }

  lemma {:induction false} ScatterNothing(x: seq<int>, at: int, spacing: int)
    requires 0 <= at && 0 < spacing
    ensures Scattered(x, x, at, spacing, [])
  {
  }

  lemma {:induction false} GatherTail(x: seq<int>, at: int, spacing: int, block: seq<int>, m: nat)
    requires m <= |block| && Fits(|x|, at, spacing, |block|) && Fits(|x|, Pos(at, spacing, m), spacing, |block| - m)
    requires Holds(x, at, spacing, block)
    ensures Gather(x, Pos(at, spacing, m), spacing, |block| - m) == block[m..]
  {
    forall k | 0 <= k < |block| - m
      ensures 0 <= Pos(Pos(at, spacing, m), spacing, k) < |x|
      ensures x[Pos(Pos(at, spacing, m), spacing, k)] == block[m..][k]
    {
      PosShift(at, spacing, m, k);
      assert x[Pos(at, spacing, m + k)] == block[m + k];
    }
    GatherIs(x, Pos(at, spacing, m), spacing, block[m..]);
  }

  lemma {:induction false} GatherHead(x: seq<int>, at: int, spacing: int, block: seq<int>, m: nat)
    requires m <= |block| && Fits(|x|, at, spacing, |block|) && Fits(|x|, at, spacing, m)
    requires Holds(x, at, spacing, block)
    ensures Gather(x, at, spacing, m) == block[..m]
  {
    GatherIs(x, at, spacing, block[..m]);
  }

  /** Two adjacent stretches, the later one written first. */
  lemma {:induction false} ScatterBack(z: seq<int>, y: seq<int>, x: seq<int>, at: int, spacing: int, us: seq<int>,
                                       vs: seq<int>)
    requires Scattered(y, x, Pos(at, spacing, |us|), spacing, vs) && Scattered(z, y, at, spacing, us)
    requires Fits(|x|, at, spacing, |us| + |vs|)
    ensures Scattered(z, x, at, spacing, us + vs)
  {
    var m, n := |us|, |vs|;
    forall k | 0 <= k < m + n
      ensures 0 <= Pos(at, spacing, k) < |x| && z[Pos(at, spacing, k)] == (us + vs)[k]
    {
      FitsAt(|x|, at, spacing, m + n, k);
      if k < m {
        assert z[Pos(at, spacing, k)] == us[k];
      } else {
        PosShift(at, spacing, m, k - m);
        NotEarlier(at, spacing, m, k);
        assert y[Pos(Pos(at, spacing, m), spacing, k - m)] == vs[k - m];
      }
    }
    forall p | 0 <= p < |x| && !OnStride(p, at, spacing, m + n)
      ensures z[p] == x[p]
    {
      OnStrideSplit(p, at, spacing, m, n);
    }
  }

  lemma {:induction false} NotEarlier(at: int, spacing: int, m: nat, k: int)
    requires 0 < spacing && m <= k
    ensures !OnStride(Pos(at, spacing, k), at, spacing, m)
  {
    if OnStride(Pos(at, spacing, k), at, spacing, m) {
      var j :| 0 <= j < m && Pos(at, spacing, k) == Pos(at, spacing, j);
      PosBelow(at, spacing, j, k);
    }
  }

  // ----- runs -----

  /** The output of a queue over a sequence of blocks. */
  function Drive(pending: seq<int>, blocks: seq<seq<int>>): seq<int>
    decreases |blocks|
  {
    if |blocks| == 0 then [] else Out(pending, blocks[0]) + Drive(Rest(pending, blocks[0]), blocks[1..])
  }

  /** A queue delays: over any blocks of any lengths, its output is its content followed by the input. */
  lemma {:induction false} DriveDelays(pending: seq<int>, blocks: seq<seq<int>>)
    ensures Drive(pending, blocks) == (pending + Flatten(blocks))[..|Flatten(blocks)|]
    decreases |blocks|
  {
    if |blocks| > 0 {
      var b, later := blocks[0], Flatten(blocks[1..]);
      DriveDelays(Rest(pending, b), blocks[1..]);
      SplitQueue(pending, b, later);
    }
  }

  lemma {:induction false} SplitQueue(pending: seq<int>, block: seq<int>, later: seq<int>)
    ensures Out(pending, block) + (Rest(pending, block) + later)[..|later|]
         == (pending + (block + later))[..|block + later|]
  {
    var x, y := Out(pending, block) + (Rest(pending, block) + later)[..|later|],
      (pending + (block + later))[..|block + later|];
    assert pending + (block + later) == (pending + block) + later;
    forall k | 0 <= k < |x|
      ensures x[k] == y[k]
    {
    }
  }

  /** Sample by sample: a queue of length d delays by d. */
  lemma {:induction false} DelayedSample(pending: seq<int>, blocks: seq<seq<int>>, s: nat)
    requires s < |Flatten(blocks)|
    ensures |Drive(pending, blocks)| == |Flatten(blocks)|
    ensures Drive(pending, blocks)[s] == if s < |pending| then pending[s] else Flatten(blocks)[s - |pending|]
  {
    DriveDelays(pending, blocks);
  }

  ghost predicate AllFit(fragments: seq<seq<int>>, at: int, spacing: int, F: nat) {
    forall k :: 0 <= k < |fragments| ==> Fits(|fragments[k]|, at, spacing, F)
  }

  /** The blocks of one channel of a sequence of interleaved fragments. */
  ghost function Channel(fragments: seq<seq<int>>, at: int, spacing: int, F: nat): (blocks: seq<seq<int>>)
    requires AllFit(fragments, at, spacing, F)
    ensures |blocks| == |fragments|
  {
    seq(|fragments|, k requires 0 <= k < |fragments| => Gather(fragments[k], at, spacing, F))
  }

  /** The queue when block k arrives, before its request. */
  ghost function Before(pending: seq<int>, blocks: seq<seq<int>>, queues: seq<seq<int>>, k: nat): seq<int>
    requires k <= |queues| && k <= |blocks|
  {
    if k == 0 then pending else Rest(queues[k - 1], blocks[k - 1])
  }

  /** Queue k is what request k makes of the queue that the blocks before have left. */
  ghost predicate RequestTaken(maxdelay: int, pending: seq<int>, blocks: seq<seq<int>>, requests: seq<nat>,
                               queues: seq<seq<int>>, k: nat)
    requires k < |queues| && k < |blocks| && k < |requests|
  {
    var before := Before(pending, blocks, queues, k);
    Changed(maxdelay, before, requests[k], queues[k])
  }

  ghost predicate Queues(maxdelay: int, pending: seq<int>, blocks: seq<seq<int>>, requests: seq<nat>,
                         queues: seq<seq<int>>) {
    && |queues| <= |blocks| && |queues| <= |requests|
    && forall k: nat {:trigger RequestTaken(maxdelay, pending, blocks, requests, queues, k)} ::
         k < |queues| ==> RequestTaken(maxdelay, pending, blocks, requests, queues, k)
  }

  lemma {:induction false} QueuesMore(maxdelay: int, pending: seq<int>, blocks: seq<seq<int>>, requests: seq<nat>,
                                      queues: seq<seq<int>>, queue: seq<int>)
    requires |queues| < |blocks| && |queues| < |requests| && Queues(maxdelay, pending, blocks, requests, queues)
    requires Changed(maxdelay, Before(pending, blocks, queues, |queues|), requests[|queues|], queue)
    ensures Queues(maxdelay, pending, blocks, requests, queues + [queue])
  {
    var queues' := queues + [queue];
    forall k: nat | k < |queues'|
      ensures RequestTaken(maxdelay, pending, blocks, requests, queues', k)
    {
      assert Before(pending, blocks, queues', k) == Before(pending, blocks, queues, k);
      if k < |queues| {
        assert RequestTaken(maxdelay, pending, blocks, requests, queues, k);
      }
    }
  }

  /** In every fragment the channel's samples are replaced by the oldest samples of the queue. */
  ghost predicate Delayed(outputs: seq<seq<int>>, fragments: seq<seq<int>>, at: int, spacing: int, F: nat,
                          queues: seq<seq<int>>)
    requires AllFit(fragments, at, spacing, F)
  {
    && |outputs| == |queues| <= |fragments|
    && forall k :: 0 <= k < |outputs| ==>
         Scattered(outputs[k], fragments[k], at, spacing, Out(queues[k], Gather(fragments[k], at, spacing, F)))
  }

  method FillFragment(buf: array<int>, fragment: seq<int>)
    requires buf.Length == |fragment|
    modifies buf
    ensures buf[..] == fragment
  {
    var k := 0;
    while k < |fragment|
      invariant 0 <= k <= |fragment|
      invariant forall j :: 0 <= j < k ==> buf[j] == fragment[j]
    {
      buf[k] := fragment[k];
      k := k + 1;
    }
  }

  /** One fragment through a delay buffer. */
  method Pass(db: DelayBuffer, fragment: seq<int>, at: nat, spacing: nat, request: nat)
    returns (output: seq<int>, ghost queue: seq<int>)
    requires db.Valid() && Fits(|fragment|, at, spacing, db.fragsize)
    modifies db, db.fbufs, db.rbuf, db.short0, db.short1
    ensures db.Valid()
    ensures Changed(db.maxdelay, old(db.Pending()), request, queue)
    ensures Scattered(output, fragment, at, spacing, Out(queue, Gather(fragment, at, spacing, db.fragsize)))
    ensures db.Pending() == Rest(queue, Gather(fragment, at, spacing, db.fragsize))
  {
    var buf := new int[|fragment|];
    FillFragment(buf, fragment);
    ghost var pending := db.Pending();
    queue := db.Update(buf, at, spacing, request, null);
    assert Changed(db.maxdelay, pending, request, queue);
    output := buf[..];
  }

  /** Any fragments of interleaved channels, with any request at each of them: the channel's samples go through
      the queue, other channels are left alone, and the invariant survives. */
  method Run(db: DelayBuffer, fragments: seq<seq<int>>, at: nat, spacing: nat, requests: seq<nat>)
    returns (outputs: seq<seq<int>>, ghost queues: seq<seq<int>>)
    requires db.Valid() && AllFit(fragments, at, spacing, db.fragsize) && |requests| == |fragments|
    modifies db, db.fbufs, db.rbuf, db.short0, db.short1
    ensures db.Valid() && |queues| == |fragments|
    ensures Queues(db.maxdelay, old(db.Pending()), Channel(fragments, at, spacing, db.fragsize), requests, queues)
    ensures Delayed(outputs, fragments, at, spacing, db.fragsize, queues)
  {
    outputs, queues := [], [];
    ghost var pending, blocks := db.Pending(), Channel(fragments, at, spacing, db.fragsize);
    var k := 0;
    while k < |fragments|
      invariant 0 <= k <= |fragments| && |queues| == k && db.Valid()
      invariant db.Pending() == Before(pending, blocks, queues, k)
      invariant Queues(db.maxdelay, pending, blocks, requests, queues)
      invariant Delayed(outputs, fragments, at, spacing, db.fragsize, queues)
    {
      outputs, queues := PassNext(db, fragments, at, spacing, requests, outputs, queues, pending, blocks);
      k := k + 1;
    }
  }

  /** The next fragment of a run. */
  method PassNext(db: DelayBuffer, fragments: seq<seq<int>>, at: nat, spacing: nat, requests: seq<nat>,
                  before: seq<seq<int>>, ghost queues: seq<seq<int>>, ghost pending: seq<int>,
                  ghost blocks: seq<seq<int>>)
    returns (outputs: seq<seq<int>>, ghost queues': seq<seq<int>>)
    requires db.Valid() && AllFit(fragments, at, spacing, db.fragsize)
    requires |queues| < |requests| == |fragments| && blocks == Channel(fragments, at, spacing, db.fragsize)
    requires db.Pending() == Before(pending, blocks, queues, |queues|)
    requires Queues(db.maxdelay, pending, blocks, requests, queues)
    requires Delayed(before, fragments, at, spacing, db.fragsize, queues)
    modifies db, db.fbufs, db.rbuf, db.short0, db.short1
    ensures db.Valid() && |queues'| == |queues| + 1
    ensures db.Pending() == Before(pending, blocks, queues', |queues'|)
    ensures Queues(db.maxdelay, pending, blocks, requests, queues')
    ensures Delayed(outputs, fragments, at, spacing, db.fragsize, queues')
  {
    var output, queue := Pass(db, fragments[|before|], at, spacing, requests[|before|]);
    QueuesMore(db.maxdelay, pending, blocks, requests, queues, queue);
    outputs, queues' := before + [output], queues + [queue];
  }

  /** What comes out of the queues. */
  ghost function Outs(queues: seq<seq<int>>, blocks: seq<seq<int>>, k: nat, m: nat): seq<int>
    requires k <= m <= |queues| && m <= |blocks|
    decreases m - k
  {
    if k == m then [] else Out(queues[k], blocks[k]) + Outs(queues, blocks, k + 1, m)
  }

  lemma {:induction false} OutsAreDriven(maxdelay: int, pending: seq<int>, blocks: seq<seq<int>>, requests: seq<nat>,
                                         queues: seq<seq<int>>, k: nat, m: nat)
    requires Queues(maxdelay, pending, blocks, requests, queues) && k < m <= |queues|
    requires forall i :: k < i < m ==> requests[i] == |queues[k]| || requests[i] > maxdelay
    ensures Outs(queues, blocks, k, m) == Drive(queues[k], blocks[k..m])
    decreases m - k
  {
    var stretch := blocks[k..m];
    assert stretch[0] == blocks[k] && stretch[1..] == blocks[k + 1..m];
    if k + 1 < m {
      assert RequestTaken(maxdelay, pending, blocks, requests, queues, k + 1);
      assert queues[k + 1] == Rest(queues[k], blocks[k]);
      OutsAreDriven(maxdelay, pending, blocks, requests, queues, k + 1, m);
    }
  }

  /** The channel of the outputs is what comes out of the queues. */
  lemma {:induction false} ChannelOut(outputs: seq<seq<int>>, fragments: seq<seq<int>>, at: int, spacing: int, F: nat,
                                      queues: seq<seq<int>>, k: nat, m: nat)
    requires AllFit(fragments, at, spacing, F) && Delayed(outputs, fragments, at, spacing, F, queues)
    requires k <= m <= |queues|
    ensures AllFit(outputs, at, spacing, F)
    ensures Flatten(Channel(outputs, at, spacing, F)[k..m]) == Outs(queues, Channel(fragments, at, spacing, F), k, m)
    decreases m - k
  {
    forall j | 0 <= j < |outputs|
      ensures Fits(|outputs[j]|, at, spacing, F)
    {
      assert |outputs[j]| == |fragments[j]|;
    }
    var ys, blocks := Channel(outputs, at, spacing, F), Channel(fragments, at, spacing, F);
    if k < m {
      ChannelOut(outputs, fragments, at, spacing, F, queues, k + 1, m);
      GatherIs(outputs[k], at, spacing, Out(queues[k], blocks[k]));
      assert ys[k..m][0] == ys[k] == Out(queues[k], blocks[k]) && ys[k..m][1..] == ys[k + 1..m];
    }
  }

  /** From any request on, as long as each later one exceeds the maximum or asks for the same delay d: sample s of the
      channel comes out as input sample s - d, and the first d samples are what the queue held, silence if the delay
      has grown. The delay is the requested one, unless the request exceeds the maximum. */
  lemma {:induction false} DelayHolds(maxdelay: int, pending: seq<int>, requests: seq<nat>, queues: seq<seq<int>>,
                                      outputs: seq<seq<int>>, fragments: seq<seq<int>>, at: int, spacing: int, F: nat,
                                      k: nat, m: nat, s: nat)
    requires AllFit(fragments, at, spacing, F) && Delayed(outputs, fragments, at, spacing, F, queues)
    requires Queues(maxdelay, pending, Channel(fragments, at, spacing, F), requests, queues)
    requires k < m <= |queues| && forall i :: k < i < m ==> requests[i] == |queues[k]| || requests[i] > maxdelay
    requires s < |Flatten(Channel(fragments, at, spacing, F)[k..m])|
    ensures AllFit(outputs, at, spacing, F)
    ensures var blocks := Channel(fragments, at, spacing, F);
      var x, y := Flatten(blocks[k..m]), Flatten(Channel(outputs, at, spacing, F)[k..m]);
      var d, before := |queues[k]|, Before(pending, blocks, queues, k);
      && |y| == |x|
      && d == (if requests[k] <= maxdelay then requests[k] else |before|)
      && (requests[k] > maxdelay || requests[k] == |before| ==> queues[k] == before)
      && y[s] == if s >= d then x[s - d] else if d > |before| then 0 else queues[k][s]
  {
    var blocks := Channel(fragments, at, spacing, F);
    ChannelOut(outputs, fragments, at, spacing, F, queues, k, m);
    OutsAreDriven(maxdelay, pending, blocks, requests, queues, k, m);
    DelayedSample(queues[k], blocks[k..m], s);
    assert RequestTaken(maxdelay, pending, blocks, requests, queues, k);
  }

  /** Every fragment has its length, and only the channel's samples are others. */
  ghost predicate OthersKept(outputs: seq<seq<int>>, fragments: seq<seq<int>>, at: int, spacing: int, F: nat) {
    && |outputs| == |fragments| && AllFit(outputs, at, spacing, F)
    && forall k :: 0 <= k < |outputs| ==> KeptAround(outputs[k], fragments[k], at, spacing, F)
  }

  ghost predicate KeptAround(y: seq<int>, x: seq<int>, at: int, spacing: int, F: nat) {
    |y| == |x| && forall p :: 0 <= p < |x| && !OnStride(p, at, spacing, F) ==> y[p] == x[p]
  }

  /** A new buffer whose delay is never changed: as many zeros as its starting delay, then the input. */
  method RunFresh(F: nat, delay: nat, maximum: int, fragments: seq<seq<int>>, at: nat, spacing: nat, requests: seq<nat>)
    returns (outputs: seq<seq<int>>)
    requires 0 < F && InitFits(F, delay, maximum) && AllFit(fragments, at, spacing, F) && |requests| == |fragments|
    requires forall k :: 0 <= k < |requests| ==> requests[k] == StartDelay(delay, maximum) || requests[k] > maximum
    ensures OthersKept(outputs, fragments, at, spacing, F)
    ensures var x := Flatten(Channel(fragments, at, spacing, F));
      Flatten(Channel(outputs, at, spacing, F)) == (seq(StartDelay(delay, maximum), _ => 0) + x)[..|x|]
  {
    var db := new DelayBuffer(F, delay, maximum);
    ghost var pending := db.Pending();
    assert pending == seq(StartDelay(delay, maximum), _ => 0);
    ghost var queues;
    outputs, queues := Run(db, fragments, at, spacing, requests);
    FreshOutput(outputs, fragments, at, spacing, F, maximum, pending, requests, queues);
  }

  lemma {:induction false} FreshOutput(outputs: seq<seq<int>>, fragments: seq<seq<int>>, at: int, spacing: int, F: nat,
                                       maximum: int, pending: seq<int>, requests: seq<nat>, queues: seq<seq<int>>)
    requires AllFit(fragments, at, spacing, F) && |requests| == |fragments| == |queues|
    requires Queues(maximum, pending, Channel(fragments, at, spacing, F), requests, queues)
    requires Delayed(outputs, fragments, at, spacing, F, queues)
    requires forall k :: 0 <= k < |requests| ==> requests[k] == |pending| || requests[k] > maximum
    ensures OthersKept(outputs, fragments, at, spacing, F)
    ensures var x := Flatten(Channel(fragments, at, spacing, F));
      Flatten(Channel(outputs, at, spacing, F)) == (pending + x)[..|x|]
  {
    var blocks := Channel(fragments, at, spacing, F);
    ChannelOut(outputs, fragments, at, spacing, F, queues, 0, |queues|);
    assert Channel(outputs, at, spacing, F)[0..|queues|] == Channel(outputs, at, spacing, F);
    if |queues| > 0 {
      assert RequestTaken(maximum, pending, blocks, requests, queues, 0);
      OutsAreDriven(maximum, pending, blocks, requests, queues, 0, |queues|);
      DriveDelays(pending, blocks);
      assert blocks[0..|queues|] == blocks;
    }
  }
}
