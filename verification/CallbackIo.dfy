/** Callback I/O with one client: the input half being filled, the output half being drained and the
    halves the filters use never meet, and the delay through the buffers is constant. */
module CallbackIo {
  import opened Division
  import opened Totals

  /** The first n blocks of a half are those of the stream from position `from` on. */
  ghost predicate Copy<T>(half: seq<T>, n: int, fed: seq<T>, from: int) {
    && 0 <= n <= |half| && 0 <= from && from + n <= |fed|
    && forall x {:trigger half[x]} :: 0 <= x < n ==> half[x] == fed[from + x]
  }

  lemma {:induction false} CopyLonger<T>(half: seq<T>, n: int, fed: seq<T>, from: int, block: T)
    requires Copy(half, n, fed, from)
    ensures Copy(half, n, fed + [block], from)
  {
  }

  lemma {:induction false} CopyMore<T>(half: seq<T>, n: int, fed: seq<T>, from: int, block: T)
    requires Copy(half, n, fed, from) && n < |half| && from + n == |fed|
    ensures Copy(half[n := block], n + 1, fed + [block], from)
  {
  }

  // ----- bytes -----

  /** Bytes of a half-buffer: all open channels of the device. */
  function HalfSize(period: nat, open: nat, bytes: nat): nat {
    open * bytes * period
  }

  /** Bytes that a callback moves: the channels in use. */
  function CallbackBytes(block: nat, used: nat, bytes: nat): nat {
    block * used * bytes
  }

  /** A half is filled after a whole number of callbacks, and after at most 2m - 1 of them. */
  predicate Works(m: nat, size: nat, count: nat)
    requires 0 < count
  {
    size % count == 0 && size / count <= 2 * m - 1
  }

  /** The counter of bytes left to fill after the input part of callback c, and the periods triggered so far. */
  function LeftAfter(size: nat, count: nat, c: nat): int {
    if c == 0 || LeftAfter(size, count, c - 1) == count then size else LeftAfter(size, count, c - 1) - count
  }

  function Triggers(size: nat, count: nat, c: nat): nat {
    if c == 0 then 0 else Triggers(size, count, c - 1) + if LeftAfter(size, count, c - 1) == count then 1 else 0
  }

  lemma {:induction false} NoTriggerYet(size: nat, count: nat, c: nat)
    requires forall b: nat {:trigger b * count} :: 1 <= b <= c ==> b * count != size
    ensures LeftAfter(size, count, c) == size - c * count && Triggers(size, count, c) == 0
  {
    if c > 0 {
      NoTriggerYet(size, count, c - 1);
      assert c * count == (c - 1) * count + count;
    }
  }

  lemma {:induction false} TriggersGrow(size: nat, count: nat, c: nat, d: nat)
    requires c <= d
    ensures Triggers(size, count, c) <= Triggers(size, count, d)
  {
    if c < d {
      TriggersGrow(size, count, c, d - 1);
    }
  }

  lemma {:induction false} DivideExactly(size: nat, count: nat, k: nat)
    requires 0 < count && size == k * count
    ensures size % count == 0 && size / count == k
  {
    assert size == count * k;
    RemainderOf(size, k, 0, count);
  }

  lemma {:induction false} DividesExactly(size: nat, count: nat)
    requires 0 < count && size % count == 0
    ensures size == size / count * count
  {
    assert size == count * (size / count);
    assert count * (size / count) == size / count * count;
  }

  /** The output part of callback 2m - 1, when the fill count has come down to zero, is the first to wait for the
      filters, and no input part follows until it is through. Exactly when it finds a period triggered: */
  lemma {:induction false} FirstWaitIff(m: nat, size: nat, count: nat)
    requires 0 < m && 0 < count && 0 < size
    ensures Triggers(size, count, 2 * m - 1) > 0 <==> Works(m, size, count)
  {
    var k := size / count;
    if Works(m, size, count) {
      DividesExactly(size, count);
      forall b: nat {:trigger b * count} | 1 <= b <= k - 1
        ensures b * count != size
      {
        MulGap(count, b, k);
        assert count * b == b * count && count * k == k * count;
      }
      assert 0 < k;
      NoTriggerYet(size, count, k - 1);
      assert k * count == (k - 1) * count + count;
      assert Triggers(size, count, k) == 1;
      TriggersGrow(size, count, k, 2 * m - 1);
    } else {
      forall b: nat {:trigger b * count} | 1 <= b <= 2 * m - 1
        ensures b * count != size
      {
        if b * count == size {
          DivideExactly(size, count, b);
        }
      }
      NoTriggerYet(size, count, 2 * m - 1);
    }
  }

  lemma {:induction false} PeriodBytes(period: nat, block: nat, open: nat, used: nat, bytes: nat, m: nat)
    requires 0 < block && period == m * block
    ensures HalfSize(period, open, bytes) == m * CallbackBytes(block, open, bytes)
    ensures used <= open ==> CallbackBytes(block, used, bytes) <= CallbackBytes(block, open, bytes)
    ensures used < open && 0 < bytes ==> CallbackBytes(block, used, bytes) < CallbackBytes(block, open, bytes)
  {
    assert HalfSize(period, open, bytes) == open * bytes * (m * block) == m * (block * open * bytes);
    if used < open {
      var a := block * bytes;
      assert block * used * bytes == a * used && block * open * bytes == a * open;
      if 0 < bytes {
        assert a > 0;
      }
      MulGap(a, used, open);
    }
  }

  lemma {:induction false} ScaleUp(m: nat, a: nat, b: nat)
    requires a <= b
    ensures m * a <= m * b && (0 < m && a < b ==> m * a < m * b)
  {
    if a < b {
      MulGap(m, a, b);
    }
  }

  /** The callbacks of a period fill a half exactly when all open channels are in use. */
  lemma {:induction false} FilledIff(period: nat, block: nat, open: nat, used: nat, bytes: nat, m: nat)
    requires 0 < block && period == m * block && 0 < m && 0 < used <= open && 0 < bytes
    ensures m * CallbackBytes(block, used, bytes) == HalfSize(period, open, bytes) <==> open == used
    ensures m * CallbackBytes(block, used, bytes) <= HalfSize(period, open, bytes)
    ensures 0 < CallbackBytes(block, used, bytes)
  {
    PeriodBytes(period, block, open, used, bytes, m);
    ScaleUp(m, CallbackBytes(block, used, bytes), CallbackBytes(block, open, bytes));
    assert block * used > 0;
  }

  /** With all open channels in use there is always a trigger before the first wait; with a callback for every period
      there is one only then. */
  lemma {:induction false} UsedChannelsWork(period: nat, block: nat, open: nat, used: nat, bytes: nat, m: nat)
    requires 0 < block && period == m * block && 0 < m && 0 < used <= open && 0 < bytes
    ensures 0 < CallbackBytes(block, used, bytes)
    ensures open == used ==> Works(m, HalfSize(period, open, bytes), CallbackBytes(block, used, bytes))
    ensures m == 1 ==> (Works(m, HalfSize(period, open, bytes), CallbackBytes(block, used, bytes)) <==> open == used)
  {
    var size, count := HalfSize(period, open, bytes), CallbackBytes(block, used, bytes);
    FilledIff(period, block, open, used, bytes, m);
    if open == used {
      DivideExactly(size, count, m);
    } else if m == 1 && Works(m, size, count) {
      DividesExactly(size, count);
      ScaleUp(count, size / count, 1);
    }
  }

  /** Two open channels, one in use, two bytes, a callback for every period: the first wait never ends. */
  lemma {:induction false} UnusedChannelBlocks(period: nat)
    requires 0 < period
    ensures 0 < CallbackBytes(period, 1, 2)
    ensures Triggers(HalfSize(period, 2, 2), CallbackBytes(period, 1, 2), 2 * 1 - 1) == 0
  {
    UsedChannelsWork(period, period, 2, 1, 2, 1);
    FirstWaitIff(1, HalfSize(period, 2, 2), CallbackBytes(period, 1, 2));
  }

  // ----- the client -----

  /** A half holds the blocks of the callbacks one behind the other, `k` of them: as many as its bytes are times those
      of a callback. The filter pass of a period, which copies the input half to the output half (an identity filter),
      runs at some moment between the trigger by the input callback and the end of the wait in the output callback. */
  class Client<T> {
    /** Callbacks of a period. */
    const m: nat
    const size: nat
    const count: nat
    const k: nat
    const silence: T
    var inData: seq<seq<T>>
    var outData: seq<seq<T>>
    var inHalf: nat
    /** Bytes left to fill, and to drain. */
    var inLeft: nat
    var outHalf: nat
    var outLeft: nat
    var fill: nat
    var filterHalf: nat
    var triggered: nat
    var finished: nat
    /** Every block fed so far. */
    ghost var fed: seq<T>
    /** Callbacks left to fill the half, and to drain it. */
    ghost var inRest: nat
    ghost var outRest: nat
    /** Periods triggered, and periods waited for. */
    ghost var periods: nat
    ghost var waits: nat

    /** The counters of bytes count callbacks. */
    ghost predicate Counters()
      reads this`inLeft, this`inRest, this`outLeft, this`outRest
    {
      && 0 < count && size == Times(k, count) && 0 < m <= k <= 2 * m - 1
      && inLeft == Times(inRest, count) && outLeft == Times(outRest, count)
    }

    ghost predicate InputBounds()
      reads this`inData, this`inHalf, this`inRest
    {
      |inData| == 2 && |inData[0]| == k && |inData[1]| == k && inHalf < 2 && 0 < inRest <= k
    }

    ghost predicate FilterBounds()
      reads this`outData, this`filterHalf
    {
      |outData| == 2 && |outData[0]| == k && |outData[1]| == k && filterHalf < 2
    }

    ghost predicate OutputBounds()
      reads this`outHalf, this`outRest
    {
      outHalf < 2 && outRest <= k
    }

    ghost predicate Halves()
      reads this`inData, this`inHalf, this`inRest, this`outData, this`filterHalf, this`outHalf, this`outRest
    {
      InputBounds() && FilterBounds() && OutputBounds()
    }

    /** Blocks in the period being filled. */
    ghost function Filled(): int
      reads this`inRest
    {
      k - inRest
    }

    /** First block of the period being filled. */
    ghost function Base(): int
      reads this`fed, this`inRest
    {
      |fed| - Filled()
    }

    ghost predicate FilledHolds()
      reads this`inData, this`inHalf, this`inRest, this`fed, this`periods
      requires InputBounds()
    {
      && (periods == 0 ==> Base() == 0 && inHalf == 0) && (periods == 1 ==> Base() == k && inHalf == 1)
      && (periods >= 2 ==> Base() >= 2 * k)
      && Copy(inData[inHalf], Filled(), fed, Base())
    }

    /** Tokens, and what the halves of the last two periods hold. */
    ghost predicate FilterHolds()
      reads this`inData, this`inHalf, this`inRest, this`outData, this`filterHalf
      reads this`triggered, this`finished, this`periods, this`waits, this`fed
      requires InputBounds() && FilterBounds()
    {
      && triggered <= 1 && triggered <= periods && finished + waits + triggered == periods
      && filterHalf == (if triggered == 1 then 1 - inHalf else inHalf)
      && (triggered == 1 ==> Copy(inData[1 - inHalf], k, fed, Base() - k))
      && (triggered == 0 && periods >= 1 ==> Copy(outData[1 - inHalf], k, fed, Base() - k))
      && (periods >= 2 ==> Copy(outData[inHalf], k, fed, Base() - 2 * k))
    }

    /** Position of the output against the input, where the input is `ahead` blocks further: 2m - 2 between callbacks,
        one more between the two parts of a callback. */
    ghost predicate OutputAt(ahead: int)
      reads this`inHalf, this`inRest, this`outHalf, this`outRest, this`periods, this`waits
    {
      var i, j := Filled(), k - outRest;
      || (periods == waits && i == ahead + j - k && outHalf == (if outRest == 0 then inHalf else 1 - inHalf))
      || (periods == waits + 1 && i == ahead + j - 2 * k && outHalf == (if outRest == 0 then 1 - inHalf else inHalf))
    }

    ghost predicate OutputHolds(mid: bool)
      reads this`inHalf, this`inRest, this`outHalf, this`outRest, this`periods, this`waits, this`fill, this`fed
    {
      var ahead := 2 * m - 2 + if mid then 1 else 0;
      if waits == 0 then outRest == 0 && outHalf == 0 && periods <= 1 && fill + |fed| == ahead
      else fill == 0 && outRest < k && OutputAt(ahead)
    }

    /** The counter and the triggers are those of the bytes. */
    ghost predicate InStep()
      reads this`inLeft, this`periods, this`fed
    {
      inLeft == LeftAfter(size, count, |fed|) && periods == Triggers(size, count, |fed|)
    }

    ghost predicate Valid(mid: bool)
      reads this
    {
      Counters() && Halves() && FilledHolds() && FilterHolds() && OutputHolds(mid) && InStep()
    }

    constructor (period: nat, block: nat, open: nat, used: nat, bytes: nat, quiet: T)
      requires 0 < block <= period && period % block == 0 && 0 < used <= open && 0 < bytes
      requires 0 < CallbackBytes(block, used, bytes)
      requires Works(period / block, HalfSize(period, open, bytes), CallbackBytes(block, used, bytes))
      ensures Valid(false) && fed == [] && m == period / block && silence == quiet
      ensures size == HalfSize(period, open, bytes) && count == CallbackBytes(block, used, bytes)
    {
      var bufSize, blockSize := HalfSize(period, open, bytes), CallbackBytes(block, used, bytes);
      var n := bufSize / blockSize;
      StartSizes(period, block, open, used, bytes);
      m, size, count, k := period / block, bufSize, blockSize, n;
      silence := quiet;
      inData := [seq(n, _ => quiet), seq(n, _ => quiet)];
      outData := [seq(n, _ => quiet), seq(n, _ => quiet)];
      inHalf, inLeft, inRest := 0, bufSize, n;
      outHalf, outLeft, outRest := 0, 0, 0;
      TwicePeriod(period, block);
      fill := 2 * period / block - 2;
      filterHalf, triggered, finished := 0, 0, 0;
      fed, periods, waits := [], 0, 0;
    }

    /** What the halves hold stays true of a longer stream. */
    lemma {:induction false} Appended(block: T)
      requires Halves() && FilledHolds() && FilterHolds()
      ensures Copy(inData[inHalf][Filled() := block], Filled() + 1, fed + [block], Base())
      ensures triggered == 1 ==> Copy(inData[1 - inHalf], k, fed + [block], Base() - k)
      ensures triggered == 0 && periods >= 1 ==> Copy(outData[1 - inHalf], k, fed + [block], Base() - k)
      ensures periods >= 2 ==> Copy(outData[inHalf], k, fed + [block], Base() - 2 * k)
    {
      CopyMore(inData[inHalf], Filled(), fed, Base(), block);
      if triggered == 1 {
        CopyLonger(inData[1 - inHalf], k, fed, Base() - k, block);
      }
      if triggered == 0 && periods >= 1 {
        CopyLonger(outData[1 - inHalf], k, fed, Base() - k, block);
      }
      if periods >= 2 {
        CopyLonger(outData[inHalf], k, fed, Base() - 2 * k, block);
      }
    }

    /** The block goes to the first free bytes of the half. */
    method StoreInput(block: T)
      requires Counters() && Halves() && FilledHolds() && FilterHolds()
      modifies this`inData, this`inLeft, this`inRest, this`fed
      ensures |inData| == 2 && |inData[0]| == k && |inData[1]| == k
      ensures fed == old(fed) + [block] && inRest == old(inRest) - 1
      ensures inLeft == old(inLeft) - count == Times(inRest, count)
      ensures Copy(inData[inHalf], k - inRest, fed, old(Base()))
      ensures triggered == 1 ==> Copy(inData[1 - inHalf], k, fed, old(Base()) - k)
      ensures triggered == 0 && periods >= 1 ==> Copy(outData[1 - inHalf], k, fed, old(Base()) - k)
      ensures periods >= 2 ==> Copy(outData[inHalf], k, fed, old(Base()) - 2 * k)
    {
      Appended(block);
      PlaceOf(size, count, k, inLeft, inRest);
      NoneLeft(inRest, count);
      inData := inData[inHalf := inData[inHalf][(size - inLeft) / count := block]];
      inLeft := inLeft - count;
      inRest := inRest - 1;
      fed := fed + [block];
    }

    /** The last block of a period triggers the filters. */
    method TakeInput(block: T)
      requires Counters() && Halves() && FilledHolds() && FilterHolds() && (inRest == 1 ==> triggered == 0)
      modifies this`inData, this`inHalf, this`inLeft, this`inRest, this`triggered, this`periods, this`fed
      ensures Counters() && Halves() && FilledHolds() && FilterHolds() && fed == old(fed) + [block]
      ensures inLeft == if old(inLeft) == count then size else old(inLeft) - count
      ensures old(inLeft) == count <==> old(inRest) == 1
      ensures if old(inRest) == 1 then periods == old(periods) + 1 && inRest == k && inHalf == 1 - old(inHalf)
              else periods == old(periods) && inRest == old(inRest) - 1 && inHalf == old(inHalf)
    {
      StoreInput(block);
      NoneLeft(inRest, count);
      if inLeft == 0 {
        PeriodComplete();
      }
    }

    /** The filters have finished the period before the last when the last block of a period comes. */
    lemma {:induction false} FinishedInTime()
      requires Counters() && Halves() && FilledHolds() && FilterHolds() && OutputHolds(false) && inRest == 1
      ensures triggered == 0
    {
    }

    /** A block from the client: the last one of a period triggers the filters. The half written is not
        one that filters are using. */
    method InputPart(block: T)
      requires Valid(false)
      modifies this`inData, this`inHalf, this`inLeft, this`inRest, this`triggered, this`periods, this`fed
      ensures Valid(true) && fed == old(fed) + [block]
      ensures old(triggered) > 0 ==> old(inHalf) != old(filterHalf)
    {
      if inRest == 1 {
        FinishedInTime();
      }
      TakeInput(block);
    }

    method PeriodComplete()
      requires |inData| == 2 && |inData[0]| == k && |inData[1]| == k && |outData| == 2 && |outData[0]| == k
      requires |outData[1]| == k && size == Times(k, count)
      requires inHalf < 2 && outHalf < 2 && outRest <= k && inRest == 0 < k && triggered == 0 && filterHalf == inHalf
      requires finished + waits == periods
      requires periods <= 1 ==> |fed| == (periods + 1) * k && inHalf == periods
      requires periods >= 2 ==> |fed| >= 3 * k
      requires Copy(inData[inHalf], k, fed, |fed| - k)
      requires periods >= 1 ==> Copy(outData[1 - inHalf], k, fed, |fed| - 2 * k)
      modifies this`inHalf, this`inLeft, this`inRest, this`triggered, this`periods
      ensures Halves() && FilledHolds() && FilterHolds()
      ensures inHalf == 1 - old(inHalf) && inRest == k && inLeft == size
      ensures triggered == 1 && periods == old(periods) + 1
    {
      inHalf := 1 - inHalf;
      inLeft := size;
      inRest := k;
      triggered := triggered + 1;
      periods := periods + 1;
    }

    /** The filters' pass over one period: it reads one input half and writes one output half. */
    method FilterPass(ghost mid: bool)
      requires Valid(mid) && triggered > 0
      modifies this`outData, this`filterHalf, this`triggered, this`finished
      ensures Valid(mid) && triggered == 0 && finished == old(finished) + 1
    {
      outData := outData[filterHalf := inData[filterHalf]];
      filterHalf := 1 - filterHalf;
      triggered := triggered - 1;
      finished := finished + 1;
    }

    /** The wait for the filters finds their pass triggered, at the latest by the input part of this callback. */
    method AwaitFilters()
      requires Valid(true) && outRest == 0 && fill == 0
      modifies this`outData, this`filterHalf, this`triggered, this`finished, this`waits, this`outLeft, this`outRest
      ensures Counters() && Halves() && FilledHolds() && FilterHolds() && InStep()
      ensures waits == old(waits) + 1 == periods && outRest == k && Filled() == 2 * m - 1 - k && outHalf == 1 - inHalf
    {
      OnePeriodAhead();
      if finished == 0 {
        FilterPass(true);
      }
      WaitOver();
    }

    /** When a half has been drained one more period has been triggered than waited for. */
    lemma {:induction false} OnePeriodAhead()
      requires Counters() && Halves() && FilledHolds() && FilterHolds() && OutputHolds(true)
      requires outRest == 0 && fill == 0
      ensures finished + triggered == 1 && periods == waits + 1 && Filled() == 2 * m - 1 - k && outHalf == 1 - inHalf
    {
    }

    method WaitOver()
      requires Counters() && Halves() && FilledHolds() && FilterHolds() && InStep() && finished == 1
      requires periods == waits + 1 && Filled() == 2 * m - 1 - k && outHalf == 1 - inHalf
      modifies this`finished, this`waits, this`outLeft, this`outRest
      ensures Counters() && Halves() && FilledHolds() && FilterHolds() && InStep()
      ensures waits == old(waits) + 1 == periods && outRest == k && Filled() == 2 * m - 1 - k && outHalf == 1 - inHalf
    {
      finished := finished - 1;
      waits := waits + 1;
      outLeft := size;
      outRest := k;
    }

    /** The next block of the half that is being drained, and what it is of the stream. */
    lemma {:induction false} NextDrained()
      requires Counters() && Halves() && FilledHolds() && FilterHolds()
      requires outRest > 0 && waits > 0 && OutputAt(2 * m - 1)
      ensures |fed| >= 2 * m - 1 && outData[outHalf][k - outRest] == fed[|fed| - (2 * m - 1)]
    {
      var j := k - outRest;
      if periods == waits {
        assert triggered == 0 && Copy(outData[outHalf], k, fed, Base() - k);
      } else {
        assert Copy(outData[outHalf], k, fed, Base() - 2 * k);
      }
    }

    /** The next block of the half that is being drained. */
    method Drain() returns (block: T)
      requires Counters() && Halves() && FilledHolds() && FilterHolds() && InStep()
      requires outRest > 0 && fill == 0 && waits > 0 && OutputAt(2 * m - 1)
      modifies this`outLeft, this`outRest, this`outHalf
      ensures Valid(false) && |fed| >= 2 * m - 1 && block == fed[|fed| - (2 * m - 1)]
    {
      NextDrained();
      block := DrainBlock();
    }

    method DrainBlock() returns (block: T)
      requires Counters() && FilterBounds() && OutputBounds() && outRest > 0
      modifies this`outLeft, this`outRest, this`outHalf
      ensures Counters() && OutputBounds() && outRest == old(outRest) - 1
      ensures outHalf == if outRest == 0 then 1 - old(outHalf) else old(outHalf)
      ensures block == outData[old(outHalf)][k - old(outRest)]
    {
      PlaceOf(size, count, k, outLeft, outRest);
      NoneLeft(outRest, count);
      block := outData[outHalf][(size - outLeft) / count];
      outLeft := outLeft - count;
      outRest := outRest - 1;
      NoneLeft(outRest, count);
      if outLeft == 0 {
        outHalf := 1 - outHalf;
      }
    }

    /** A block for the client: silence while the delay is filled up, then the output of the filters. The
        half read is not one that filters are using. */
    method OutputPart() returns (block: T)
      requires Valid(true)
      modifies this`outData, this`filterHalf, this`triggered, this`finished, this`waits
      modifies this`outLeft, this`outRest, this`outHalf, this`fill
      ensures Valid(false)
      ensures block == if |fed| < 2 * m - 1 then silence else fed[|fed| - (2 * m - 1)]
      ensures old(triggered) > 0 && old(outLeft) > 0 ==> old(outHalf) != old(filterHalf)
    {
      if fill != 0 {
        fill := fill - 1;
        return silence;
      }
      NoneLeft(outRest, count);
      if outLeft == 0 {
        AwaitFilters();
      }
      block := Drain();
    }

    /** One callback: the input is taken, and then the output is given. */
    method Callback(block: T, early: bool) returns (out: T)
      requires Valid(false)
      modifies this
      ensures Valid(false) && fed == old(fed) + [block]
      ensures out == if |fed| < 2 * m - 1 then silence else fed[|fed| - (2 * m - 1)]
    {
      InputPart(block);
      if early && triggered > 0 {
        FilterPass(true);
      }
      out := OutputPart();
    }
  }

  lemma {:induction false} StartSizes(period: nat, block: nat, open: nat, used: nat, bytes: nat)
    requires 0 < block <= period && period % block == 0 && 0 < used <= open && 0 < bytes
    requires 0 < CallbackBytes(block, used, bytes)
    requires Works(period / block, HalfSize(period, open, bytes), CallbackBytes(block, used, bytes))
    ensures var m, size, count := period / block, HalfSize(period, open, bytes), CallbackBytes(block, used, bytes);
      size == Times(size / count, count) && 0 < m <= size / count <= 2 * m - 1
  {
    var m, size, count := period / block, HalfSize(period, open, bytes), CallbackBytes(block, used, bytes);
    TwicePeriod(period, block);
    DividesExactly(period, block);
    FilledIff(period, block, open, used, bytes, m);
    DividesExactly(size, count);
    var k := size / count;
    TimesIs(k, count);
    assert count * k == k * count && count * m == m * count;
    if k < m {
      MulGap(count, k, m);
    }
  }

  lemma {:induction false} PlaceOf(size: nat, count: nat, k: nat, left: nat, rest: nat)
    requires 0 < count && size == Times(k, count) && left == Times(rest, count) && rest <= k
    ensures left <= size && (size - left) / count == k - rest
  {
    TimesIs(k, count);
    TimesIs(rest, count);
    assert (k - rest) * count == k * count - rest * count;
    DivideExactly((k - rest) * count, count, k - rest);
  }

  lemma {:induction false} NoneLeft(rest: nat, count: nat)
    requires 0 < count
    ensures 0 <= Times(rest, count) && (Times(rest, count) == 0 <==> rest == 0)
    ensures rest > 0 ==> Times(rest, count) - count == Times(rest - 1, count) >= 0
  {
    TimesAtMost(rest, 0, count);
    TimesOne(rest, 0);
    if rest > 0 {
      NoneLeft(rest - 1, count);
    }
  }

  /** Silence for d callbacks, then the input. */
  ghost predicate Delayed<T>(out: seq<T>, blocks: seq<T>, d: int, silence: T) {
    |out| <= |blocks| && 0 <= d && forall t :: 0 <= t < |out| ==> out[t] == if t < d then silence else blocks[t - d]
  }

  lemma {:induction false} DelayedMore<T>(out: seq<T>, blocks: seq<T>, d: int, silence: T, block: T)
    requires Delayed(out, blocks, d, silence) && |out| < |blocks|
    requires block == if |out| < d then silence else blocks[|out| - d]
    ensures Delayed(out + [block], blocks, d, silence)
  {
  }

  /** Any stream of callbacks, with the filters' pass finished early or only when it is waited for: the
      output is the input, later by twice the blocks of a period less two. */
  method Play<T>(client: Client<T>, blocks: seq<T>, early: seq<bool>) returns (out: seq<T>)
    requires client.Valid(false) && client.fed == [] && |early| == |blocks|
    modifies client
    ensures |out| == |blocks| && Delayed(out, blocks, 2 * client.m - 2, client.silence)
  {
    out := [];
    var t := 0;
    while t < |blocks|
      invariant 0 <= t <= |blocks| && client.Valid(false) && client.fed == blocks[..t] && |out| == t
      invariant Delayed(out, blocks, 2 * client.m - 2, client.silence)
    {
      assert blocks[..t + 1] == blocks[..t] + [blocks[t]];
      var block := client.Callback(blocks[t], early[t]);
      DelayedMore(out, blocks, 2 * client.m - 2, client.silence, block);
      out := out + [block];
      t := t + 1;
    }
  }

  lemma {:induction false} TwicePeriod(period: nat, block: nat)
    requires 0 < block <= period && period % block == 0
    ensures 2 * period / block == 2 * (period / block) && period / block >= 1
  {
    QuotientOfMultiple(period, 2, block);
  }
}
