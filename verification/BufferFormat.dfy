/** Layout of a sound buffer shared by several devices: every sample of every channel has bytes of its own. */
module BufferFormat {
  import opened Division
  import opened Sequences
  import CallbackIo

  const ALIGNMENT: nat := 32

  /** `selection`: the device's own indices of the used channels; `names`: the channels' indices in the program. */
  datatype Device = Device(interleaved: bool, openChannels: nat, selection: seq<nat>, names: seq<nat>, bytes: nat)
  {
    ghost predicate Valid() {
      && bytes > 0 && |selection| == |names| <= openChannels
      && (forall i :: 0 <= i < |selection| ==> selection[i] < openChannels)
      && (forall i, j :: 0 <= i < j < |selection| ==> selection[i] != selection[j])
    }
  }

  /** A device without interleaving opens just the used channels, in order. */
  function Modified(d: Device): Device {
    if d.interleaved then d
    else d.(openChannels := |d.names|, selection := seq(|d.names|, n => n))
  }

  datatype ChannelFormat = ChannelFormat(byteOffset: nat, spacing: nat, bytes: nat)

  // ----- the layout -----

  function Aligned(n: nat): nat {
    if n % ALIGNMENT != 0 then n + ALIGNMENT - n % ALIGNMENT else n
  }

  lemma {:induction false} AlignedIs(n: nat)
    ensures n <= Aligned(n) < n + 32 && Aligned(n) % 32 == 0
  {
    var q, r := n / ALIGNMENT, n % ALIGNMENT;
    assert n == ALIGNMENT * q + r;
    if r != 0 {
      assert Aligned(n) == ALIGNMENT * (q + 1);
    }
  }

  function Size(d: Device, fragsize: nat): nat {
    d.openChannels * d.bytes * fragsize
  }

  /** Where the device after d starts. */
  function NextStart(d: Device, start: nat, fragsize: nat): nat {
    Aligned(start + Size(Modified(d), fragsize))
  }

  /** Where device n starts. */
  function Start(devices: seq<Device>, n: nat, fragsize: nat): nat
    requires n <= |devices|
  {
    if n == 0 then 0 else NextStart(devices[n - 1], Start(devices, n - 1, fragsize), fragsize)
  }

  /** Place of sample k of the i-th used channel, counted in samples from the start of the device. */
  function Cell(d: Device, i: nat, k: nat, fragsize: nat): nat
    requires i < |d.selection|
  {
    if d.interleaved then d.openChannels * k + d.selection[i] else fragsize * i + k
  }

  function FormatOf(d: Device, start: nat, i: nat, fragsize: nat): (f: ChannelFormat)
    requires i < |d.selection|
    ensures f.bytes == d.bytes
  {
    if d.interleaved then ChannelFormat(start + d.selection[i] * d.bytes, d.openChannels, d.bytes)
    else ChannelFormat(start + i * (d.bytes * fragsize), 1, d.bytes)
  }

  /** First byte of sample k of a channel. */
  function SampleAt(f: ChannelFormat, k: nat): nat {
    f.byteOffset + k * (f.spacing * f.bytes)
  }

  lemma {:induction false} SampleCell(d: Device, start: nat, i: nat, k: nat, fragsize: nat)
    requires i < |d.selection|
    ensures SampleAt(FormatOf(d, start, i, fragsize), k) == start + d.bytes * Cell(d, i, k, fragsize)
  {
    if d.interleaved {
      InterleavedCell(d.selection[i], d.bytes, d.openChannels, k);
    } else {
      assert i * (d.bytes * fragsize) == d.bytes * (fragsize * i);
      assert d.bytes * (fragsize * i + k) == d.bytes * (fragsize * i) + d.bytes * k;
    }
  }

  lemma {:induction false} InterleavedCell(s: nat, bytes: nat, openChannels: nat, k: nat)
    ensures s * bytes + k * (openChannels * bytes) == bytes * (openChannels * k + s)
  {
    assert bytes * (openChannels * k + s) == bytes * (openChannels * k) + bytes * s;
    assert k * (openChannels * bytes) == bytes * (openChannels * k);
  }

  /** Rows of m cells do not overlap. */
  lemma {:induction false} CellsDiffer(m: nat, a: nat, r: nat, b: nat, s: nat)
    requires r < m && s < m && m * a + r == m * b + s
    ensures a == b && r == s
  {
    if a < b {
      MulGap(m, a, b);
    } else if b < a {
      MulGap(m, b, a);
    }
  }

  lemma {:induction false} CellInDevice(d: Device, i: nat, k: nat, fragsize: nat)
    requires Modified(d).Valid() && i < |Modified(d).selection| && k < fragsize
    ensures Cell(Modified(d), i, k, fragsize) < Modified(d).openChannels * fragsize
  {
    var m := Modified(d);
    if m.interleaved {
      MulGap(m.openChannels, k, fragsize);
    } else {
      MulGap(fragsize, i, m.openChannels);
      assert fragsize * m.openChannels == m.openChannels * fragsize;
    }
  }

  lemma {:induction false} CellDistinct(d: Device, i: nat, k: nat, j: nat, l: nat, fragsize: nat)
    requires Modified(d).Valid() && i < |Modified(d).selection| && j < |Modified(d).selection| && k < fragsize
    requires l < fragsize
    requires Cell(Modified(d), i, k, fragsize) == Cell(Modified(d), j, l, fragsize)
    ensures i == j && k == l
  {
    var m := Modified(d);
    if m.interleaved {
      assert i != j ==> m.selection[i] != m.selection[j];
      CellsDiffer(m.openChannels, k, m.selection[i], l, m.selection[j]);
    } else {
      CellsDiffer(fragsize, i, k, j, l);
    }
  }

  lemma {:induction false} ModifiedValid(d: Device)
    requires d.Valid()
    ensures Modified(d).Valid() && |Modified(d).selection| == |d.names|
  {
  }

  /** A sample lies within its device's part of the buffer. */
  lemma {:induction false} SampleInDevice(d: Device, start: nat, i: nat, k: nat, fragsize: nat)
    requires Modified(d).Valid() && i < |Modified(d).selection| && k < fragsize
    ensures var at := SampleAt(FormatOf(Modified(d), start, i, fragsize), k);
      start <= at && at + d.bytes <= start + Size(Modified(d), fragsize)
  {
    var m := Modified(d);
    SampleCell(m, start, i, k, fragsize);
    CellInDevice(d, i, k, fragsize);
    MulGap(m.bytes, Cell(m, i, k, fragsize), m.openChannels * fragsize);
    SizeByCells(m.bytes, m.openChannels, fragsize);
  }

  lemma {:induction false} SizeByCells(bytes: nat, channels: nat, fragsize: nat)
    ensures bytes * (channels * fragsize) == channels * bytes * fragsize
  {
  }

  lemma {:induction false} StartsGrow(devices: seq<Device>, a: nat, b: nat, fragsize: nat)
    requires a < b <= |devices|
    ensures Start(devices, a, fragsize) + Size(Modified(devices[a]), fragsize) <= Start(devices, b, fragsize)
    decreases b
  {
    AlignedIs(Start(devices, b - 1, fragsize) + Size(Modified(devices[b - 1]), fragsize));
    if a < b - 1 {
      StartsGrow(devices, a, b - 1, fragsize);
    }
  }

  /** Where the devices start, and where the last one ends. */
  ghost function Starts(devices: seq<Device>, fragsize: nat): (s: seq<nat>)
    ensures |s| == |devices| + 1
  {
    seq(|devices| + 1, n requires 0 <= n <= |devices| => Start(devices, n, fragsize))
  }

  /** Where the layout puts sample k of the i-th used channel of device n. */
  function Place(devices: seq<Device>, n: nat, i: nat, k: nat, fragsize: nat): nat
    requires n < |devices| && i < |Modified(devices[n]).selection|
  {
    SampleAt(FormatOf(Modified(devices[n]), Start(devices, n, fragsize), i, fragsize), k)
  }

  /** Devices follow each other as closely as the alignment allows, each with room for all samples of the channels that
      it opens: with interleaving all channels of the device, without just the used ones. */
  lemma {:induction false} StartsPacked(devices: seq<Device>, n: nat, fragsize: nat)
    requires n < |devices|
    ensures var d := devices[n];
      var channels := if d.interleaved then d.openChannels else |d.names|;
      var end := Start(devices, n, fragsize) + channels * d.bytes * fragsize;
      end <= Start(devices, n + 1, fragsize) < end + 32
    ensures Start(devices, 0, fragsize) == 0 && Start(devices, n + 1, fragsize) % 32 == 0
  {
    AlignedIs(Start(devices, n, fragsize) + Size(Modified(devices[n]), fragsize));
  }

  ghost predicate AllValid(devices: seq<Device>) {
    forall n :: 0 <= n < |devices| ==> devices[n].Valid()
  }

  /** Samples of different channels, or different samples of a channel, have no byte in common. */
  lemma {:induction false} SlotsDisjoint(devices: seq<Device>, fragsize: nat, n: nat, i: nat, k: nat, m: nat, j: nat,
                                         l: nat)
    requires AllValid(devices) && n < |devices| && m < |devices| && k < fragsize && l < fragsize
    requires i < |Modified(devices[n]).selection| && j < |Modified(devices[m]).selection|
    requires n != m || i != j || k != l
    ensures Place(devices, n, i, k, fragsize) + devices[n].bytes <= Place(devices, m, j, l, fragsize)
         || Place(devices, m, j, l, fragsize) + devices[m].bytes <= Place(devices, n, i, k, fragsize)
  {
    var a, b := Start(devices, n, fragsize), Start(devices, m, fragsize);
    ModifiedValid(devices[n]);
    ModifiedValid(devices[m]);
    if n == m {
      var d := Modified(devices[n]);
      SampleCell(d, a, i, k, fragsize);
      SampleCell(d, a, j, l, fragsize);
      var p, q := Cell(d, i, k, fragsize), Cell(d, j, l, fragsize);
      if p == q {
        CellDistinct(devices[n], i, k, j, l, fragsize);
      } else if p < q {
        MulGap(d.bytes, p, q);
      } else {
        MulGap(d.bytes, q, p);
      }
    } else {
      SampleInDevice(devices[n], a, i, k, fragsize);
      SampleInDevice(devices[m], b, j, l, fragsize);
      if n < m {
        StartsGrow(devices, n, m, fragsize);
      } else {
        StartsGrow(devices, m, n, fragsize);
      }
    }
  }

  /** Every sample lies within the buffer, and every device starts aligned. Samples of interleaved channels stand in
      the order of frames; other channels stand one behind the other. */
  lemma {:induction false} SlotsInside(devices: seq<Device>, fragsize: nat, n: nat, i: nat, k: nat)
    requires AllValid(devices) && n < |devices| && k < fragsize && i < |Modified(devices[n]).selection|
    ensures Place(devices, n, i, k, fragsize) + devices[n].bytes <= Start(devices, |devices|, fragsize)
    ensures Start(devices, n, fragsize) % 32 == 0
    ensures var d := devices[n];
      Place(devices, n, i, k, fragsize) == Start(devices, n, fragsize) + d.bytes *
        (if d.interleaved then d.openChannels * k + d.selection[i] else fragsize * i + k)
  {
    ModifiedValid(devices[n]);
    SampleCell(Modified(devices[n]), Start(devices, n, fragsize), i, k, fragsize);
    SampleInDevice(devices[n], Start(devices, n, fragsize), i, k, fragsize);
    StartsGrow(devices, n, |devices|, fragsize);
    if n > 0 {
      AlignedIs(Start(devices, n - 1, fragsize) + Size(Modified(devices[n - 1]), fragsize));
    }
  }

  // ----- callback devices -----

  /** Where callbacks of `block` frames copy sample k of the i-th channel. With interleaving each callback hands over
      frames of all open channels, and as many bytes of them as the used channels have, which follow those of the
      callbacks before. Without, the channels follow each other at the distance of fragsize samples of `sbytes`, the
      significant bytes of a sample. */
  function CallbackPlace(d: Device, sbytes: nat, start: nat, block: nat, i: nat, k: nat, fragsize: nat): int
    requires i < |d.selection| && 0 < block
  {
    if d.interleaved then start + k / block * Moved(d, block) + Within(d, block, i, k)
    else start + k * d.bytes + i * (fragsize * sbytes)
  }

  /** Bytes that a callback moves. */
  function Moved(d: Device, block: nat): nat {
    CallbackIo.CallbackBytes(block, |d.names|, d.bytes)
  }

  /** Where the sample is in the frames that its callback hands over. */
  function Within(d: Device, block: nat, i: nat, k: nat): nat
    requires i < |d.selection| && 0 < block
  {
    (d.openChannels * (k % block) + d.selection[i]) * d.bytes
  }

  /** The sample is copied, and to its place in the layout. */
  ghost predicate CopiedToPlace(d: Device, sbytes: nat, start: nat, block: nat, i: nat, k: nat, fragsize: nat)
    requires d.Valid() && i < |d.names| && 0 < block
  {
    && (d.interleaved ==> Within(d, block, i, k) + d.bytes <= Moved(d, block))
    && CallbackPlace(d, sbytes, start, block, i, k, fragsize) == SampleAt(FormatOf(Modified(d), start, i, fragsize), k)
  }

  ghost predicate CallbackFits(d: Device, sbytes: nat, start: nat, block: nat, fragsize: nat)
    requires d.Valid() && 0 < block
  {
    forall i: nat, k: nat {:trigger CopiedToPlace(d, sbytes, start, block, i, k, fragsize)} ::
      i < |d.names| && k < fragsize ==> CopiedToPlace(d, sbytes, start, block, i, k, fragsize)
  }

  /** Exactly when callbacks copy all samples to the places of the layout: with interleaving, if all open channels are
      in use; without, if all bytes of a sample are significant or there is a single channel. */
  lemma {:induction false} CallbackFitsIff(d: Device, sbytes: nat, start: nat, block: nat, fragsize: nat)
    requires d.Valid() && 0 < |d.names| && 2 <= fragsize && 0 < block <= fragsize && fragsize % block == 0
    ensures CallbackFits(d, sbytes, start, block, fragsize)
       <==> if d.interleaved then d.openChannels == |d.names| else sbytes == d.bytes || |d.names| <= 1
  {
    if d.interleaved {
      if d.openChannels == |d.names| {
        AllUsedFit(d, sbytes, start, block, fragsize);
      } else {
        UnusedMisplaced(d, sbytes, start, block, fragsize);
      }
    } else {
      SeparateFitIff(d, sbytes, start, block, fragsize);
    }
  }

  /** The callbacks of a period fill the device's part of the buffer exactly when all its open channels are in use. */
  lemma {:induction false} PeriodFillsIff(d: Device, block: nat, fragsize: nat)
    requires Modified(d).Valid() && 0 < |d.names| && 0 < block <= fragsize && fragsize % block == 0
    ensures fragsize / block * Moved(Modified(d), block) == Size(Modified(d), fragsize)
       <==> Modified(d).openChannels == |Modified(d).names|
  {
    var m := Modified(d);
    CallbackIo.DividesExactly(fragsize, block);
    CallbackIo.TwicePeriod(fragsize, block);
    CallbackIo.FilledIff(fragsize, block, m.openChannels, |m.names|, m.bytes, fragsize / block);
  }

  lemma {:induction false} AllUsedFit(d: Device, sbytes: nat, start: nat, block: nat, fragsize: nat)
    requires d.Valid() && d.interleaved && d.openChannels == |d.names| && 0 < block
    ensures CallbackFits(d, sbytes, start, block, fragsize)
  {
    forall i: nat, k: nat | i < |d.names| && k < fragsize
      ensures CopiedToPlace(d, sbytes, start, block, i, k, fragsize)
    {
      FrameCopied(d.openChannels, block, d.bytes, d.selection[i], k / block, k % block);
      assert k == block * (k / block) + k % block;
      SampleCell(d, start, i, k, fragsize);
    }
  }

  /** Frame r of callback q. */
  lemma {:induction false} FrameCopied(open: nat, block: nat, bytes: nat, s: nat, q: nat, r: nat)
    requires s < open && r < block
    ensures (open * r + s) * bytes + bytes <= block * open * bytes
    ensures q * (block * open * bytes) + (open * r + s) * bytes == bytes * (open * (block * q + r) + s)
  {
    MulGap(open, r, block);
    var cells, all := open * r + s, open * block;
    MulGap(bytes, cells, all);
    assert bytes * cells == cells * bytes && bytes * all == block * open * bytes;
    assert open * (block * q + r) + s == open * (block * q) + cells;
    assert bytes * (open * (block * q) + cells) == bytes * (open * (block * q)) + bytes * cells;
    assert q * (block * open * bytes) == bytes * (open * (block * q)) by {
      assert block * open * bytes == bytes * (open * block);
      assert q * (bytes * (open * block)) == bytes * (q * (open * block));
      assert q * (open * block) == open * (block * q);
    }
  }

  /** Of more open channels than used ones, some used channel is behind the used number's last place. */
  lemma {:induction false} LateChannel(d: Device) returns (i: nat)
    requires d.Valid() && 0 < |d.names|
    ensures i < |d.names| && |d.names| - 1 <= d.selection[i]
  {
    var n := |d.names|;
    if forall j :: 0 <= j < n ==> d.selection[j] < n - 1 {
      var a, b := Pigeonhole(d.selection, n - 1);
    }
    i :| i < n && n - 1 <= d.selection[i];
  }

  lemma {:induction false} UnusedMisplaced(d: Device, sbytes: nat, start: nat, block: nat, fragsize: nat)
    requires d.Valid() && d.interleaved && d.openChannels != |d.names| && 0 < |d.names|
    requires 2 <= fragsize && 0 < block <= fragsize
    ensures !CallbackFits(d, sbytes, start, block, fragsize)
  {
    if block == 1 {
      assert !CopiedToPlace(d, sbytes, start, 1, 0, 1, fragsize) by {
        SecondFrame(d, sbytes, start, fragsize);
      }
    } else {
      var i := LateChannel(d);
      assert !CopiedToPlace(d, sbytes, start, block, i, block - 1, fragsize) by {
        LastFrameCut(d.openChannels, |d.names|, block, d.bytes, d.selection[i]);
      }
    }
  }

  /** A callback for every frame: the second one is put too early. */
  lemma {:induction false} SecondFrame(d: Device, sbytes: nat, start: nat, fragsize: nat)
    requires d.Valid() && d.interleaved && d.openChannels != |d.names| && 0 < |d.names|
    ensures !CopiedToPlace(d, sbytes, start, 1, 0, 1, fragsize)
  {
    assert Moved(d, 1) == |d.names| * d.bytes;
    SameProduct(d.bytes, |d.names|, d.openChannels);
    SampleCell(d, start, 0, 1, fragsize);
    assert d.bytes * (d.openChannels * 1 + d.selection[0]) == d.bytes * d.openChannels + d.bytes * d.selection[0];
  }

  /** The last frame of a callback is not copied as a whole. */
  lemma {:induction false} LastFrameCut(open: nat, used: nat, block: nat, bytes: nat, s: nat)
    requires used < open && used - 1 <= s && 2 <= block && 0 < bytes
    ensures (open * ((block - 1) % block) + s) * bytes + bytes > block * used * bytes
  {
    SmallRemainder(block - 1, block);
    CellsBeyond(open, used, block, s);
    BytesBeyond(open * (block - 1) + s, block * used, bytes);
  }

  lemma {:induction false} CellsBeyond(open: nat, used: nat, block: nat, s: nat)
    requires used < open && used - 1 <= s && 2 <= block
    ensures open * (block - 1) + s + 1 > block * used
  {
    MulGap(block - 1, used, open);
    assert (block - 1) * used == block * used - used;
    assert (block - 1) * open == open * (block - 1);
  }

  lemma {:induction false} BytesBeyond(cells: nat, copied: nat, bytes: nat)
    requires copied < cells + 1 && 0 < bytes
    ensures cells * bytes + bytes > copied * bytes
  {
    MulGap(bytes, copied, cells + 1);
    assert bytes * (cells + 1) == cells * bytes + bytes && bytes * copied == copied * bytes;
  }

  lemma {:induction false} SeparateFitIff(d: Device, sbytes: nat, start: nat, block: nat, fragsize: nat)
    requires d.Valid() && !d.interleaved && 0 < fragsize && 0 < block
    ensures CallbackFits(d, sbytes, start, block, fragsize) <==> sbytes == d.bytes || |d.names| <= 1
  {
    if sbytes != d.bytes && 2 <= |d.names| {
      assert CallbackPlace(d, sbytes, start, block, 1, 0, fragsize) == start + fragsize * sbytes;
      assert SampleAt(FormatOf(Modified(d), start, 1, fragsize), 0) == start + fragsize * d.bytes by {
        assert 1 * (d.bytes * fragsize) == fragsize * d.bytes;
      }
      SameProduct(fragsize, sbytes, d.bytes);
      assert !CopiedToPlace(d, sbytes, start, block, 1, 0, fragsize);
    } else {
      forall i: nat, k: nat | i < |d.names| && k < fragsize
        ensures CopiedToPlace(d, sbytes, start, block, i, k, fragsize)
      {
        SameOffset(d.bytes, sbytes, i, k, fragsize);
      }
    }
  }

  lemma {:induction false} SameProduct(m: nat, a: nat, b: nat)
    requires 0 < m && a != b
    ensures m * a != m * b
  {
    if a < b {
      MulGap(m, a, b);
    } else {
      MulGap(m, b, a);
    }
  }

  lemma {:induction false} SameOffset(bytes: nat, sbytes: nat, i: nat, k: nat, fragsize: nat)
    requires sbytes == bytes || i == 0
    ensures k * bytes + i * (fragsize * sbytes) == i * (bytes * fragsize) + k * (1 * bytes)
  {
    if i == 0 {
      assert i * (fragsize * sbytes) == 0 && i * (bytes * fragsize) == 0;
    }
  }

  /** Two channels of samples with three significant bytes of four: the second channel's first sample is copied over
      the last samples of the first channel. */
  lemma {:induction false} CallbackOverlaps(d: Device, start: nat, block: nat, fragsize: nat)
    requires d == Device(false, 2, [0, 1], [0, 1], 4) && 0 < fragsize && 0 < block
    ensures d.Valid() && !CallbackFits(d, 3, start, block, fragsize)
    ensures CallbackPlace(d, 3, start, block, 1, 0, fragsize)
          < CallbackPlace(d, 3, start, block, 0, fragsize - 1, fragsize) + d.bytes
  {
    SeparateFitIff(d, 3, start, block, fragsize);
  }

  /** Channels 0 of two in use: the callbacks of a period leave the device's part of the buffer half empty, and the
      samples are not where the layout has them. */
  lemma {:induction false} UnusedChannelMisplaced(d: Device, start: nat, block: nat, fragsize: nat)
    requires d == Device(true, 2, [0], [7], 2) && 2 <= fragsize && 0 < block <= fragsize && fragsize % block == 0
    ensures d.Valid() && !CallbackFits(d, 2, start, block, fragsize)
    ensures fragsize / block * Moved(d, block) != Size(d, fragsize)
  {
    PeriodFillsIff(d, block, fragsize);
    UnusedMisplaced(d, 2, start, block, fragsize);
  }

  // ----- the computation -----

  /** Names of the channels, device by device. */
  function Names(devices: seq<Device>): (names: seq<seq<nat>>)
    ensures |names| == |devices| && forall n :: 0 <= n < |devices| ==> names[n] == devices[n].names
  {
    seq(|devices|, n requires 0 <= n < |devices| => devices[n].names)
  }

  /** Formats of the channels of one device. */
  ghost function DeviceLayout(d: Device, start: nat, fragsize: nat): (fs: seq<ChannelFormat>)
    requires d.Valid()
    ensures |fs| == |d.names|
    ensures forall i :: 0 <= i < |fs| ==> fs[i] == FormatOf(Modified(d), start, i, fragsize)
  {
    seq(|d.names|, i requires 0 <= i < |d.names| => FormatOf(Modified(d), start, i, fragsize))
  }

  ghost function Layout(devices: seq<Device>, fragsize: nat): (want: seq<seq<ChannelFormat>>)
    requires AllValid(devices)
    ensures |want| == |devices|
  {
    seq(|devices|, n requires 0 <= n < |devices| => DeviceLayout(devices[n], Start(devices, n, fragsize), fragsize))
  }

  lemma {:induction false} LayoutAt(devices: seq<Device>, fragsize: nat, n: nat)
    requires AllValid(devices) && n < |devices|
    ensures Layout(devices, fragsize)[n] == DeviceLayout(devices[n], Start(devices, n, fragsize), fragsize)
    ensures |Layout(devices, fragsize)[n]| == |devices[n].names|
  {
  }

  ghost predicate SameShape<T>(names: seq<seq<nat>>, want: seq<seq<T>>) {
    |names| == |want| && forall n :: 0 <= n < |names| ==> |names[n]| == |want[n]|
  }

  /** Channel (n, i) has its format. */
  ghost predicate Assigned<T>(names: seq<seq<nat>>, want: seq<seq<T>>, formats: map<nat, T>, n: nat, i: nat) {
    n < |names| && i < |names[n]| && n < |want| && i < |want[n]| ==>
      names[n][i] in formats && formats[names[n][i]] == want[n][i]
  }

  /** The channels of the first n devices, and the first i of device n, have theirs. */
  ghost predicate AssignedTo<T>(names: seq<seq<nat>>, want: seq<seq<T>>, formats: map<nat, T>, n: nat, i: nat) {
    forall m: nat, j: nat {:trigger Assigned(names, want, formats, m, j)} :: m < n || (m == n && j < i) ==>
      Assigned(names, want, formats, m, j)
  }

  ghost predicate SameName(names: seq<seq<nat>>, n: nat, i: nat, m: nat, j: nat) {
    n < |names| && i < |names[n]| && m < |names| && j < |names[m]| && names[n][i] == names[m][j]
  }

  /** Names are used once. */
  ghost predicate NamesDistinct(names: seq<seq<nat>>) {
    forall n: nat, i: nat, m: nat, j: nat {:trigger SameName(names, n, i, m, j)} :: SameName(names, n, i, m, j) ==>
      n == m && i == j
  }

  lemma {:induction false} AssignOne<T>(names: seq<seq<nat>>, want: seq<seq<T>>, formats: map<nat, T>, n: nat, i: nat)
    requires SameShape(names, want) && NamesDistinct(names) && n < |names| && i < |names[n]|
    requires AssignedTo(names, want, formats, n, i)
    ensures AssignedTo(names, want, formats[names[n][i] := want[n][i]], n, i + 1)
  {
    var formats' := formats[names[n][i] := want[n][i]];
    forall m: nat, j: nat | m < n || (m == n && j < i + 1)
      ensures Assigned(names, want, formats', m, j)
    {
      if m < n || j < i {
        assert Assigned(names, want, formats, m, j);
        assert !SameName(names, n, i, m, j);
      }
    }
  }

  lemma {:induction false} AssignDevice<T>(names: seq<seq<nat>>, want: seq<seq<T>>, formats: map<nat, T>, n: nat)
    requires n < |names| && AssignedTo(names, want, formats, n, |names[n]|)
    ensures AssignedTo(names, want, formats, n + 1, 0)
  {
    forall m: nat, j: nat | m < n + 1
      ensures Assigned(names, want, formats, m, j)
    {
      if m < n || j < |names[n]| {
        assert Assigned(names, want, formats, m, j);
      }
    }
  }

  /** The channels of one device; n_bytes grows per channel for a device without interleaving, and at the
      end of the device otherwise. */
  method DeviceFormat(d: Device, fragsize: nat, before: map<nat, ChannelFormat>, start: nat, ghost n: nat,
                      ghost names: seq<seq<nat>>, ghost want: seq<seq<ChannelFormat>>)
    returns (formats: map<nat, ChannelFormat>, nBytes: nat)
    requires d.Valid() && n < |names| && SameShape(names, want) && NamesDistinct(names)
    requires names[n] == d.names && want[n] == DeviceLayout(d, start, fragsize)
    requires AssignedTo(names, want, before, n, 0)
    ensures AssignedTo(names, want, formats, n, |names[n]|)
    ensures nBytes == NextStart(d, start, fragsize)
  {
    var m := Modified(d);
    formats, nBytes := before, start;
    var i := 0;
    while i < |m.names|
      invariant 0 <= i <= |m.names|
      invariant nBytes == if m.interleaved then start else start + i * (m.bytes * fragsize)
      invariant AssignedTo(names, want, formats, n, i)
    {
      var f := FormatAt(m, nBytes, i);
      assert f == want[n][i];
      AssignOne(names, want, formats, n, i);
      formats := formats[m.names[i] := f];
      if !m.interleaved {
        NextSlot(i, m.bytes * fragsize);
        nBytes := nBytes + m.bytes * fragsize;
      }
      i := i + 1;
    }
    SizeBySlots(m, fragsize);
    if m.interleaved {
      nBytes := nBytes + m.openChannels * m.bytes * fragsize;
    }
    nBytes := Aligned(nBytes);
  }

  function FormatAt(d: Device, nBytes: nat, i: nat): ChannelFormat
    requires i < |d.selection|
  {
    if d.interleaved then ChannelFormat(nBytes + d.selection[i] * d.bytes, d.openChannels, d.bytes)
    else ChannelFormat(nBytes, 1, d.bytes)
  }

  lemma {:induction false} NextSlot(i: nat, size: nat)
    ensures (i + 1) * size == i * size + size
  {
  }

  lemma {:induction false} SizeBySlots(d: Device, fragsize: nat)
    ensures d.openChannels * (d.bytes * fragsize) == Size(d, fragsize)
  {
  }

  /** The names, formats and starts of device n are those of the layout. */
  ghost predicate DeviceFits(devices: seq<Device>, fragsize: nat, names: seq<seq<nat>>, want: seq<seq<ChannelFormat>>,
                             starts: seq<nat>, n: nat)
    requires AllValid(devices)
  {
    && n < |devices| == |names| == |want| && |starts| == |devices| + 1
    && names[n] == devices[n].names && want[n] == DeviceLayout(devices[n], starts[n], fragsize)
    && starts[n + 1] == NextStart(devices[n], starts[n], fragsize)
  }

  ghost predicate LayoutFits(devices: seq<Device>, fragsize: nat, names: seq<seq<nat>>, want: seq<seq<ChannelFormat>>,
                             starts: seq<nat>)
    requires AllValid(devices)
  {
    && |starts| == |devices| + 1 && starts[0] == 0 && SameShape(names, want) && NamesDistinct(names)
    && forall n: nat {:trigger DeviceFits(devices, fragsize, names, want, starts, n)} ::
      n < |devices| ==> DeviceFits(devices, fragsize, names, want, starts, n)
  }

  lemma {:induction false} StartsAt(devices: seq<Device>, fragsize: nat, n: nat)
    requires n < |devices|
    ensures Starts(devices, fragsize)[n] == Start(devices, n, fragsize)
    ensures Starts(devices, fragsize)[n + 1] == NextStart(devices[n], Start(devices, n, fragsize), fragsize)
  {
  }

  lemma {:induction false} FitsAt(devices: seq<Device>, fragsize: nat, n: nat)
    requires AllValid(devices) && n < |devices|
    ensures DeviceFits(devices, fragsize, Names(devices), Layout(devices, fragsize), Starts(devices, fragsize), n)
    ensures |Names(devices)[n]| == |Layout(devices, fragsize)[n]|
  {
    LayoutAt(devices, fragsize, n);
    StartsAt(devices, fragsize, n);
  }

  lemma {:induction false} LayoutFitsItself(devices: seq<Device>, fragsize: nat)
    requires AllValid(devices) && NamesDistinct(Names(devices))
    ensures LayoutFits(devices, fragsize, Names(devices), Layout(devices, fragsize), Starts(devices, fragsize))
  {
    forall n: nat | n < |devices|
      ensures DeviceFits(devices, fragsize, Names(devices), Layout(devices, fragsize), Starts(devices, fragsize), n)
      ensures |Names(devices)[n]| == |Layout(devices, fragsize)[n]|
    {
      FitsAt(devices, fragsize, n);
    }
  }

  method NextDevice(devices: seq<Device>, fragsize: nat, before: map<nat, ChannelFormat>, start: nat, n: nat,
                    ghost names: seq<seq<nat>>, ghost want: seq<seq<ChannelFormat>>, ghost starts: seq<nat>)
    returns (formats: map<nat, ChannelFormat>, nBytes: nat)
    requires AllValid(devices) && n < |devices| && SameShape(names, want) && NamesDistinct(names)
    requires DeviceFits(devices, fragsize, names, want, starts, n) && start == starts[n]
    requires AssignedTo(names, want, before, n, 0)
    ensures AssignedTo(names, want, formats, n + 1, 0) && nBytes == starts[n + 1]
  {
    formats, nBytes := DeviceFormat(devices[n], fragsize, before, start, n, names, want);
    AssignDevice(names, want, formats, n);
  }

  method AllDevices(devices: seq<Device>, fragsize: nat, ghost names: seq<seq<nat>>,
                    ghost want: seq<seq<ChannelFormat>>, ghost starts: seq<nat>)
    returns (formats: map<nat, ChannelFormat>, offsets: seq<nat>, nBytes: nat)
    requires AllValid(devices) && LayoutFits(devices, fragsize, names, want, starts)
    ensures AssignedTo(names, want, formats, |devices|, 0)
    ensures offsets + [nBytes] == starts
  {
    formats, offsets, nBytes := map[], [], 0;
    var n := 0;
    while n < |devices|
      invariant 0 <= n <= |devices| && nBytes == starts[n] && offsets == starts[..n]
      invariant AssignedTo(names, want, formats, n, 0)
    {
      offsets := offsets + [nBytes];
      formats, nBytes := NextDevice(devices, fragsize, formats, nBytes, n, names, want, starts);
      n := n + 1;
    }
  }

  /** Devices one after the other: every channel gets the format of the layout, every device its start,
      and n_bytes is the end of the last one. */
  method CalcBufferFormat(devices: seq<Device>, fragsize: nat)
    returns (formats: map<nat, ChannelFormat>, offsets: seq<nat>, nBytes: nat)
    requires AllValid(devices) && NamesDistinct(Names(devices))
    ensures AssignedTo(Names(devices), Layout(devices, fragsize), formats, |devices|, 0)
    ensures offsets + [nBytes] == Starts(devices, fragsize)
  {
    LayoutFitsItself(devices, fragsize);
    formats, offsets, nBytes :=
      AllDevices(devices, fragsize, Names(devices), Layout(devices, fragsize), Starts(devices, fragsize));
  }
}
