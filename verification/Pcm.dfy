/** Integer PCM: conversion between strided byte buffers and real samples, in both byte orders. The host
    stores the low byte of a number first. */
module Pcm {
  import opened Division
  import opened Quantiser

  type Byte = b: int | 0 <= b < 256

  /** `bits` significant bits in `bytes` bytes, in the other byte order when `swap`. */
  datatype Format = Format(bits: nat, bytes: nat, swap: bool)
  {
    ghost predicate Valid() {
      1 <= bytes <= 4 && 2 <= bits <= 8 * bytes
    }

    /** The range of the significant bits. */
    function SampleRange(): (r: Range)
      requires 2 <= bits
    {
      Range(0 - Pow2(bits - 1), Pow2(bits - 1) - 1)
    }
  }

  function Pow2(n: nat): (p: nat)
    ensures p > 0
  {
    if n == 0 then 1 else 2 * Pow2(n - 1)
  }

  // ----- numbers and bytes -----

  /** The number whose bytes are bs, low byte first. */
  function Unsigned(bs: seq<Byte>): nat {
    if |bs| == 0 then 0 else bs[0] + 256 * Unsigned(bs[1..])
  }

  function Modulus(n: nat): nat {
    if n == 0 then 1 else 256 * Modulus(n - 1)
  }

  /** Two to the power of a number of bits; a byte has eight. */
  lemma {:induction false} PowersOfTwo(n: nat)
    ensures Pow2(0) == 1 && Pow2(n + 1) == 2 * Pow2(n) && Pow2(8 * n) == Modulus(n)
  {
    if n > 0 {
      PowersOfTwo(n - 1);
      var m := 8 * (n - 1);
      assert Pow2(m + 4) == 2 * Pow2(m + 3) == 4 * Pow2(m + 2) == 8 * Pow2(m + 1) == 16 * Pow2(m);
      assert Pow2(m + 8) == 2 * Pow2(m + 7) == 4 * Pow2(m + 6) == 8 * Pow2(m + 5) == 16 * Pow2(m + 4);
    }
  }

  lemma {:induction false} Pow2Grows(a: nat, b: nat)
    requires a <= b
    ensures Pow2(a) <= Pow2(b)
  {
    if a < b {
      Pow2Grows(a, b - 1);
    }
  }

  /** Two's complement of n bytes. */
  function Signed(u: nat, n: nat): int {
    if 2 * u >= Modulus(n) then u - Modulus(n) else u
  }

  function Reversed(bs: seq<Byte>): (r: seq<Byte>)
    ensures |r| == |bs| && forall k :: 0 <= k < |bs| ==> r[k] == bs[|bs| - 1 - k]
  {
    if |bs| == 0 then [] else Reversed(bs[1..]) + [bs[0]]
  }

  function Ordered(bs: seq<Byte>, swap: bool): (r: seq<Byte>)
    ensures |r| == |bs|
  {
    if swap then Reversed(bs) else bs
  }

  lemma {:induction false} OrderedTwice(bs: seq<Byte>, swap: bool)
    ensures Ordered(Ordered(bs, swap), swap) == bs
  {
    if swap {
      var r := Reversed(Reversed(bs));
      assert forall k :: 0 <= k < |bs| ==> r[k] == bs[k];
    }
  }

  function Decode(bs: seq<Byte>, swap: bool): int {
    Signed(Unsigned(Ordered(bs, swap)), |bs|)
  }

  /** The low n bytes of v. */
  function LowBytes(v: int, n: nat): (bs: seq<Byte>)
    ensures |bs| == n
    decreases n
  {
    if n == 0 then [] else [v % 256] + LowBytes(v / 256, n - 1)
  }

  function Encode(v: int, n: nat, swap: bool): (bs: seq<Byte>)
    ensures |bs| == n
  {
    Ordered(LowBytes(v, n), swap)
  }

  lemma {:induction false} UnsignedBound(bs: seq<Byte>)
    ensures Unsigned(bs) < Modulus(|bs|)
  {
    if |bs| > 0 {
      UnsignedBound(bs[1..]);
    }
  }

  /** Adding a multiple of the modulus does not change the low bytes. */
  lemma {:induction false} LowBytesUnsigned(bs: seq<Byte>, k: int)
    ensures LowBytes(Unsigned(bs) + k * Modulus(|bs|), |bs|) == bs
  {
    if |bs| > 0 {
      var rest, m := Unsigned(bs[1..]), Modulus(|bs| - 1);
      var upper := rest + k * m;
      UpperBytes(rest, k, m, Modulus(|bs|));
      LowBytesUnsigned(bs[1..], k);
      LowByteOf(256 * upper + bs[0], upper, bs[0]);
      assert bs == [bs[0]] + bs[1..];
    }
  }

  lemma {:induction false} UpperBytes(rest: int, k: int, m: int, modulus: int)
    requires modulus == 256 * m
    ensures 256 * rest + k * modulus == 256 * (rest + k * m)
  {
  }

  lemma {:induction false} LowByteOf(v: int, upper: int, low: Byte)
    requires v - 256 * upper == low
    ensures v % 256 == low && v / 256 == upper
  {
  }

  /** Encoding what has been decoded gives the same bytes. */
  lemma {:induction false} EncodeDecode(bs: seq<Byte>, swap: bool)
    ensures Encode(Decode(bs, swap), |bs|, swap) == bs
  {
    var os := Ordered(bs, swap);
    var k := if 2 * Unsigned(os) >= Modulus(|os|) then -1 else 0;
    LowBytesUnsigned(os, k);
    assert Decode(bs, swap) == Unsigned(os) + k * Modulus(|os|);
    OrderedTwice(bs, swap);
  }

  lemma {:induction false} UnsignedLow(v: int, n: nat) returns (k: int)
    ensures Unsigned(LowBytes(v, n)) < Modulus(n) && v == Unsigned(LowBytes(v, n)) + k * Modulus(n)
    decreases n
  {
    UnsignedBound(LowBytes(v, n));
    if n == 0 {
      k := v;
    } else {
      k := UnsignedLow(v / 256, n - 1);
      var u, m := Unsigned(LowBytes(v / 256, n - 1)), Modulus(n - 1);
      assert LowBytes(v, n)[1..] == LowBytes(v / 256, n - 1);
      assert Unsigned(LowBytes(v, n)) == v % 256 + 256 * u;
      CarryUp(v, u, k, m);
    }
  }

  lemma {:induction false} CarryUp(v: int, u: nat, k: int, m: nat)
    requires v / 256 == u + k * m
    ensures v == v % 256 + 256 * u + k * (256 * m)
  {
    assert k * (256 * m) == 256 * (k * m);
  }

  /** Decoding what has been encoded gives the number, if it fits. */
  lemma {:induction false} DecodeEncode(v: int, n: nat, swap: bool)
    requires 0 - Modulus(n) <= 2 * v < Modulus(n)
    ensures Decode(Encode(v, n, swap), swap) == v
  {
    OrderedTwice(LowBytes(v, n), swap);
    var k := UnsignedLow(v, n);
    var u := Unsigned(LowBytes(v, n));
    SmallMultiple(v, u, k, Modulus(n));
  }

  lemma {:induction false} SmallMultiple(v: int, u: nat, k: int, m: nat)
    requires v == u + k * m && u < m && 0 - m <= 2 * v < m
    ensures v == if 2 * u >= m then u - m else u
  {
    if k >= 1 {
      AtLeastOnce(k, m);
    } else if k <= -2 {
      assert (-1 - k) * m == 0 - m - k * m;
      AtLeastOnce(-1 - k, m);
    }
  }

  lemma {:induction false} AtLeastOnce(k: int, m: nat)
    requires k >= 1
    ensures k * m >= m
  {
    assert (k - 1) * m >= 0;
  }

  // ----- byte swaps -----

  function Swap16(u: nat): nat
    requires u < 0x1_0000
  {
    u / 0x100 + u % 0x100 * 0x100
  }

  function Swap32(u: nat): nat
    requires u < 0x1_0000_0000
  {
    Swap16(u / 0x1_0000) + Swap16(u % 0x1_0000) * 0x1_0000
  }

  function Swap64(u: nat): nat
    requires u < 0x1_0000_0000_0000_0000
  {
    Swap32(u / 0x1_0000_0000) + Swap32(u % 0x1_0000_0000) * 0x1_0000_0000
  }

  lemma {:induction false} Unsigned2(a: Byte, b: Byte)
    ensures Unsigned([a, b]) == a + 0x100 * b
  {
    assert [a, b][1..] == [b];
    assert [b][1..] == [];
    assert Unsigned([]) == 0;
  }

  lemma {:induction false} Unsigned4(a: Byte, b: Byte, c: Byte, d: Byte)
    ensures Unsigned([a, b, c, d]) == (a + 0x100 * b) + 0x1_0000 * (c + 0x100 * d)
  {
    assert [a, b, c, d][1..] == [b, c, d];
    assert [b, c, d][1..] == [c, d];
    Unsigned2(c, d);
  }

  /** Swapping reverses the bytes. */
  lemma {:induction false} Swap16Reverses(a: Byte, b: Byte)
    ensures Swap16(a + 0x100 * b) == b + 0x100 * a
  {
  }

  lemma {:induction false} Swap32Reverses(a: Byte, b: Byte, c: Byte, d: Byte)
    ensures Swap32((a + 0x100 * b) + 0x1_0000 * (c + 0x100 * d)) == (d + 0x100 * c) + 0x1_0000 * (b + 0x100 * a)
  {
    var u := (a + 0x100 * b) + 0x1_0000 * (c + 0x100 * d);
    assert u / 0x1_0000 == c + 0x100 * d && u % 0x1_0000 == a + 0x100 * b;
    Swap16Reverses(a, b);
    Swap16Reverses(c, d);
  }

  lemma {:induction false} SwapTwice16(u: nat)
    requires u < 0x1_0000
    ensures Swap16(u) < 0x1_0000 && Swap16(Swap16(u)) == u
  {
  }

  lemma {:induction false} SwapTwice32(u: nat)
    requires u < 0x1_0000_0000
    ensures Swap32(u) < 0x1_0000_0000 && Swap32(Swap32(u)) == u
  {
    var hi, lo := u / 0x1_0000, u % 0x1_0000;
    SwapTwice16(hi);
    SwapTwice16(lo);
    var s := Swap32(u);
    assert s == Swap16(hi) + Swap16(lo) * 0x1_0000;
    assert s / 0x1_0000 == Swap16(lo) && s % 0x1_0000 == Swap16(hi);
  }

  lemma {:induction false} SwapTwice64(u: nat)
    requires u < 0x1_0000_0000_0000_0000
    ensures Swap64(u) < 0x1_0000_0000_0000_0000 && Swap64(Swap64(u)) == u
  {
    var hi, lo := u / 0x1_0000_0000, u % 0x1_0000_0000;
    SwapTwice32(hi);
    SwapTwice32(lo);
    var s := Swap64(u);
    assert s == Swap32(hi) + Swap32(lo) * 0x1_0000_0000;
    assert s / 0x1_0000_0000 == Swap32(lo) && s % 0x1_0000_0000 == Swap32(hi);
  }

  // ----- one sample -----

  lemma {:induction false} Moduli()
    ensures Modulus(1) == 0x100 && Modulus(2) == 0x1_0000 && Modulus(3) == 0x100_0000 && Modulus(4) == 0x1_0000_0000
  {
    assert Modulus(0) == 1;
    assert Modulus(1) == 256 * Modulus(0);
    assert Modulus(2) == 256 * Modulus(1);
    assert Modulus(3) == 256 * Modulus(2);
    assert Modulus(4) == 256 * Modulus(3);
  }

  lemma {:induction false} Unsigned1(a: Byte)
    ensures Unsigned([a]) == a
  {
    assert [a][1..] == [];
  }

  lemma {:induction false} Unsigned3(a: Byte, b: Byte, c: Byte)
    ensures Unsigned([a, b, c]) == a + 0x100 * b + 0x1_0000 * c
  {
    assert [a, b, c][1..] == [b, c];
    Unsigned2(b, c);
  }

  /** What bytes stand for: the first one is the low one, or the last one when swapped; the upper half of the numbers
      stands for the negative ones. */
  lemma {:induction false} DecodedBytes(a: Byte, b: Byte, c: Byte, d: Byte)
    ensures Decode([a], false) == Decode([a], true) == a - (if a >= 0x80 then 0x100 else 0)
    ensures Decode([a, b], false) == Decode([b, a], true) == a + 0x100 * b - (if b >= 0x80 then 0x1_0000 else 0)
    ensures Decode([a, b, c], false) == Decode([c, b, a], true)
         == a + 0x100 * b + 0x1_0000 * c - (if c >= 0x80 then 0x100_0000 else 0)
    ensures Decode([a, b, c, d], false) == Decode([d, c, b, a], true)
         == a + 0x100 * b + 0x1_0000 * c + 0x100_0000 * d - (if d >= 0x80 then 0x1_0000_0000 else 0)
  {
    Moduli();
    Unsigned1(a);
    Unsigned2(a, b);
    Unsigned3(a, b, c);
    Unsigned4(a, b, c, d);
    assert Reversed([a]) == [a] && Reversed([b, a]) == [a, b];
    assert Reversed([c, b, a]) == [a, b, c] && Reversed([d, c, b, a]) == [a, b, c, d];
  }

  function AsSigned(u: nat, m: nat): int {
    if 2 * u >= m then u - m else u
  }

  /** A 16-bit sample: loaded as one word and swapped as one word. */
  method Read2(a: Byte, b: Byte, swap: bool) returns (v: int)
    ensures v == Decode([a, b], swap)
  {
    Moduli();
    Swap16Reverses(a, b);
    Unsigned2(a, b);
    Unsigned2(b, a);
    assert Ordered([a, b], swap) == if swap then [b, a] else [a, b];
    var u := a + 0x100 * b;
    if swap {
      u := Swap16(u);
    }
    v := AsSigned(u, 0x1_0000);
  }

  /** A packed 24-bit sample: its bytes go into the upper three bytes of a word, which is shifted down. */
  method Read3(a: Byte, b: Byte, c: Byte, swap: bool) returns (v: int)
    ensures v == Decode([a, b, c], swap)
  {
    Moduli();
    Unsigned3(a, b, c);
    Unsigned3(c, b, a);
    assert Ordered([a, b, c], swap) == if swap then [c, b, a] else [a, b, c];
    var u1, u2, u3 := if swap then c else a, b, if swap then a else c;
    var word := 0x100 * u1 + 0x1_0000 * u2 + 0x100_0000 * u3;
    v := AsSigned(word, 0x1_0000_0000) / 0x100;
  }

  method Read4(a: Byte, b: Byte, c: Byte, d: Byte, swap: bool) returns (v: int)
    ensures v == Decode([a, b, c, d], swap)
  {
    Moduli();
    Swap32Reverses(a, b, c, d);
    Unsigned4(a, b, c, d);
    Unsigned4(d, c, b, a);
    assert Ordered([a, b, c, d], swap) == if swap then [d, c, b, a] else [a, b, c, d];
    var u := (a + 0x100 * b) + 0x1_0000 * (c + 0x100 * d);
    if swap {
      u := Swap32(u);
    }
    v := AsSigned(u, 0x1_0000_0000);
  }

  method ReadSample(buf: array<Byte>, i: nat, f: Format) returns (v: int)
    requires f.Valid() && i + f.bytes <= buf.Length
    ensures v == Decode(buf[i..i + f.bytes], f.swap)
  {
    if f.bytes == 1 {
      Moduli();
      Unsigned1(buf[i]);
      assert buf[i..i + 1] == [buf[i]];
      assert Ordered([buf[i]], f.swap) == [buf[i]];
      v := AsSigned(buf[i], 0x100);
    } else if f.bytes == 2 {
      assert buf[i..i + 2] == [buf[i], buf[i + 1]];
      v := Read2(buf[i], buf[i + 1], f.swap);
    } else if f.bytes == 3 {
      assert buf[i..i + 3] == [buf[i], buf[i + 1], buf[i + 2]];
      v := Read3(buf[i], buf[i + 1], buf[i + 2], f.swap);
    } else {
      assert buf[i..i + 4] == [buf[i], buf[i + 1], buf[i + 2], buf[i + 3]];
      v := Read4(buf[i], buf[i + 1], buf[i + 2], buf[i + 3], f.swap);
    }
  }

  lemma {:induction false} LowBytes2(v: int)
    ensures LowBytes(v, 2) == [v % 0x100, v / 0x100 % 0x100]
  {
    assert LowBytes(v / 0x100, 1) == [v / 0x100 % 0x100] + LowBytes(v / 0x100 / 0x100, 0);
  }

  lemma {:induction false} LowBytes4(v: int)
    ensures var v1 := v / 0x100; var v2 := v1 / 0x100;
      LowBytes(v, 4) == [v % 0x100, v1 % 0x100, v2 % 0x100, v2 / 0x100 % 0x100]
    ensures LowBytes(v, 3) == LowBytes(v, 4)[..3]
  {
    var v1 := v / 0x100;
    LowBytes2(v1 / 0x100);
    assert LowBytes(v1, 3) == [v1 % 0x100] + LowBytes(v1 / 0x100, 2);
    assert LowBytes(v1 / 0x100, 1) == [v1 / 0x100 % 0x100] + LowBytes(v1 / 0x100 / 0x100, 0);
    assert LowBytes(v1, 2) == [v1 % 0x100] + LowBytes(v1 / 0x100, 1);
  }

  /** The bytes of a word in memory. */
  function Stored16(u: nat): (bs: seq<Byte>)
    requires u < 0x1_0000
    ensures |bs| == 2
  {
    [u % 0x100, u / 0x100]
  }

  function Stored32(u: nat): (bs: seq<Byte>)
    requires u < 0x1_0000_0000
    ensures |bs| == 4
  {
    [u % 0x100, u / 0x100 % 0x100, u / 0x1_0000 % 0x100, u / 0x100_0000]
  }

  /** v is 256 times its upper part and its lowest byte. */
  lemma {:induction false} SplitByte(v: int) returns (upper: int, low: Byte)
    ensures upper == v / 0x100 && low == v % 0x100 && v - 0x100 * upper == low
  {
    upper, low := v / 0x100, v % 0x100;
  }

  lemma {:induction false} Word16(v: int) returns (a: Byte, b: Byte)
    ensures LowBytes(v, 2) == [a, b]
    ensures v % 0x1_0000 == a + 0x100 * b
  {
    LowBytes2(v);
    var v1, v2;
    v1, a := SplitByte(v);
    v2, b := SplitByte(v1);
    var r: nat := 0x100 * b + a;
    RemainderOf(v, v2, r, 0x1_0000);
  }

  lemma {:induction false} Stored16Of(v: int)
    ensures Stored16(v % 0x1_0000) == LowBytes(v, 2)
    ensures Swap16(v % 0x1_0000) < 0x1_0000 && Stored16(Swap16(v % 0x1_0000)) == Reversed(LowBytes(v, 2))
  {
    var a, b := Word16(v);
    Swap16Reverses(a, b);
    assert Reversed([a, b]) == [b, a];
  }

  lemma {:induction false} Word32(v: int) returns (a: Byte, b: Byte, c: Byte, d: Byte)
    ensures LowBytes(v, 4) == [a, b, c, d]
    ensures v % 0x1_0000_0000 == (a + 0x100 * b) + 0x1_0000 * (c + 0x100 * d)
  {
    LowBytes4(v);
    var v1, v2, v3, v4;
    v1, a := SplitByte(v);
    v2, b := SplitByte(v1);
    v3, c := SplitByte(v2);
    v4, d := SplitByte(v3);
    var r: nat := (0x100 * b + a) + 0x1_0000 * (0x100 * d + c);
    RemainderOf(v, v4, r, 0x1_0000_0000);
  }

  lemma {:induction false} StoredBytes(a: Byte, b: Byte, c: Byte, d: Byte)
    ensures (a + 0x100 * b) + 0x1_0000 * (c + 0x100 * d) < 0x1_0000_0000
    ensures Stored32((a + 0x100 * b) + 0x1_0000 * (c + 0x100 * d)) == [a, b, c, d]
  {
    var u := (a + 0x100 * b) + 0x1_0000 * (c + 0x100 * d);
    LowestByte(u, a, b + 0x100 * c + 0x1_0000 * d);
    LowestByte(b + 0x100 * c + 0x1_0000 * d, b, c + 0x100 * d);
    LowestByte(c + 0x100 * d, c, d);
    assert u / 0x1_0000 == u / 0x100 / 0x100 && u / 0x100_0000 == u / 0x100 / 0x100 / 0x100;
  }

  lemma {:induction false} LowestByte(u: nat, a: Byte, rest: nat)
    requires u == a + 0x100 * rest
    ensures u % 0x100 == a && u / 0x100 == rest
  {
  }

  lemma {:induction false} Stored32Of(v: int)
    ensures Stored32(v % 0x1_0000_0000) == LowBytes(v, 4)
    ensures Swap32(v % 0x1_0000_0000) < 0x1_0000_0000 && Stored32(Swap32(v % 0x1_0000_0000)) == Reversed(LowBytes(v, 4))
  {
    var a, b, c, d := Word32(v);
    StoredBytes(a, b, c, d);
    StoredBytes(d, c, b, a);
    Swap32Reverses(a, b, c, d);
    assert Reversed([a, b, c, d]) == [d, c, b, a];
  }

  /** The bytes stored for a sample. */
  method SampleBytes(v: int, f: Format) returns (bs: seq<Byte>)
    requires f.Valid()
    ensures bs == Encode(v, f.bytes, f.swap)
  {
    if f.bytes == 1 {
      bs := [v % 0x100];
      assert LowBytes(v, 1) == [v % 0x100] + LowBytes(v / 0x100, 0);
      assert Reversed(bs) == bs;
    } else if f.bytes == 2 {
      Stored16Of(v);
      var u := v % 0x1_0000;
      bs := if f.swap then Stored16(Swap16(u)) else Stored16(u);
    } else if f.bytes == 3 {
      Stored32Of(v);
      LowBytes4(v);
      var word := Stored32(v % 0x1_0000_0000);
      bs := if f.swap then [word[2], word[1], word[0]] else [word[0], word[1], word[2]];
      assert Reversed(LowBytes(v, 3)) == [word[2], word[1], word[0]];
    } else {
      Stored32Of(v);
      var u := v % 0x1_0000_0000;
      bs := if f.swap then Stored32(Swap32(u)) else Stored32(u);
    }
  }
}
