/**
 Base 128 varints and fixed-width integers on the wire: "Base 128 Varints" of the Protocol Buffers Encoding
 specification, and the byte orders of src/Rpc/rpc_protocal.cc.
 */
module Varint {
  import opened Common

  type Bytes = seq<Byte>

  const TWO32: nat := 0x1_0000_0000

  type Uint32 = n: nat | n < TWO32

  /** Conversion to a 32-bit integer. */
  function Low32(n: nat): (r: Uint32)
    ensures n < TWO32 ==> r == n
  {
    n % 0x1_0000_0000
  }

  // ---------------------------------------------------------------------------------------------
  // Varints

  function Encode(n: nat): (s: Bytes)
    ensures |s| > 0
  {
    if n < 128 then [n] else [128 + n % 128] + Encode(n / 128)
  }

  datatype Read = Read(value: nat, rest: Bytes)

  /** Reads a varint of at most `max` bytes. */
  function Decode(s: Bytes, max: nat): (r: Option<Read>)
    ensures r.Some? ==> |r.value.rest| < |s|
  {
    if s == [] || max == 0 then None
    else if s[0] < 128 then Some(Read(s[0], s[1..]))
    else
      match Decode(s[1..], max - 1)
      case None => None
      case Some(r) => Some(Read(s[0] - 128 + 128 * r.value, r.rest))
  }

  function Pow128(k: nat): nat { if k == 0 then 1 else 128 * Pow128(k - 1) }

  lemma {:induction false} RoundTrip(n: nat, max: nat, rest: Bytes)
    requires n < Pow128(max) && max > 0
    ensures Decode(Encode(n) + rest, max) == Some(Read(n, rest))
  {
    var s := Encode(n) + rest;
    if n < 128 {
      assert s[1..] == rest;
    } else {
      assert s[1..] == Encode(n / 128) + rest;
      if max > 1 {
        RoundTrip(n / 128, max - 1, rest);
      }
    }
  }

  lemma {:induction false} NextPower128(n: nat, i: nat)
    requires i > 0 && Pow128(i - 1) > 0
    ensures Pow128(i) > 0 && n / Pow128(i) == n / 128 / Pow128(i - 1)
  {
    DivideTwice(n, 128, Pow128(i - 1));
  }

  /** The format: seven bits a byte, the lowest first, and the high bit set in every byte but the last. */
  lemma {:induction false} EncodedAt(n: nat, i: nat)
    requires i < |Encode(n)|
    ensures Pow128(i) > 0 && Encode(n)[i] % 128 == n / Pow128(i) % 128
    ensures Encode(n)[i] >= 128 <==> i < |Encode(n)| - 1
    decreases i
  {
    if i > 0 {
      EncodedAt(n / 128, i - 1);
      NextPower128(n, i);
    } else {
      assert n >= 128 ==> Encode(n)[0] == 128 + n % 128;
    }
  }

  /** Where the first byte without the high bit is. */
  function LastByte(s: Bytes): (i: nat)
    ensures i <= |s| && (i < |s| ==> s[i] < 128) && forall j :: 0 <= j < i ==> s[j] >= 128
  {
    if s == [] || s[0] < 128 then 0 else 1 + LastByte(s[1..])
  }

  /** The number whose digits to the base 128 are the low bits of the first k bytes, the lowest first. */
  function Digits(s: Bytes, k: nat): nat
    requires k <= |s|
  {
    if k == 0 then 0 else Digits(s, k - 1) + s[k - 1] % 128 * Pow128(k - 1)
  }

  lemma {:induction false} FirstDigit(s: Bytes, k: nat)
    requires 0 < k <= |s|
    ensures Digits(s, k) == s[0] % 128 + 128 * Digits(s[1..], k - 1)
  {
    if k > 1 {
      FirstDigit(s, k - 1);
      assert s[k - 1] % 128 * Pow128(k - 1) == 128 * (s[1..][k - 2] % 128 * Pow128(k - 2));
    } else {
      assert Digits(s, 1) == Digits(s, 0) + s[0] % 128 * Pow128(0);
    }
  }

  /** What any bytes are read as, canonical or not: up to the first byte without the high bit, if it comes in time. */
  lemma {:induction false} DecodedValue(s: Bytes, max: nat)
    ensures var i := LastByte(s);
      Decode(s, max) == if i < |s| && i < max then Some(Read(Digits(s, i + 1), s[i + 1..])) else None
    decreases |s|
  {
    if s != [] && max > 0 {
      if s[0] >= 128 {
        DecodedValue(s[1..], max - 1);
        DecodedNext(s, max);
      } else {
        FirstDigit(s, 1);
        assert Digits(s[1..], 0) == 0;
      }
    }
  }

  lemma {:induction false} DecodedNext(s: Bytes, max: nat)
    requires s != [] && max > 0 && s[0] >= 128
    requires var i := LastByte(s[1..]);
      Decode(s[1..], max - 1)
        == if i < |s[1..]| && i < max - 1 then Some(Read(Digits(s[1..], i + 1), s[1..][i + 1..])) else None
    ensures var i := LastByte(s);
      Decode(s, max) == if i < |s| && i < max then Some(Read(Digits(s, i + 1), s[i + 1..])) else None
  {
    var i := LastByte(s[1..]);
    assert LastByte(s) == i + 1;
    if i < |s[1..]| && i < max - 1 {
      ContinuedValue(s, i);
      assert Decode(s, max) == Some(Read(s[0] - 128 + 128 * Digits(s[1..], i + 1), s[1..][i + 1..]));
    } else {
      assert Decode(s, max) == None;
    }
  }

  lemma {:induction false} ContinuedValue(s: Bytes, i: nat)
    requires i + 1 < |s| && s[0] >= 128
    ensures s[0] - 128 + 128 * Digits(s[1..], i + 1) == Digits(s, i + 2) && s[1..][i + 1..] == s[i + 2..]
  {
    FirstDigit(s, i + 2);
    DropDrop(s, 1, i + 1);
  }

  /** The example of the specification. */
  lemma {:induction false} ThreeHundred()
    ensures Encode(300) == [0xAC, 0x02]
  {
    assert Encode(2) == [2];
  }

  /** Five bytes hold every 32-bit value. */
  lemma {:induction false} FiveBytes(n: nat, max: nat)
    requires n < 0x1_0000_0000 && max >= 5
    ensures n < Pow128(max)
  {
    assert Pow128(5) == 128 * 128 * 128 * 128 * 128 by {
      assert Pow128(2) == 128 * 128;
      assert Pow128(3) == 128 * 128 * 128;
      assert Pow128(4) == 128 * 128 * 128 * 128;
    }
    Pow128Grows(5, max);
  }

  lemma {:induction false} Pow128Grows(j: nat, k: nat)
    requires j <= k
    ensures 0 < Pow128(j) <= Pow128(k)
    decreases k
  {
    if j < k {
      Pow128Grows(j, k - 1);
    } else if j > 0 {
      Pow128Grows(j - 1, k - 1);
    }
  }

  /** The number of bytes of a 32-bit varint, by thresholds. */
  function Size32(n: Uint32): nat {
    if n < 0x80 then 1 else if n < 0x4000 then 2 else if n < 0x20_0000 then 3 else if n < 0x1000_0000 then 4 else 5
  }

  lemma {:induction false} EncodedSize(n: Uint32)
    ensures Size32(n) == |Encode(n)|
  {
    if n >= 0x80 {
      EncodedSize(n / 0x80);
    }
  }

  // ---------------------------------------------------------------------------------------------
  // Fixed-width integers

  function Pow256(k: nat): nat { if k == 0 then 1 else 256 * Pow256(k - 1) }

  /** The k bytes of n as a little-endian machine stores them. */
  function LittleEndian(n: nat, k: nat): (s: Bytes)
    ensures |s| == k
  {
    if k == 0 then [] else [n % 256] + LittleEndian(n / 256, k - 1)
  }

  function FromLittleEndian(s: Bytes): (n: nat)
    ensures n < Pow256(|s|)
  {
    if s == [] then 0 else s[0] + 256 * FromLittleEndian(s[1..])
  }

  function Reversed(s: Bytes): (r: Bytes)
    ensures |r| == |s| && forall i :: 0 <= i < |s| ==> r[i] == s[|s| - 1 - i]
  {
    if s == [] then [] else Reversed(s[1..]) + [s[0]]
  }

  /** Network byte order. */
  function BigEndian(n: nat, k: nat): Bytes { Reversed(LittleEndian(n, k)) }

  function FromBigEndian(s: Bytes): nat { FromLittleEndian(Reversed(s)) }

  /** htonl, htonll and their inverses on a little-endian machine: the bytes in the opposite order. */
  function Swapped(n: nat, k: nat): nat { FromLittleEndian(Reversed(LittleEndian(n, k))) }

  lemma {:induction false} StoreLoad(n: nat, k: nat)
    requires n < Pow256(k)
    ensures FromLittleEndian(LittleEndian(n, k)) == n
  {
    if k > 0 {
      StoreLoad(n / 256, k - 1);
      assert LittleEndian(n, k)[1..] == LittleEndian(n / 256, k - 1);
    }
  }

  lemma {:induction false} StoreOne(b: Byte, n: nat, k: nat)
    ensures LittleEndian(b + 256 * n, k + 1) == [b] + LittleEndian(n, k)
  {
    Remainder(b + 256 * n, 256, n, b);
  }

  lemma {:induction false} LoadStore(s: Bytes)
    ensures LittleEndian(FromLittleEndian(s), |s|) == s
  {
    if s != [] {
      LoadStore(s[1..]);
      StoreOne(s[0], FromLittleEndian(s[1..]), |s| - 1);
      assert s == [s[0]] + s[1..];
    }
  }

  lemma {:induction false} ReversedTwice(s: Bytes)
    ensures Reversed(Reversed(s)) == s
  {
  }

  lemma {:induction false} BigEndianRoundTrip(n: nat, k: nat)
    requires n < Pow256(k)
    ensures |BigEndian(n, k)| == k && FromBigEndian(BigEndian(n, k)) == n
  {
    ReversedTwice(LittleEndian(n, k));
    StoreLoad(n, k);
  }

  lemma {:induction false} NextPower256(n: nat, i: nat)
    requires i > 0 && Pow256(i - 1) > 0
    ensures Pow256(i) > 0 && n / Pow256(i) == n / 256 / Pow256(i - 1)
  {
    DivideTwice(n, 256, Pow256(i - 1));
  }

  lemma {:induction false} LittleEndianNext(n: nat, k: nat, i: nat)
    requires 0 < i < k
    ensures LittleEndian(n, k)[i] == LittleEndian(n / 256, k - 1)[i - 1]
  {
  }

  lemma {:induction false} LittleEndianAt(n: nat, k: nat, i: nat)
    requires i < k
    ensures Pow256(i) > 0 && LittleEndian(n, k)[i] == n / Pow256(i) % 256
    decreases i
  {
    if i > 0 {
      LittleEndianAt(n / 256, k - 1, i - 1);
      LittleEndianNext(n, k, i);
      NextPower256(n, i);
    } else {
      assert LittleEndian(n, k)[0] == n % 256;
    }
  }

  /** Byte i of s is the one of n that belongs there when the most significant byte comes first. */
  predicate InPlace(s: Bytes, n: nat, i: nat)
    requires i < |s|
  {
    var j := |s| - 1 - i;
    Pow256(j) > 0 && s[i] == n / Pow256(j) % 256
  }

  predicate IsNetworkOrder(s: Bytes, n: nat) { forall i :: 0 <= i < |s| ==> InPlace(s, n, i) }

  lemma {:induction false} BigEndianAt(n: nat, k: nat, i: nat)
    requires i < k
    ensures |BigEndian(n, k)| == k && InPlace(BigEndian(n, k), n, i)
  {
    LittleEndianAt(n, k, k - 1 - i);
  }

  /** Network byte order: the most significant byte first. */
  lemma {:induction false} BigEndianIs(n: nat, k: nat)
    ensures |BigEndian(n, k)| == k && IsNetworkOrder(BigEndian(n, k), n)
  {
    forall i | 0 <= i < k
      ensures InPlace(BigEndian(n, k), n, i)
    {
      BigEndianAt(n, k, i);
    }
  }

  /** Swapping and storing is storing in network order, and swapping twice changes nothing. */
  lemma {:induction false} SwappedIsNetworkOrder(n: nat, k: nat)
    requires n < Pow256(k)
    ensures LittleEndian(Swapped(n, k), k) == BigEndian(n, k) && Swapped(Swapped(n, k), k) == n
  {
    var r := Reversed(LittleEndian(n, k));
    LoadStore(r);
    assert |r| == k && LittleEndian(Swapped(n, k), k) == r;
    ReversedTwice(LittleEndian(n, k));
    assert Reversed(r) == LittleEndian(n, k);
    assert Swapped(Swapped(n, k), k) == FromLittleEndian(Reversed(LittleEndian(Swapped(n, k), k)));
    StoreLoad(n, k);
  }

  /** htonll as it is written: each byte is masked out and shifted to the mirrored place. */
  function Htonll(v: nat): nat {
    v / 0x100_0000_0000_0000 % 256
    + v / 0x1_0000_0000_0000 % 256 * 0x100
    + v / 0x100_0000_0000 % 256 * 0x1_0000
    + v / 0x1_0000_0000 % 256 * 0x100_0000
    + v / 0x100_0000 % 256 * 0x1_0000_0000
    + v / 0x1_0000 % 256 * 0x100_0000_0000
    + v / 0x100 % 256 * 0x1_0000_0000_0000
    + v % 256 * 0x100_0000_0000_0000
  }

  lemma {:induction false} EightBytes(v: nat)
    ensures LittleEndian(v, 8) == [
      v % 256, v / 0x100 % 256, v / 0x1_0000 % 256, v / 0x100_0000 % 256, v / 0x1_0000_0000 % 256,
      v / 0x100_0000_0000 % 256, v / 0x1_0000_0000_0000 % 256, v / 0x100_0000_0000_0000 % 256]
  {
    var v1 := v / 0x100;
    var v2 := v1 / 0x100;
    var v3 := v2 / 0x100;
    var v4 := v3 / 0x100;
    var v5 := v4 / 0x100;
    var v6 := v5 / 0x100;
    var v7 := v6 / 0x100;
    assert v2 == v / 0x1_0000 && v3 == v / 0x100_0000 && v4 == v / 0x1_0000_0000;
    assert v5 == v / 0x100_0000_0000 && v6 == v / 0x1_0000_0000_0000 && v7 == v / 0x100_0000_0000_0000;
    assert LittleEndian(v7, 1) == [v7 % 256];
    assert LittleEndian(v6, 2) == [v6 % 256, v7 % 256];
    assert LittleEndian(v5, 3) == [v5 % 256, v6 % 256, v7 % 256];
    assert LittleEndian(v4, 4) == [v4 % 256, v5 % 256, v6 % 256, v7 % 256];
    assert LittleEndian(v3, 5) == [v3 % 256, v4 % 256, v5 % 256, v6 % 256, v7 % 256];
    assert LittleEndian(v2, 6) == [v2 % 256, v3 % 256, v4 % 256, v5 % 256, v6 % 256, v7 % 256];
    assert LittleEndian(v1, 7) == [v1 % 256, v2 % 256, v3 % 256, v4 % 256, v5 % 256, v6 % 256, v7 % 256];
  }

  lemma {:induction false} EightLoaded(a: Byte, b: Byte, c: Byte, d: Byte, e: Byte, f: Byte, g: Byte, h: Byte)
    ensures FromLittleEndian([a, b, c, d, e, f, g, h]) ==
      a + b * 0x100 + c * 0x1_0000 + d * 0x100_0000 + e * 0x1_0000_0000 + f * 0x100_0000_0000
      + g * 0x1_0000_0000_0000 + h * 0x100_0000_0000_0000
  {
    FourLoaded(e, f, g, h, []);
    FourLoaded(a, b, c, d, [e, f, g, h]);
    assert [e, f, g, h] + [] == [e, f, g, h] && [a, b, c, d] + [e, f, g, h] == [a, b, c, d, e, f, g, h];
  }

  lemma {:induction false} FourLoaded(a: Byte, b: Byte, c: Byte, d: Byte, s: Bytes)
    ensures FromLittleEndian([a, b, c, d] + s) ==
      a + b * 0x100 + c * 0x1_0000 + d * 0x100_0000 + 0x1_0000_0000 * FromLittleEndian(s)
  {
    TwoLoaded(c, d, s);
    TwoLoaded(a, b, [c, d] + s);
    assert [a, b, c, d] + s == [a, b] + ([c, d] + s);
  }

  lemma {:induction false} TwoLoaded(a: Byte, b: Byte, s: Bytes)
    ensures FromLittleEndian([a, b] + s) == a + b * 0x100 + 0x1_0000 * FromLittleEndian(s)
  {
    Loaded(b, s);
    Loaded(a, [b] + s);
    Associate([a], [b], s);
  }

  lemma {:induction false} Loaded(b: Byte, s: Bytes)
    ensures FromLittleEndian([b] + s) == b + 256 * FromLittleEndian(s)
  {
    assert ([b] + s)[1..] == s;
  }

  lemma {:induction false} HtonllSwaps(v: nat)
    ensures Htonll(v) == Swapped(v, 8)
  {
    EightBytes(v);
    var r := Reversed(LittleEndian(v, 8));
    assert r == [r[0], r[1], r[2], r[3], r[4], r[5], r[6], r[7]];
    EightLoaded(r[0], r[1], r[2], r[3], r[4], r[5], r[6], r[7]);
  }
}
