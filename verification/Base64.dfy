/**
 Base64 (src/Rpc/net_base.cc).  Bytes and characters are numbers below 256; the bitwise operators of the code are
 And, Or and multiplication or division by powers of two, and a stored result is cut to eight bits.
 */
module Base64 {
  import opened Common

  type Bytes = seq<Byte>

  const PAD: Byte := 61

  // ---------------------------------------------------------------------------------------------
  // Bits

  function Or(a: nat, b: nat): nat {
    if a == 0 then b else if b == 0 then a
    else (if a % 2 == 1 || b % 2 == 1 then 1 else 0) + 2 * Or(a / 2, b / 2)
  }

  function Low8(n: nat): (b: Byte)
    ensures n < 256 ==> b == n
  {
    n % 256
  }

  /** Shifting right by k halves k times. */
  function Shr(x: nat, k: nat): nat { if k == 0 then x else Shr(x / 2, k - 1) }

  /** Shifting left by k doubles k times. */
  function Shl(x: nat, k: nat): nat { if k == 0 then x else 2 * Shl(x, k - 1) }

  function Ones(k: nat): nat { if k == 0 then 0 else 2 * Ones(k - 1) + 1 }

  /** The k low bits. */
  function Low(x: nat, k: nat): nat { if k == 0 then 0 else x % 2 + 2 * Low(x / 2, k - 1) }

  lemma {:induction false} AndOnes(x: nat, k: nat)
    ensures And(x, Ones(k)) == Low(x, k)
  {
    if k > 0 {
      assert Ones(k) / 2 == Ones(k - 1) && Ones(k) % 2 == 1;
      AndOnes(x / 2, k - 1);
    }
  }

  /** A mask that starts at bit k cuts off the k low bits. */
  lemma {:induction false} AndShifted(x: nat, m: nat, k: nat)
    ensures Shr(And(x, Shl(m, k)), k) == And(Shr(x, k), m)
  {
    if k > 0 {
      AndShifted(x / 2, m, k - 1);
      AndEven(x, Shl(m, k - 1));
    }
  }

  lemma {:induction false} AndEven(x: nat, n: nat)
    ensures And(x, 2 * n) == 2 * And(x / 2, n)
  {
    assert 2 * n % 2 == 0 && 2 * n / 2 == n;
  }

  lemma {:induction false} LowSmall(x: nat, k: nat)
    requires x < Pow2(k)
    ensures Low(x, k) == x
  {
    if k > 0 {
      LowSmall(x / 2, k - 1);
    }
  }

  lemma {:induction false} ShrSmall(x: nat, j: nat, k: nat)
    requires x < Pow2(j + k)
    ensures Shr(x, k) < Pow2(j)
  {
    if k > 0 {
      ShrSmall(x / 2, j, k - 1);
    }
  }

  /** The high mask of a byte, shifted down, is just the shifted byte. */
  lemma {:induction false} HighMask(x: Byte, k: nat)
    requires k <= 8
    ensures Shr(And(x, Shl(Ones(8 - k), k)), k) == Shr(x, k) < Pow2(8 - k)
  {
    AndShifted(x, Ones(8 - k), k);
    AndOnes(Shr(x, k), 8 - k);
    assert Pow2(8) == 256;
    ShrSmall(x, 8 - k, k);
    LowSmall(Shr(x, k), 8 - k);
  }

  /** The operands of every | in the code occupy different bits. */
  lemma {:induction false} OrDisjoint(a: nat, b: nat, k: nat)
    requires b < Pow2(k)
    ensures Or(Shl(a, k), b) == Shl(a, k) + b
  {
    if k > 0 {
      OrDisjoint(a, b / 2, k - 1);
    }
  }

  // ---------------------------------------------------------------------------------------------
  // The alphabet

  /** base64_charset_table: A to Z, a to z, 0 to 9, + and /. */
  function Charset(i: nat): Byte
    requires i < 64
  {
    if i < 26 then 65 + i
    else if i < 52 then 97 + (i - 26)
    else if i < 62 then 48 + (i - 52)
    else if i == 62 then 43 else 47
  }

  /** base64_reverse; a char is signed, the result unsigned. */
  function Reverse(c: Byte): Byte {
    var input: int := if c < 128 then c else c - 256;
    if input == 43 then 62
    else if input == 47 then 63
    else (if input >= 97 then 26 + input - 97 else if input >= 65 then input - 65 else 52 + input - 48) % 256
  }

  lemma {:induction false} ReverseCharset(i: nat)
    requires i < 64
    ensures Reverse(Charset(i)) == i && Charset(i) != PAD
  {
  }

  /** Table 1 of RFC 4648. */
  const UPPER: string := "ABCDEFGHIJKLMNOPQRSTUVWXYZ"
  const LOWER: string := "abcdefghijklmnopqrstuvwxyz"
  const DIGITS: string := "0123456789"

  lemma {:induction false} Letters(i: nat)
    requires i < 26
    ensures |UPPER| == 26 && UPPER[i] as int == 65 + i
    ensures |LOWER| == 26 && LOWER[i] as int == 97 + i
  {
  }

  lemma {:induction false} JoinedAt(a: string, b: string, c: string, d: string, i: nat)
    requires i < |a| + |b| + |c| + |d|
    ensures (a + b + c + d)[i] ==
      if i < |a| then a[i]
      else if i < |a| + |b| then b[i - |a|]
      else if i < |a| + |b| + |c| then c[i - |a| - |b|] else d[i - |a| - |b| - |c|]
  {
  }

  lemma {:induction false} Alphabet(i: nat)
    requires i < 64
    ensures |UPPER + LOWER + DIGITS + "+/"| == 64
    ensures Charset(i) as char == (UPPER + LOWER + DIGITS + "+/")[i] && PAD as char == '='
  {
    Letters(if i < 26 then i else if i < 52 then i - 26 else 0);
    Figures(if 52 <= i < 62 then i - 52 else 0);
    JoinedAt(UPPER, LOWER, DIGITS, "+/", i);
  }

  lemma {:induction false} Figures(i: nat)
    requires i < 10
    ensures |DIGITS| == 10 && DIGITS[i] as int == 48 + i
  {
  }

  // ---------------------------------------------------------------------------------------------
  // Encoding: section 4 of RFC 4648

  /** Three bytes are a 24-bit number; its four 6-bit digits select the characters. */
  function Group(x: Byte, y: Byte, z: Byte): Bytes {
    var v := x * 0x1_0000 + y * 0x100 + z;
    [Charset(v / 0x4_0000), Charset(v / 0x1000 % 64), Charset(v / 0x40 % 64), Charset(v % 64)]
  }

  /** A shorter last group is filled up with zero bits and padded. */
  function Encoded(s: Bytes): Bytes {
    if s == [] then []
    else if |s| == 1 then Group(s[0], 0, 0)[..2] + [PAD, PAD]
    else if |s| == 2 then Group(s[0], s[1], 0)[..3] + [PAD]
    else Group(s[0], s[1], s[2]) + Encoded(s[3..])
  }

  // ---------------------------------------------------------------------------------------------
  // The characters of a group

  /** The shifts and masks of the code as quotients and remainders. */
  lemma {:induction false} Shifts(x: nat)
    ensures Shr(x, 2) == x / 4 && Low(x, 2) == x % 4 && Shl(x, 2) == x * 4
  {
    assert Shr(x, 2) == Shr(x / 2, 1) == Shr(x / 2 / 2, 0);
    assert Low(x, 2) == x % 2 + 2 * Low(x / 2, 1);
    assert Low(x / 2, 1) == x / 2 % 2 + 2 * Low(x / 2 / 2, 0);
    assert Shl(x, 2) == 2 * Shl(x, 1);
  }

  lemma {:induction false} ShiftMore(x: nat, k: nat)
    ensures Shr(x, k + 2) == Shr(x / 4, k) && Low(x, k + 2) == x % 4 + 4 * Low(x / 4, k)
    ensures Shl(x, k + 2) == 4 * Shl(x, k)
  {
    assert Shr(x, k + 2) == Shr(x / 2, k + 1) == Shr(x / 2 / 2, k);
    assert x / 2 / 2 == x / 4;
    assert Low(x, k + 2) == x % 2 + 2 * Low(x / 2, k + 1);
    assert Low(x / 2, k + 1) == x / 2 % 2 + 2 * Low(x / 4, k);
    assert Shl(x, k + 2) == 2 * Shl(x, k + 1);
  }

  lemma {:induction false} Shifts4(x: nat)
    ensures Shr(x, 4) == x / 16 && Low(x, 4) == x % 16 && Shl(x, 4) == x * 16
  {
    ShiftMore(x, 2);
    Shifts(x / 4);
    Shifts(x);
  }

  lemma {:induction false} Shifts6(x: nat)
    ensures Shr(x, 6) == x / 64 && Low(x, 6) == x % 64 && Shl(x, 6) == x * 64
  {
    ShiftMore(x, 4);
    Shifts4(x / 4);
    Shifts4(x);
  }

  lemma {:induction false} Masks()
    ensures Ones(2) == 0x03 && Ones(4) == 0x0f && Ones(6) == 0x3f
    ensures Shl(Ones(6), 2) == 0xfc && Shl(Ones(4), 4) == 0xf0 && Shl(Ones(2), 6) == 0xc0
  {
    OnesValues();
    Shifts(0x3f);
    Shifts4(0x0f);
    Shifts6(0x03);
  }

  lemma {:induction false} OnesValues()
    ensures Ones(2) == 0x03 && Ones(4) == 0x0f && Ones(6) == 0x3f
  {
    assert Ones(2) == 2 * Ones(1) + 1 && Ones(4) == 2 * (2 * Ones(2) + 1) + 1 && Ones(6) == 2 * (2 * Ones(4) + 1) + 1;
  }

  lemma {:induction false} PowerValues()
    ensures Pow2(2) == 4 && Pow2(4) == 16 && Pow2(6) == 64
  {
    assert Pow2(2) == 2 * Pow2(1) && Pow2(4) == 4 * Pow2(2) && Pow2(6) == 4 * Pow2(4);
  }

  lemma {:induction false} OrShifted2(a: nat, b: nat)
    requires b < 4
    ensures Or(Shl(a, 2), b) == a * 4 + b
  {
    PowerValues();
    Shifts(a);
    OrDisjoint(a, b, 2);
  }

  lemma {:induction false} OrShifted4(a: nat, b: nat)
    requires b < 16
    ensures Or(Shl(a, 4), b) == a * 16 + b
  {
    PowerValues();
    Shifts4(a);
    OrDisjoint(a, b, 4);
  }

  lemma {:induction false} OrShifted6(a: nat, b: nat)
    requires b < 64
    ensures Or(Shl(a, 6), b) == a * 64 + b
  {
    PowerValues();
    Shifts6(a);
    OrDisjoint(a, b, 6);
  }

  lemma {:induction false} Cut(q: nat, b: nat)
    requires b < 256
    ensures Low8(256 * q + b) == b
  {
  }

  /** The table indices as the code computes them are the four 6-bit digits. */
  lemma {:induction false} FirstDigit(x: Byte)
    ensures Shr(And(x, 0xfc), 2) == x / 4
  {
    Masks();
    HighMask(x, 2);
    Shifts(x);
  }

  lemma {:induction false} SecondDigit(x: Byte, y: Byte)
    ensures Or(Shl(And(x, 0x03), 4), Shr(And(y, 0xf0), 4)) == x % 4 * 16 + y / 16
    ensures Shl(And(x, 0x03), 4) == x % 4 * 16
  {
    Masks();
    AndOnes(x, 2);
    Shifts(x);
    HighMask(y, 4);
    Shifts4(y);
    OrShifted4(x % 4, y / 16);
    Shifts4(x % 4);
  }

  lemma {:induction false} ThirdDigit(y: Byte, z: Byte)
    ensures Or(Shl(And(y, 0x0f), 2), Shr(And(z, 0xc0), 6)) == y % 16 * 4 + z / 64
    ensures Shl(And(y, 0x0f), 2) == y % 16 * 4
  {
    Masks();
    AndOnes(y, 4);
    Shifts4(y);
    HighMask(z, 6);
    Shifts6(z);
    OrShifted2(y % 16, z / 64);
    Shifts(y % 16);
  }

  lemma {:induction false} FourthDigit(z: Byte)
    ensures And(z, 0x3f) == z % 64
  {
    Masks();
    AndOnes(z, 6);
    Shifts6(z);
  }

  lemma {:induction false} Digits(x: Byte, y: Byte, z: Byte)
    ensures Group(x, y, z) ==
      [Charset(x / 4), Charset(x % 4 * 16 + y / 16), Charset(y % 16 * 4 + z / 64), Charset(z % 64)]
  {
    var a, b, c, d := x / 4, x % 4 * 16 + y / 16, y % 16 * 4 + z / 64, z % 64;
    var v := x * 0x1_0000 + y * 0x100 + z;
    assert v == a * 0x4_0000 + b * 0x1000 + c * 0x40 + d;
    DigitsOf(a, b, c, d, v);
  }

  lemma {:induction false} DigitsOf(a: nat, b: nat, c: nat, d: nat, v: nat)
    requires a < 64 && b < 64 && c < 64 && d < 64 && v == a * 0x4_0000 + b * 0x1000 + c * 0x40 + d
    ensures v / 0x4_0000 == a && v / 0x1000 % 64 == b && v / 0x40 % 64 == c && v % 64 == d
  {
    assert v / 0x1000 == a * 64 + b;
    assert v / 0x40 == a * 0x1000 + b * 64 + c;
  }

  // ---------------------------------------------------------------------------------------------
  // Encodings bit by bit

  /** Byte number k of the input, which is continued by zeros. */
  function ByteAt(s: Bytes, k: nat): Byte { if k < |s| then s[k] else 0 }

  /** The six bits from bit 6 * j on. */
  function Sextet(s: Bytes, j: nat): (d: nat)
    ensures d < 64
  {
    var at := 6 * j;
    Shr(ByteAt(s, at / 8) * 256 + ByteAt(s, at / 8 + 1), 10 - at % 8) % 64
  }

  lemma {:induction false} LaterSextet(s: Bytes, j: nat)
    requires |s| >= 3 && j >= 4
    ensures Sextet(s, j) == Sextet(s[3..], j - 4)
  {
    assert 6 * j / 8 == 6 * (j - 4) / 8 + 3 && 6 * j % 8 == 6 * (j - 4) % 8;
  }

  lemma {:induction false} ShrIs(x: nat, k: nat)
    ensures Pow2(k) > 0 && Shr(x, k) == x / Pow2(k)
  {
    if k > 0 {
      ShrIs(x / 2, k - 1);
      DivideTwice(x, 2, Pow2(k - 1));
    }
  }

  lemma {:induction false} Powers()
    ensures Pow2(4) == 16 && Pow2(6) == 64 && Pow2(8) == 256 && Pow2(10) == 1024
  {
    PowerValues();
    assert Pow2(8) == 4 * Pow2(6) && Pow2(10) == 4 * Pow2(8);
  }

  /** Six bits with other bits in front of them and behind them. */
  lemma {:induction false} SixBits(v: nat, m: nat, hi: nat, mid: nat, lo: nat)
    requires mid < 64 && lo < m && v == (hi * 64 + mid) * m + lo
    ensures v / m % 64 == mid
  {
    Remainder(v, m, hi * 64 + mid, lo);
    Remainder(hi * 64 + mid, 64, hi, mid);
  }

  lemma {:induction false} Parts(x: Byte, y: Byte)
    ensures (x * 256 + y) / 1024 % 64 == x / 4 && (x * 256 + y) / 16 % 64 == x % 4 * 16 + y / 16
    ensures (x * 256 + y) / 64 % 64 == x % 16 * 4 + y / 64 && (x * 256 + y) / 256 % 64 == x % 64
  {
    SixBits(x * 256 + y, 1024, 0, x / 4, x % 4 * 256 + y);
    SixBits(x * 256 + y, 16, x / 4, x % 4 * 16 + y / 16, y % 16);
    SixBits(x * 256 + y, 64, x / 16, x % 16 * 4 + y / 64, y % 64);
    SixBits(x * 256 + y, 256, x / 64, x % 64, y);
  }

  lemma {:induction false} SextetIs(s: Bytes, j: nat, k: nat, r: nat, m: nat)
    requires k == 6 * j / 8 && r == 10 - 6 * j % 8 && m == Pow2(r) > 0
    ensures Sextet(s, j) == (ByteAt(s, k) * 256 + ByteAt(s, k + 1)) / m % 64
  {
    ShrIs(ByteAt(s, k) * 256 + ByteAt(s, k + 1), r);
  }

  lemma {:induction false} FirstSextets(s: Bytes)
    ensures var x, y, z := ByteAt(s, 0), ByteAt(s, 1), ByteAt(s, 2);
      && Sextet(s, 0) == x / 4 && Sextet(s, 1) == x % 4 * 16 + y / 16
      && Sextet(s, 2) == y % 16 * 4 + z / 64 && Sextet(s, 3) == z % 64
  {
    Powers();
    SextetIs(s, 0, 0, 10, 1024);
    SextetIs(s, 1, 0, 4, 16);
    SextetIs(s, 2, 1, 6, 64);
    SextetIs(s, 3, 2, 8, 256);
    Parts(ByteAt(s, 0), ByteAt(s, 1));
    Parts(ByteAt(s, 1), ByteAt(s, 2));
    Parts(ByteAt(s, 2), ByteAt(s, 3));
  }

  /** The first four characters. */
  lemma {:induction false} FirstCharacters(s: Bytes, j: nat)
    requires s != [] && j < 4
    ensures |Encoded(s)| >= 4
    ensures Encoded(s)[j] == if j <= |s| then Charset(Sextet(s, j)) else PAD
  {
    FirstSextets(s);
    Digits(ByteAt(s, 0), ByteAt(s, 1), ByteAt(s, 2));
  }

  /** Every character but the padding encodes the next six bits of the input. */
  lemma {:induction false} EncodedAt(s: Bytes, j: nat)
    requires j < |Encoded(s)|
    ensures |Encoded(s)| == (|s| + 2) / 3 * 4
    ensures Encoded(s)[j] == if 6 * j < 8 * |s| then Charset(Sextet(s, j)) else PAD
    decreases |s|
  {
    EncodedSize(s);
    if j < 4 {
      FirstCharacters(s, j);
    } else {
      EncodedRest(s, j);
      EncodedAt(s[3..], j - 4);
      LaterSextet(s, j);
    }
  }

  lemma {:induction false} EncodedRest(s: Bytes, j: nat)
    requires 4 <= j < |Encoded(s)|
    ensures |s| >= 3 && j - 4 < |Encoded(s[3..])| && Encoded(s)[j] == Encoded(s[3..])[j - 4]
  {
  }

  lemma {:induction false} EncodedSize(s: Bytes)
    ensures |Encoded(s)| == (|s| + 2) / 3 * 4
  {
    if |s| >= 3 {
      EncodedSize(s[3..]);
      MoreThirds(|s|);
      GroupInFrontSize(s);
    }
  }

  lemma {:induction false} MoreThirds(n: nat)
    requires n >= 3
    ensures (n + 2) / 3 == (n - 3 + 2) / 3 + 1
  {
  }

  lemma {:induction false} GroupInFrontSize(s: Bytes)
    requires |s| >= 3
    ensures |Encoded(s)| == 4 + |Encoded(s[3..])|
  {
  }

  // ---------------------------------------------------------------------------------------------
  // The encoder

  lemma {:induction false} EncodedConcat(s: Bytes, t: Bytes)
    requires |s| % 3 == 0
    ensures Encoded(s + t) == Encoded(s) + Encoded(t)
  {
    if s == [] {
      assert s + t == t;
    } else {
      assert (s + t)[3..] == s[3..] + t;
      EncodedConcat(s[3..], t);
    }
  }

  // The indices into the table, as the code computes them.

  method FirstIndex(x: Byte) returns (i: nat)
    ensures i == x / 4
  {
    FirstDigit(x);
    i := Shr(And(x, 0xfc), 2);
  }

  method SecondIndex(x: Byte, y: Byte) returns (i: nat)
    ensures i == x % 4 * 16 + y / 16
  {
    SecondDigit(x, y);
    i := Or(Shl(And(x, 0x03), 4), Shr(And(y, 0xf0), 4));
  }

  method ThirdIndex(y: Byte, z: Byte) returns (i: nat)
    ensures i == y % 16 * 4 + z / 64
  {
    ThirdDigit(y, z);
    i := Or(Shl(And(y, 0x0f), 2), Shr(And(z, 0xc0), 6));
  }

  method FourthIndex(z: Byte) returns (i: nat)
    ensures i == z % 64
  {
    FourthDigit(z);
    i := And(z, 0x3f);
  }

  /** The last index of a group of one byte. */
  method LowTwoBits(x: Byte) returns (i: nat)
    ensures i == x % 4 * 16
  {
    SecondDigit(x, 0);
    i := Shl(And(x, 0x03), 4);
  }

  /** The last index of a group of two bytes. */
  method LowFourBits(y: Byte) returns (i: nat)
    ensures i == y % 16 * 4
  {
    ThirdDigit(y, 0);
    i := Shl(And(y, 0x0f), 2);
  }

  /** The four characters of a full group. */
  method PushGroup(encoded: Bytes, x: Byte, y: Byte, z: Byte) returns (longer: Bytes)
    ensures longer == encoded + Group(x, y, z)
  {
    Digits(x, y, z);
    var a := FirstIndex(x);
    var b := SecondIndex(x, y);
    var c := ThirdIndex(y, z);
    var d := FourthIndex(z);
    longer := encoded + [Charset(a)];
    longer := longer + [Charset(b)];
    longer := longer + [Charset(c)];
    longer := longer + [Charset(d)];
  }

  /** What is left over after the last full group. */
  method PushRest(encoded: Bytes, rest: Bytes) returns (longer: Bytes)
    requires |rest| < 3
    ensures longer == encoded + Encoded(rest)
  {
    longer := encoded;
    if |rest| == 1 {
      Digits(rest[0], 0, 0);
      var a := FirstIndex(rest[0]);
      var b := LowTwoBits(rest[0]);
      longer := longer + [Charset(a), Charset(b)];
      longer := longer + [PAD, PAD];
    } else if |rest| == 2 {
      Digits(rest[0], rest[1], 0);
      var a := FirstIndex(rest[0]);
      var b := SecondIndex(rest[0], rest[1]);
      var c := LowFourBits(rest[1]);
      longer := longer + [Charset(a)];
      longer := longer + [Charset(b)];
      longer := longer + [Charset(c), PAD];
    }
  }

  /** Encoding matches section 4 of RFC 4648. */
  method Base64Encoding(input: Bytes) returns (encoded: Bytes)
    ensures encoded == Encoded(input)
  {
    encoded := [];
    var n := |input|;
    var i := 0;
    ghost var done := 0;
    while i < n
      invariant done <= i <= n && i < done + 3 && done % 3 == 0 && encoded == Encoded(input[..done])
    {
      Mod3(done, i);
      if i % 3 == 2 {
        OneMoreGroup(input, i);
        encoded := PushGroup(encoded, input[i - 2], input[i - 1], input[i]);
        done := i + 1;
      }
      i := i + 1;
    }
    Mod3(done, n);
    encoded := PushRest(encoded, input[n - n % 3..]);
    EncodedSplit(input, done);
  }

  lemma {:induction false} Mod3(k: nat, i: nat)
    requires k % 3 == 0 && k <= i < k + 3
    ensures i % 3 == i - k && (i == k + 2 ==> (i + 1) % 3 == 0)
  {
  }

  lemma {:induction false} EncodedSplit(s: Bytes, k: nat)
    requires k <= |s| && k % 3 == 0
    ensures Encoded(s) == Encoded(s[..k]) + Encoded(s[k..])
  {
    assert s == s[..k] + s[k..];
    EncodedConcat(s[..k], s[k..]);
  }

  lemma {:induction false} OneMoreGroup(s: Bytes, i: nat)
    requires i < |s| && i % 3 == 2
    ensures Encoded(s[..i + 1]) == Encoded(s[..i - 2]) + Group(s[i - 2], s[i - 1], s[i])
  {
    var g := [s[i - 2], s[i - 1], s[i]];
    assert s[..i + 1] == s[..i - 2] + g;
    EncodedConcat(s[..i - 2], g);
    assert Encoded(g) == Group(s[i - 2], s[i - 1], s[i]) + Encoded([]);
  }

  // ---------------------------------------------------------------------------------------------
  // The decoder

  /** The three bytes of a group of four values, and of shorter last groups; each is cut to eight bits. */
  function First(a: Byte, b: Byte): Byte { Low8(Or(Shl(a, 2), Shr(b, 4))) }

  function Second(b: Byte, c: Byte): Byte { Low8(Or(Shl(b, 4), Shr(c, 2))) }

  function Third(c: Byte, d: Byte): Byte { Low8(Or(Shl(c, 6), d)) }

  function Raw(v: Bytes): Bytes {
    if v == [] then []
    else if |v| == 1 then [Low8(Shl(v[0], 2))]
    else if |v| == 2 then [First(v[0], v[1]), Low8(Shl(v[1], 4))]
    else if |v| == 3 then [First(v[0], v[1]), Second(v[1], v[2]), Low8(Shl(v[2], 6))]
    else [First(v[0], v[1]), Second(v[1], v[2]), Third(v[2], v[3])] + Raw(v[4..])
  }

  /** The values of the characters in front of the padding; unknown characters are not refused. */
  function Values(s: Bytes): Bytes {
    if s == [] || s[0] == PAD then [] else [Reverse(s[0])] + Values(s[1..])
  }

  /** A last byte of zero is taken for an artefact of the padding. */
  function Trimmed(r: Bytes): Bytes
    requires r != []
  {
    if r[|r| - 1] == 0 then r[..|r| - 1] else r
  }

  lemma {:induction false} RawConcat(v: Bytes, w: Bytes, groups: nat)
    requires |v| == 4 * groups
    ensures Raw(v + w) == Raw(v) + Raw(w)
  {
    if v == [] {
      assert v + w == w;
    } else {
      assert (v + w)[4..] == v[4..] + w;
      RawConcat(v[4..], w, groups - 1);
    }
  }

  lemma {:induction false} RawSome(v: Bytes)
    ensures Raw(v) == [] <==> v == []
  {
  }

  predicate NoPad(s: Bytes) { forall i :: 0 <= i < |s| ==> s[i] != PAD }

  lemma {:induction false} ValuesConcat(s: Bytes, t: Bytes)
    requires NoPad(s)
    ensures Values(s + t) == Values(s) + Values(t) && |Values(s)| == |s|
  {
    if s == [] {
      assert s + t == t;
    } else {
      assert (s + t)[1..] == s[1..] + t;
      ValuesConcat(s[1..], t);
    }
  }

  /** The first `count` values in the group buffer are turned into bytes. */
  method PushDecoded(decoded: Bytes, group: array<Byte>, count: nat, ghost done: Bytes,
        ghost groups: nat) returns (longer: Bytes)
    requires group.Length == 4 && count <= 4 && |done| == 4 * groups && decoded == Raw(done)
    ensures longer == Raw(done + group[..count])
  {
    longer := decoded;
    ghost var v := group[..count];
    RawConcat(done, v, groups);
    if count == 1 {
      longer := longer + [Low8(Shl(group[0], 2))];
    } else if count == 2 {
      longer := longer + [Low8(Or(Shl(group[0], 2), Shr(group[1], 4))), Low8(Shl(group[1], 4))];
    } else if count == 3 {
      longer := longer + [Low8(Or(Shl(group[0], 2), Shr(group[1], 4))), Low8(Or(Shl(group[1], 4), Shr(group[2], 2)))];
      longer := longer + [Low8(Shl(group[2], 6))];
    } else if count == 4 {
      longer := longer + [Low8(Or(Shl(group[0], 2), Shr(group[1], 4))), Low8(Or(Shl(group[1], 4), Shr(group[2], 2)))];
      longer := longer + [Low8(Or(Shl(group[2], 6), group[3]))];
      assert Raw(v[4..]) == [];
    }
  }

  /** back() of an empty result is undefined, so there has to be a character in front of the padding. */
  method Base64Decoding(input: Bytes) returns (decoded: Bytes)
    requires input != [] && input[0] != PAD
    ensures Raw(Values(input)) != [] && decoded == Trimmed(Raw(Values(input)))
  {
    decoded := [];
    var group := new Byte[4](_ => 0);
    var count, i := 0, 0;
    ghost var done: Bytes, groups: nat := [], 0;
    while i < |input| && input[i] != PAD
      invariant count < 4 && |done| == 4 * groups && decoded == Raw(done)
      invariant Consumed(input, i, done, group[..count])
    {
      ConsumedStep(input, i, done, group[..count]);
      ghost var v := group[..count];
      group[count] := Reverse(input[i]);
      count := count + 1;
      assert group[..count] == v + [Reverse(input[i])];
      if count == 4 {
        decoded := PushDecoded(decoded, group, count, done, groups);
        ConsumedGroup(input, i + 1, done, group[..count]);
        done, count, groups := done + group[..count], 0, groups + 1;
      }
      i := i + 1;
    }
    ValuesUpTo(input, i);
    RawSome(done + group[..count]);
    decoded := PushDecoded(decoded, group, count, done, groups);
    decoded := PopZero(decoded);
  }

  method PopZero(decoded: Bytes) returns (r: Bytes)
    requires decoded != []
    ensures r == Trimmed(decoded)
  {
    r := decoded;
    if decoded[|decoded| - 1] == 0 {
      r := decoded[..|decoded| - 1];
    }
  }

  /** The values of the first i characters, in full groups and a rest. */
  predicate Consumed(input: Bytes, i: nat, done: Bytes, rest: Bytes) {
    i <= |input| && NoPad(input[..i]) && Values(input[..i]) == done + rest && i == |done| + |rest|
  }

  lemma {:induction false} ConsumedStep(input: Bytes, i: nat, done: Bytes, rest: Bytes)
    requires Consumed(input, i, done, rest) && i < |input| && input[i] != PAD
    ensures Consumed(input, i + 1, done, rest + [Reverse(input[i])])
  {
    OneMoreValue(input, i);
    assert done + rest + [Reverse(input[i])] == done + (rest + [Reverse(input[i])]);
  }

  lemma {:induction false} ConsumedGroup(input: Bytes, i: nat, done: Bytes, rest: Bytes)
    requires Consumed(input, i, done, rest)
    ensures Consumed(input, i, done + rest, [])
  {
    assert done + rest + [] == done + rest;
  }

  lemma {:induction false} OneMoreValue(s: Bytes, i: nat)
    requires i < |s| && NoPad(s[..i]) && s[i] != PAD
    ensures NoPad(s[..i + 1]) && Values(s[..i + 1]) == Values(s[..i]) + [Reverse(s[i])]
  {
    assert s[..i + 1] == s[..i] + [s[i]];
    ValuesConcat(s[..i], [s[i]]);
    assert Values([s[i]]) == [Reverse(s[i])] + Values([]);
  }

  lemma {:induction false} ValuesUpTo(s: Bytes, i: nat)
    requires i <= |s| && NoPad(s[..i]) && (i < |s| ==> s[i] == PAD)
    ensures Values(s) == Values(s[..i])
  {
    assert s == s[..i] + s[i..];
    ValuesConcat(s[..i], s[i..]);
  }

  // ---------------------------------------------------------------------------------------------
  // Round trip

  lemma {:induction false} OneValue(a: nat, rest: Bytes, all: Bytes)
    requires a < 64 && all == [Charset(a)] + rest
    ensures Values(all) == [a] + Values(rest)
  {
    ReverseCharset(a);
    assert all[1..] == rest;
  }

  /** The values behind the characters of a group, full or padded. */
  lemma {:induction false} FourValues(a: nat, b: nat, c: nat, d: nat)
    requires a < 64 && b < 64 && c < 64 && d < 64
    ensures Values([Charset(a), Charset(b), Charset(c), Charset(d)]) == [a, b, c, d]
  {
    OneValue(d, [], [Charset(d)]);
    OneValue(c, [Charset(d)], [Charset(c), Charset(d)]);
    OneValue(b, [Charset(c), Charset(d)], [Charset(b), Charset(c), Charset(d)]);
    OneValue(a, [Charset(b), Charset(c), Charset(d)], [Charset(a), Charset(b), Charset(c), Charset(d)]);
  }

  lemma {:induction false} PaddedValues(a: nat, b: nat, c: nat)
    requires a < 64 && b < 64 && c < 64
    ensures Values([Charset(a), Charset(b), PAD, PAD]) == [a, b]
    ensures Values([Charset(a), Charset(b), Charset(c), PAD]) == [a, b, c]
  {
    OneValue(b, [PAD, PAD], [Charset(b), PAD, PAD]);
    OneValue(a, [Charset(b), PAD, PAD], [Charset(a), Charset(b), PAD, PAD]);
    OneValue(c, [PAD], [Charset(c), PAD]);
    OneValue(b, [Charset(c), PAD], [Charset(b), Charset(c), PAD]);
    OneValue(a, [Charset(b), Charset(c), PAD], [Charset(a), Charset(b), Charset(c), PAD]);
  }

  /** The bytes of a group come back from its digits; a short group leaves a zero byte behind. */
  lemma {:induction false} DigitsBack(x: Byte, y: Byte, z: Byte)
    ensures First(x / 4, x % 4 * 16 + y / 16) == x
    ensures Second(x % 4 * 16 + y / 16, y % 16 * 4 + z / 64) == y
    ensures Third(y % 16 * 4 + z / 64, z % 64) == z
  {
    FirstBack(x, y);
    SecondBack(x, y, z);
    ThirdBack(y, z);
  }

  lemma {:induction false} FirstBack(x: Byte, y: Byte)
    ensures First(x / 4, x % 4 * 16 + y / 16) == x
  {
    FirstOf(x / 4, x % 4, y / 16);
  }

  lemma {:induction false} FirstOf(a: nat, p: nat, h: nat)
    requires a < 64 && p < 4 && h < 16
    ensures First(a, p * 16 + h) == a * 4 + p
  {
    Shifts4(p * 16 + h);
    assert (p * 16 + h) / 16 == p;
    OrShifted2(a, p);
  }

  lemma {:induction false} SecondBack(x: Byte, y: Byte, z: Byte)
    ensures Second(x % 4 * 16 + y / 16, y % 16 * 4 + z / 64) == y
  {
    SecondOf(x % 4, y / 16, y % 16, z / 64);
  }

  lemma {:induction false} SecondOf(p: nat, h: nat, l: nat, m: nat)
    requires p < 4 && h < 16 && l < 16 && m < 4
    ensures Second(p * 16 + h, l * 4 + m) == h * 16 + l
  {
    Shifts(l * 4 + m);
    assert (l * 4 + m) / 4 == l;
    OrShifted4(p * 16 + h, l);
    Cut(p, h * 16 + l);
  }

  lemma {:induction false} ThirdBack(y: Byte, z: Byte)
    ensures Third(y % 16 * 4 + z / 64, z % 64) == z
  {
    ThirdOf(y % 16, z / 64, z % 64);
  }

  lemma {:induction false} ThirdOf(l: nat, m: nat, d: nat)
    requires l < 16 && m < 4 && d < 64
    ensures Third(l * 4 + m, d) == m * 64 + d
  {
    OrShifted6(l * 4 + m, d);
    Cut(l, m * 64 + d);
  }

  /** The byte a short group leaves behind. */
  lemma {:induction false} Leftover(x: Byte)
    ensures Low8(Shl(x % 4 * 16, 4)) == 0 && Low8(Shl(x % 16 * 4, 6)) == 0
  {
    Shifts4(x % 4 * 16);
    Cut(x % 4, 0);
    Shifts6(x % 16 * 4);
    Cut(x % 16, 0);
  }

  // ---------------------------------------------------------------------------------------------
  // Decodings bit by bit

  /** Six-bit value number k, the values being continued by zeros. */
  function DigitAt(v: Bytes, k: nat): Byte { if k < |v| then v[k] else 0 }

  /** The eight bits from bit 8 * k on. */
  function Octet(v: Bytes, k: nat): Byte {
    var at := 8 * k;
    Low8(Shr(DigitAt(v, at / 6) * 64 + DigitAt(v, at / 6 + 1), if at % 6 <= 4 then 4 - at % 6 else 0))
  }

  predicate SixBitValues(v: Bytes) { forall i :: 0 <= i < |v| ==> v[i] < 64 }

  /** Eight bits with other bits in front of them and behind them. */
  lemma {:induction false} EightBits(v: nat, m: nat, hi: nat, mid: nat, lo: nat)
    requires mid < 256 && lo < m && v == (hi * 256 + mid) * m + lo
    ensures v / m % 256 == mid
  {
    Remainder(v, m, hi * 256 + mid, lo);
    Remainder(hi * 256 + mid, 256, hi, mid);
  }

  /** The bytes that the code computes from neighbouring values. */
  lemma {:induction false} Pairs(a: nat, b: nat)
    requires a < 64 && b < 64
    ensures First(a, b) == (a * 64 + b) / 16 % 256
    ensures Second(a, b) == (a * 64 + b) / 4 % 256
    ensures Third(a, b) == (a * 64 + b) / 1 % 256
  {
    FirstOf(a, b / 16, b % 16);
    EightBits(a * 64 + b, 16, 0, a * 4 + b / 16, b % 16);
    SecondOf(a / 16, a % 16, b / 4, b % 4);
    EightBits(a * 64 + b, 4, a / 16, a % 16 * 16 + b / 4, b % 4);
    ThirdOf(a / 4, a % 4, b);
    EightBits(a * 64 + b, 1, a / 4, a % 4 * 64 + b, 0);
  }

  /** At the end of the values the code leaves the missing one out. */
  lemma {:induction false} LastPairs(a: nat)
    requires a < 64
    ensures Low8(Shl(a, 2)) == First(a, 0) && Low8(Shl(a, 4)) == Second(a, 0) && Low8(Shl(a, 6)) == Third(a, 0)
  {
    assert Shr(0, 4) == 0 && Shr(0, 2) == 0 by {
      Shifts(0);
      Shifts4(0);
    }
  }

  lemma {:induction false} OctetIs(v: Bytes, k: nat, d: nat, r: nat, m: nat)
    requires d == 8 * k / 6 && r == 4 - 8 * k % 6 && m == Pow2(r) > 0
    ensures Octet(v, k) == (DigitAt(v, d) * 64 + DigitAt(v, d + 1)) / m % 256
  {
    ShrIs(DigitAt(v, d) * 64 + DigitAt(v, d + 1), r);
  }

  lemma {:induction false} FirstOctets(v: Bytes)
    requires SixBitValues(v)
    ensures Octet(v, 0) == First(DigitAt(v, 0), DigitAt(v, 1))
    ensures Octet(v, 1) == Second(DigitAt(v, 1), DigitAt(v, 2))
    ensures Octet(v, 2) == Third(DigitAt(v, 2), DigitAt(v, 3))
  {
    PowerValues();
    assert Pow2(0) == 1;
    OctetIs(v, 0, 0, 4, 16);
    OctetIs(v, 1, 1, 2, 4);
    OctetIs(v, 2, 2, 0, 1);
    Pairs(DigitAt(v, 0), DigitAt(v, 1));
    Pairs(DigitAt(v, 1), DigitAt(v, 2));
    Pairs(DigitAt(v, 2), DigitAt(v, 3));
  }

  lemma {:induction false} LaterOctet(v: Bytes, k: nat)
    requires |v| >= 4 && k >= 3
    ensures Octet(v, k) == Octet(v[4..], k - 3)
  {
    assert 8 * k / 6 == 8 * (k - 3) / 6 + 4 && 8 * k % 6 == 8 * (k - 3) % 6;
  }

  lemma {:induction false} FirstBytes(v: Bytes, k: nat)
    requires SixBitValues(v) && v != [] && k < 3 && k < |v|
    ensures k < |Raw(v)| && Raw(v)[k] == Octet(v, k)
  {
    FirstOctets(v);
    LastPairs(DigitAt(v, k));
  }

  /** Every byte before the last one is looked at holds the next eight bits of the values, continued by zeros. */
  lemma {:induction false} DecodedAt(v: Bytes, k: nat)
    requires SixBitValues(v) && k < |Raw(v)|
    ensures |Raw(v)| == (6 * |v| + 7) / 8 && Raw(v)[k] == Octet(v, k)
    decreases |v|
  {
    DecodedSize(v);
    if k < 3 {
      FirstBytes(v, k);
    } else {
      DecodedAt(v[4..], k - 3);
      LaterOctet(v, k);
    }
  }

  lemma {:induction false} DecodedSize(v: Bytes)
    ensures |Raw(v)| == (6 * |v| + 7) / 8
  {
    if |v| >= 4 {
      DecodedSize(v[4..]);
    }
  }

  lemma {:induction false} FullGroupBack(x: Byte, y: Byte, z: Byte)
    ensures NoPad(Group(x, y, z)) && Raw(Values(Group(x, y, z))) == [x, y, z] && |Values(Group(x, y, z))| == 4
  {
    var a, b, c, d := x / 4, x % 4 * 16 + y / 16, y % 16 * 4 + z / 64, z % 64;
    Digits(x, y, z);
    FourValues(a, b, c, d);
    ReverseCharset(a);
    ReverseCharset(b);
    ReverseCharset(c);
    ReverseCharset(d);
    DigitsBack(x, y, z);
    assert Raw([a, b, c, d]) == [First(a, b), Second(b, c), Third(c, d)] + Raw([]);
  }

  lemma {:induction false} TwoCharacters(a: nat, b: nat)
    requires a < 64 && b < 64
    ensures Raw(Values([Charset(a), Charset(b), PAD, PAD])) == [First(a, b), Low8(Shl(b, 4))]
  {
    PaddedValues(a, b, 0);
  }

  lemma {:induction false} ThreeCharacters(a: nat, b: nat, c: nat)
    requires a < 64 && b < 64 && c < 64
    ensures Raw(Values([Charset(a), Charset(b), Charset(c), PAD])) == [First(a, b), Second(b, c), Low8(Shl(c, 6))]
  {
    PaddedValues(a, b, c);
  }

  lemma {:induction false} OneByteBack(x: Byte)
    ensures Raw(Values(Encoded([x]))) == [x, 0] && Encoded([x])[0] != PAD
  {
    Digits(x, 0, 0);
    assert Encoded([x]) == [Charset(x / 4), Charset(x % 4 * 16), PAD, PAD];
    TwoCharacters(x / 4, x % 4 * 16);
    ReverseCharset(x / 4);
    FirstBack(x, 0);
    Leftover(x);
  }

  lemma {:induction false} EncodedTwo(x: Byte, y: Byte)
    ensures Encoded([x, y]) == [Charset(x / 4), Charset(x % 4 * 16 + y / 16), Charset(y % 16 * 4), PAD]
  {
    Digits(x, y, 0);
  }

  lemma {:induction false} TwoBytesBack(x: Byte, y: Byte)
    ensures Raw(Values(Encoded([x, y]))) == [x, y, 0] && Encoded([x, y])[0] != PAD
  {
    EncodedTwo(x, y);
    ThreeCharacters(x / 4, x % 4 * 16 + y / 16, y % 16 * 4);
    ReverseCharset(x / 4);
    FirstBack(x, y);
    SecondBack(x, y, 0);
    Leftover(y);
  }

  lemma {:induction false} GroupInFront(x: Byte, y: Byte, z: Byte, t: Bytes)
    ensures Raw(Values(Group(x, y, z) + t)) == [x, y, z] + Raw(Values(t)) && Group(x, y, z)[0] != PAD
  {
    FullGroupBack(x, y, z);
    ValuesConcat(Group(x, y, z), t);
    RawConcat(Values(Group(x, y, z)), Values(t), 1);
  }

  /** How many bytes the last group has, when it is not full. */
  function Odd(n: nat): nat { if n < 3 then n else Odd(n - 3) }

  lemma {:induction false} OddIsRemainder(n: nat)
    ensures Odd(n) == n % 3
  {
    if n >= 3 {
      OddIsRemainder(n - 3);
    }
  }

  lemma {:induction false} RawBackStep(s: Bytes, r: Bytes)
    requires |s| > 2 && r == Raw(Values(Encoded(s[3..])))
    ensures Raw(Values(Encoded(s))) == s[..3] + r && Encoded(s) != [] && Encoded(s)[0] != PAD
  {
    GroupInFront(s[0], s[1], s[2], Encoded(s[3..]));
    assert s[..3] == [s[0], s[1], s[2]];
  }

  /** Before the last byte is looked at, a short last group has left a zero byte behind. */
  lemma {:induction false} RawBack(s: Bytes)
    ensures Raw(Values(Encoded(s))) == s + (if Odd(|s|) == 0 then [] else [0])
    ensures s != [] ==> Encoded(s) != [] && Encoded(s)[0] != PAD
  {
    if s == [] {
    } else if |s| < 3 {
      ShortBack(s);
    } else {
      RawBack(s[3..]);
      RawBackStep(s, Raw(Values(Encoded(s[3..]))));
      LongBack(s[..3], s[3..]);
      assert s == s[..3] + s[3..];
    }
  }

  lemma {:induction false} ShortBack(s: Bytes)
    requires 0 < |s| < 3
    ensures Raw(Values(Encoded(s))) == s + [0] && Encoded(s) != [] && Encoded(s)[0] != PAD
  {
    if |s| == 1 {
      OneByteBack(s[0]);
      assert s == [s[0]];
    } else {
      TwoBytesBack(s[0], s[1]);
      assert s == [s[0], s[1]];
    }
  }

  lemma {:induction false} LongBack(g: Bytes, t: Bytes)
    requires |g| == 3
    ensures Odd(|g + t|) == Odd(|t|)
    ensures g + (t + if Odd(|t|) == 0 then [] else [0]) == (g + t) + if Odd(|t|) == 0 then [] else [0]
  {
    Associate(g, t, if Odd(|t|) == 0 then [] else [0]);
  }

  /**
   Decoding an encoding gives the input back, except that an input whose length is a multiple of three and whose
   last byte is zero loses that byte.
   */
  lemma {:induction false} RoundTrip(s: Bytes)
    requires s != []
    ensures Encoded(s) != [] && Encoded(s)[0] != PAD && Raw(Values(Encoded(s))) != []
    ensures Trimmed(Raw(Values(Encoded(s)))) == if |s| % 3 == 0 && s[|s| - 1] == 0 then s[..|s| - 1] else s
    ensures Trimmed(Raw(Values(Encoded(s)))) == s <==> |s| % 3 != 0 || s[|s| - 1] != 0
  {
    OddIsRemainder(|s|);
    RawBack(s);
    assert (s + [0])[..|s|] == s;
  }

  /** The shortest input that loses its last byte. */
  lemma {:induction false} ZerosLoseOne()
    ensures Encoded([0, 0, 0]) == [65, 65, 65, 65] && Trimmed(Raw(Values(Encoded([0, 0, 0])))) == [0, 0]
  {
    RoundTrip([0, 0, 0]);
    assert [0, 0, 0][3..] == [] && Encoded([]) == [];
  }
}
