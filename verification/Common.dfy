/** Definitions shared by the models: optional values and a few facts about finite sets and sequences. */
module Common {

  datatype Option<+T> = None | Some(value: T)

  type Byte = b: nat | b < 256

  /** The integers lo, lo + 1, ..., hi - 1. */
  function Range(lo: int, hi: int): (r: set<int>)
    ensures forall x :: x in r <==> lo <= x < hi
    decreases hi - lo
  {
    if hi <= lo then {} else Range(lo, hi - 1) + {hi - 1}
  }

  lemma {:induction false} RangeSize(lo: int, hi: int)
    requires lo <= hi
    ensures |Range(lo, hi)| == hi - lo
    decreases hi - lo
  {
    if lo < hi {
      RangeSize(lo, hi - 1);
      assert Range(lo, hi) == Range(lo, hi - 1) + {hi - 1};
    }
  }

  lemma {:induction false} SubsetSize<T>(a: set<T>, b: set<T>)
    requires a <= b
    ensures |a| <= |b|
    ensures |a| == |b| ==> a == b
  {
    assert b == a + (b - a);
    assert |b| == |a| + |b - a|;
    if |a| == |b| {
      assert b - a == {};
    }
  }

  lemma {:induction false} DisjointSizes<T>(a: set<T>, b: set<T>, c: set<T>)
    requires a !! b && a <= c && b <= c
    ensures |a| + |b| <= |c|
  {
    assert |a + b| == |a| + |b|;
    SubsetSize(a + b, c);
  }

  /** The greatest element of a set of integers between 0 and hi, or -1 when there is none. */
  lemma {:induction false} Greatest(s: set<int>, hi: nat) returns (m: int)
    requires forall x :: x in s ==> 0 <= x < hi
    ensures -1 <= m && (m != -1 ==> m in s) && forall x :: x in s ==> x <= m
  {
    m := hi - 1;
    if hi > 0 && hi - 1 !in s {
      m := Greatest(s, hi - 1);
    }
  }

  function Repeat<T>(x: T, n: nat): (r: seq<T>)
    ensures |r| == n && forall i :: 0 <= i < n ==> r[i] == x
  {
    seq(n, _ => x)
  }

  function Min(a: int, b: int): int { if a < b then a else b }

  function Max(a: int, b: int): int { if a < b then b else a }

  lemma {:induction false} ProductSize(q: int, m: int)
    requires m > 0
    ensures q >= 1 ==> q * m >= m
    ensures q <= -1 ==> q * m <= -m
    ensures q <= -2 ==> q * m <= -2 * m
  {
    if q >= 1 {
      assert (q - 1) * m >= 0;
    } else if q <= -2 {
      assert (-2 - q) * m >= 0;
    } else {}
  }

  /** s without its element at position i. */
  function Omit<T>(s: seq<T>, i: nat): (r: seq<T>)
    requires i < |s|
    ensures |r| == |s| - 1 && forall j :: 0 <= j < |r| ==> r[j] == s[if j < i then j else j + 1]
  {
    s[..i] + s[i + 1..]
  }

  lemma {:induction false} DropAt<T>(s: seq<T>, p: nat, d: nat)
    requires p + d < |s|
    ensures s[p..][d] == s[p + d]
  {
  }

  lemma {:induction false} DropDrop<T>(s: seq<T>, p: nat, d: nat)
    requires p + d <= |s|
    ensures s[p..][d..] == s[p + d..]
  {
  }

  lemma {:induction false} DropConcat<T>(a: seq<T>, b: seq<T>, d: nat)
    ensures d <= |a| ==> (a + b)[d..] == a[d..] + b
    ensures |a| <= d <= |a| + |b| ==> (a + b)[d..] == b[d - |a|..]
  {
  }

  lemma {:induction false} Associate<T>(a: seq<T>, b: seq<T>, c: seq<T>)
    ensures a + (b + c) == a + b + c
  {
  }

  // ---------------------------------------------------------------------------------------------
  // Powers of two and bits

  function Pow2(n: nat): nat { if n == 0 then 1 else 2 * Pow2(n - 1) }

  predicate PowerOfTwo(n: nat) { n == 1 || (n > 1 && n % 2 == 0 && PowerOfTwo(n / 2)) }

  /** Bitwise `and` of a two's complement number and a mask. */
  function And(a: int, b: nat): nat
    decreases b
  {
    if a == 0 || b == 0 then 0 else (if a % 2 == 1 && b % 2 == 1 then 1 else 0) + 2 * And(a / 2, b / 2)
  }

  /** q and r are the quotient and the remainder of x by m. */
  lemma {:induction false} Remainder(x: int, m: int, q: int, r: int)
    requires m > 0 && 0 <= r < m && x == q * m + r
    ensures x / m == q && x % m == r
  {
    var d := x / m - q;
    assert x == x / m * m + x % m;
    assert d * m == x / m * m - q * m;
    ProductSize(d, m);
  }

  lemma {:induction false} Distribute(x: int, y: int, a: int)
    ensures (x + y) * a == x * a + y * a
  {
  }

  lemma {:induction false} Regroup(q: int, a: int, b: int)
    ensures q * b * a == q * (a * b) && a * b == b * a
  {
  }

  lemma {:induction false} NoSign(x: nat, y: nat)
    ensures 0 <= x * y
  {
  }

  lemma {:induction false} NestedDigits(a: int, b: int, q: int, r: int, m: int)
    requires 0 <= m < a && 0 <= r < b
    ensures 0 <= r * a + m < a * b && (q * b + r) * a + m == q * (a * b) + (r * a + m)
  {
    NoSign(r, a);
    NoSign(b - 1 - r, a);
    Distribute(r, b - 1 - r, a);
    Distribute(b - 1, 1, a);
    Distribute(q * b, r, a);
    Regroup(q, a, b);
    assert 1 * a == a;
  }

  /** Dividing twice is dividing by the product. */
  lemma {:induction false} DivideTwice(n: nat, a: nat, b: nat)
    requires a > 0 && b > 0
    ensures a * b > 0 && n / (a * b) == n / a / b
  {
    var x, m := n / a, n % a;
    var q, r := x / b, x % b;
    NestedDigits(a, b, q, r, m);
    assert n == x * a + m && x == q * b + r;
    Remainder(n, a * b, q, r * a + m);
  }

  lemma {:induction false} RemainderHalved(x: int, h: int)
    requires h > 0
    ensures x % (2 * h) == x % 2 + 2 * (x / 2 % h)
  {
    var q := x / 2 / h;
    assert x / 2 == q * h + x / 2 % h;
    assert q * (2 * h) == 2 * (q * h);
    Remainder(x, 2 * h, q, x % 2 + 2 * (x / 2 % h));
  }

  /** Masking with a power of two less one. */
  lemma {:induction false} AndMask(x: int, m: nat)
    requires PowerOfTwo(m)
    ensures And(x, m - 1) == x % m
    decreases m
  {
    if m > 1 {
      AndMask(x / 2, m / 2);
      RemainderHalved(x, m / 2);
      assert (m - 1) % 2 == 1 && (m - 1) / 2 == m / 2 - 1;
    }
  }
}
