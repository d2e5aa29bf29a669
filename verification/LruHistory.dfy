/**
 What an LRU cache is for: after any sequence of operations it holds the most recently used keys, as many as fit,
 with the values last put for them.  This is about the recency sequences that LruCache.LRUCache implements.
 */
module LruHistory {
  import opened Common
  import opened LruCache

  datatype Op = Get(key: int) | Put(key: int, value: int)

  function Step(s: seq<Item>, op: Op, capacity: int): seq<Item> {
    match op
    case Get(k) => Used(s, k)
    case Put(k, v) => Stored(s, k, v, capacity)
  }

  function Run(ops: seq<Op>, capacity: int): seq<Item> {
    if ops == [] then [] else Step(Run(ops[..|ops| - 1], capacity), ops[|ops| - 1], capacity)
  }

  /** The keys used, latest first; asking for a key that is not there is not a use. */
  function Uses(ops: seq<Op>, capacity: int): seq<int> {
    if ops == [] then []
    else
      var before, op := ops[..|ops| - 1], ops[|ops| - 1];
      if op.Put? || Has(Run(before, capacity), op.key) then [op.key] + Uses(before, capacity)
      else Uses(before, capacity)
  }

  function Position(u: seq<int>, k: int): (i: nat)
    ensures i <= |u| && (i < |u| ==> u[i] == k) && forall j :: 0 <= j < i ==> u[j] != k
  {
    if u == [] || u[0] == k then 0 else 1 + Position(u[1..], k)
  }

  function Dropped(u: seq<int>, k: int): seq<int> {
    var i := Position(u, k);
    if i < |u| then Omit(u, i) else u
  }

  /** The different keys by latest use. */
  function Recency(u: seq<int>): seq<int> {
    if u == [] then [] else [u[0]] + Dropped(Recency(u[1..]), u[0])
  }

  function Take(u: seq<int>, n: nat): seq<int> { if |u| <= n then u else u[..n] }

  predicate NoRepeats(u: seq<int>) { forall i, j :: 0 <= i < j < |u| ==> u[i] != u[j] }

  function Keys(s: seq<Item>): (r: seq<int>)
    ensures |r| == |s| && forall i :: 0 <= i < |s| ==> r[i] == s[i].key
  {
    if s == [] then [] else [s[0].key] + Keys(s[1..])
  }

  lemma {:induction false} DroppedAt(u: seq<int>, k: int)
    requires NoRepeats(u)
    ensures k !in Dropped(u, k) && NoRepeats(Dropped(u, k)) && forall x :: x in Dropped(u, k) ==> x in u
  {
    var i, d := Position(u, k), Dropped(u, k);
    forall p, q | 0 <= p < q < |d|
      ensures d[p] != d[q]
    {
    }
    forall j | 0 <= j < |d|
      ensures d[j] != k && d[j] in u
    {
    }
  }

  lemma {:induction false} RecencyNoRepeats(u: seq<int>)
    ensures NoRepeats(Recency(u))
  {
    if u != [] {
      RecencyNoRepeats(u[1..]);
      DroppedAt(Recency(u[1..]), u[0]);
    }
  }

  lemma {:induction false} KeysIndex(s: seq<Item>, k: int)
    ensures IndexOf(s, k) == Position(Keys(s), k)
  {
    var i, p := IndexOf(s, k), Position(Keys(s), k);
    assert i < |s| ==> Keys(s)[i] == k;
    assert p < |s| ==> s[p].key == k;
  }

  lemma {:induction false} KeysWithout(s: seq<Item>, k: int)
    ensures Keys(Without(s, k)) == Dropped(Keys(s), k) && (Has(s, k) <==> Position(Keys(s), k) < |s|)
  {
    KeysIndex(s, k);
    var i := IndexOf(s, k);
    if i < |s| {
      KeysOmitted(s, i);
    }
  }

  lemma {:induction false} KeysOmitted(s: seq<Item>, i: nat)
    requires i < |s|
    ensures Keys(Omit(s, i)) == Omit(Keys(s), i)
  {
    forall j | 0 <= j < |s| - 1
      ensures Keys(Omit(s, i))[j] == Omit(Keys(s), i)[j]
    {
    }
  }

  lemma {:induction false} PositionInTake(r: seq<int>, k: int, n: nat)
    ensures Position(Take(r, n), k) == if Position(r, k) < n then Position(r, k) else |Take(r, n)|
  {
    var t := Take(r, n);
    var i, p := Position(r, k), Position(t, k);
    if p < |t| {
      assert r[p] == k;
    }
    if i < |t| {
      assert t[i] == k;
    }
  }

  /** Using a key commutes with looking at the first n keys only. */
  lemma {:induction false} UseFront(r: seq<int>, k: int, n: nat)
    requires n > 0
    ensures Take([k] + Dropped(r, k), n) == Take([k] + Dropped(Take(r, n), k), n)
    ensures Position(Take(r, n), k) < |Take(r, n)| ==> |[k] + Dropped(Take(r, n), k)| <= n
  {
    PositionInTake(r, k, n);
    if |r| > n {
      DroppedFront(r, k, n);
      assert n > 1 ==> Take(Dropped(r, k), n - 1) == Dropped(r, k)[..n - 1];
      FrontTake(k, Dropped(r, k), n);
      FrontTake(k, Dropped(Take(r, n), k), n);
    }
  }

  lemma {:induction false} FrontTake(k: int, u: seq<int>, n: nat)
    requires n > 0
    ensures Take([k] + u, n) == [k] + Take(u, n - 1)
  {
  }

  lemma {:induction false} DroppedIs(u: seq<int>, k: int, j: nat)
    requires j + 1 < |u|
    ensures j < |Dropped(u, k)| && Dropped(u, k)[j] == u[if j < Position(u, k) then j else j + 1]
  {
  }

  lemma {:induction false} TakeIs(u: seq<int>, n: nat, j: nat)
    requires j < n <= |u|
    ensures |Take(u, n)| == n && Take(u, n)[j] == u[j]
  {
  }

  /** The first n - 1 keys besides k are among the first n. */
  lemma {:induction false} DroppedFront(r: seq<int>, k: int, n: nat)
    requires 0 < n < |r|
    ensures Take(Dropped(r, k), n - 1) == Take(Dropped(Take(r, n), k), n - 1)
  {
    var d, d' := Dropped(r, k), Dropped(Take(r, n), k);
    var front, front' := Take(d, n - 1), Take(d', n - 1);
    forall j | 0 <= j < n - 1
      ensures front[j] == front'[j]
    {
      FrontKey(r, k, n, j);
      TakeIs(d, n - 1, j);
      TakeIs(d', n - 1, j);
    }
  }

  lemma {:induction false} FrontKey(r: seq<int>, k: int, n: nat, j: nat)
    requires 0 < n < |r| && j < n - 1
    ensures n - 1 <= |Dropped(r, k)| && n - 1 <= |Dropped(Take(r, n), k)|
    ensures Dropped(r, k)[j] == Dropped(Take(r, n), k)[j]
  {
    var t := Take(r, n);
    FrontPosition(r, k, n, j);
    TakeIs(r, n, if j < Position(r, k) then j else j + 1);
    DroppedIs(r, k, n - 2);
    DroppedIs(r, k, j);
    DroppedIs(t, k, n - 2);
    DroppedIs(t, k, j);
  }

  lemma {:induction false} FrontPosition(r: seq<int>, k: int, n: nat, j: nat)
    requires j < n - 1 && n < |r|
    ensures |Take(r, n)| == n && (j < Position(Take(r, n), k) <==> j < Position(r, k))
  {
    PositionInTake(r, k, n);
    TakeIs(r, n, j);
  }

  lemma {:induction false} PutStep(s: seq<Item>, k: int, value: int, capacity: int, r: seq<int>)
    requires Keys(s) == Take(r, Max(0, capacity))
    ensures Keys(Stored(s, k, value, capacity)) == Take([k] + Dropped(r, k), Max(0, capacity))
  {
    KeysWithout(s, k);
    var all := [Item(k, value)] + Without(s, k);
    assert Keys(all) == [k] + Dropped(Keys(s), k);
    assert Keys(all[..|all| - 1]) == Keys(all)[..|all| - 1];
    if Max(0, capacity) > 0 {
      UseFront(r, k, Max(0, capacity));
    }
  }

  lemma {:induction false} HitStep(s: seq<Item>, k: int, n: nat, r: seq<int>)
    requires Keys(s) == Take(r, n) && Has(s, k)
    ensures Keys(Used(s, k)) == Take([k] + Dropped(r, k), n)
  {
    KeysWithout(s, k);
    assert Keys(Used(s, k)) == [k] + Dropped(Keys(s), k);
    UseFront(r, k, n);
  }

  lemma {:induction false} HoldsMostRecent(ops: seq<Op>, capacity: int)
    ensures Keys(Run(ops, capacity)) == Take(Recency(Uses(ops, capacity)), Max(0, capacity))
  {
    if ops != [] {
      var before, op := ops[..|ops| - 1], ops[|ops| - 1];
      HoldsMostRecent(before, capacity);
      var s, uses := Run(before, capacity), Uses(before, capacity);
      if op.Put? {
        PutStep(s, op.key, op.value, capacity, Recency(uses));
        assert Uses(ops, capacity)[1..] == uses;
      } else if Has(s, op.key) {
        HitStep(s, op.key, Max(0, capacity), Recency(uses));
        assert Uses(ops, capacity)[1..] == uses;
      }
    }
  }

  // ---------------------------------------------------------------------------------------------
  // Values

  predicate EverPut(ops: seq<Op>, k: int) { exists i :: 0 <= i < |ops| && ops[i].Put? && ops[i].key == k }

  function LastPut(ops: seq<Op>, k: int): int
    requires EverPut(ops, k)
  {
    var op := ops[|ops| - 1];
    if op.Put? && op.key == k then op.value else LastPut(ops[..|ops| - 1], k)
  }

  lemma {:induction false} EverPutGrows(ops: seq<Op>, k: int)
    requires ops != [] && EverPut(ops[..|ops| - 1], k)
    ensures EverPut(ops, k)
  {
    var i :| 0 <= i < |ops| - 1 && ops[..|ops| - 1][i].Put? && ops[..|ops| - 1][i].key == k;
    assert ops[i].Put? && ops[i].key == k;
  }

  /** Every cached value is the one last put for its key. */
  lemma {:induction false} HoldsLastValues(ops: seq<Op>, capacity: int, item: Item)
    requires item in Run(ops, capacity)
    ensures EverPut(ops, item.key) && LastPut(ops, item.key) == item.value
  {
    var before, op := ops[..|ops| - 1], ops[|ops| - 1];
    var s := Run(before, capacity);
    if op.Put? && item == Item(op.key, op.value) {
      assert ops[|ops| - 1].Put?;
    } else {
      RunUnique(before, capacity);
      OldItem(s, op, capacity, item);
      HoldsLastValues(before, capacity, item);
      EverPutGrows(ops, item.key);
    }
  }

  lemma {:induction false} RunUnique(ops: seq<Op>, capacity: int)
    ensures Unique(Run(ops, capacity))
  {
    HoldsMostRecent(ops, capacity);
    RecencyNoRepeats(Uses(ops, capacity));
    var s := Run(ops, capacity);
    assert forall i :: 0 <= i < |s| ==> s[i].key == Keys(s)[i];
  }

  lemma {:induction false} WithoutOthers(s: seq<Item>, k: int, item: Item)
    requires item in Without(s, k)
    ensures item in s && (Unique(s) ==> item.key != k)
  {
    var i, w := IndexOf(s, k), Without(s, k);
    var j :| 0 <= j < |w| && w[j] == item;
    if i < |s| {
      assert w[j] == s[if j < i then j else j + 1] && (j < i ==> s[j].key != k);
    }
  }

  lemma {:induction false} OldItem(s: seq<Item>, op: Op, capacity: int, item: Item)
    requires Unique(s) && item in Step(s, op, capacity) && !(op.Put? && item == Item(op.key, op.value))
    ensures item in s && !(op.Put? && item.key == op.key)
  {
    if op.Put? || (Has(s, op.key) && item != s[IndexOf(s, op.key)]) {
      assert item in Without(s, op.key);
      WithoutOthers(s, op.key, item);
    }
  }
}
