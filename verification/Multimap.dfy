/**
 Ordered multimaps as sequences of entries: what the red-black tree and the skip list both stand for.
 */
module Multimap {
  type Value(!new, ==)

  datatype Entry = Entry(key: int, val: Value)

  predicate Sorted(s: seq<Entry>) {
    forall i, j :: 0 <= i < j < |s| ==> s[i].key <= s[j].key
  }

  predicate AllBelow(s: seq<Entry>, key: int) { forall i :: 0 <= i < |s| ==> s[i].key < key }

  predicate AllAbove(s: seq<Entry>, key: int) { forall i :: 0 <= i < |s| ==> key < s[i].key }

  predicate NoneBelow(s: seq<Entry>, key: int) { forall i :: 0 <= i < |s| ==> key <= s[i].key }

  lemma {:induction false} SortedSlice(a: seq<Entry>, s: seq<Entry>, b: seq<Entry>)
    requires Sorted(a + s + b)
    ensures Sorted(s)
  {
    forall i, j | 0 <= i < j < |s|
      ensures s[i].key <= s[j].key
    {
      assert s[i] == (a + s + b)[|a| + i] && s[j] == (a + s + b)[|a| + j];
    }
  }

  lemma {:induction false} SortedAround(l: seq<Entry>, e: Entry, r: seq<Entry>)
    requires Sorted(l + [e] + r)
    ensures NoneBelow(r, e.key) && forall i :: 0 <= i < |l| ==> l[i].key <= e.key
  {
    var s := l + [e] + r;
    assert s[|l|] == e;
    forall i | 0 <= i < |l|
      ensures l[i].key <= e.key
    {
      assert s[i] == l[i];
    }
    forall i | 0 <= i < |r|
      ensures e.key <= r[i].key
    {
      assert s[|l| + 1 + i] == r[i];
    }
  }

  lemma {:induction false} SortedInFront(e: Entry, s: seq<Entry>)
    requires Sorted(s) && NoneBelow(s, e.key)
    ensures Sorted([e] + s)
  {
    var s' := [e] + s;
    forall p, q | 0 <= p < q < |s'|
      ensures s'[p].key <= s'[q].key
    {
      assert s'[q] == s[q - 1];
      assert p > 0 ==> s'[p] == s[p - 1];
    }
  }

  lemma {:induction false} SortedRest(s: seq<Entry>)
    requires Sorted(s) && s != []
    ensures Sorted(s[1..]) && NoneBelow(s[1..], s[0].key)
  {
    var r := s[1..];
    forall p, q | 0 <= p < q < |r|
      ensures r[p].key <= r[q].key
    {
      assert r[p] == s[p + 1] && r[q] == s[q + 1];
    }
    forall p | 0 <= p < |r|
      ensures s[0].key <= r[p].key
    {
      assert r[p] == s[p + 1];
    }
  }

  /** How many leading entries have a smaller key. */
  function Place(s: seq<Entry>, key: int): (k: nat)
    ensures k <= |s| && (forall i :: 0 <= i < k ==> s[i].key < key) && (k < |s| ==> key <= s[k].key)
  {
    if s == [] || key <= s[0].key then 0 else 1 + Place(s[1..], key)
  }

  /** The sequence with e put in front of the first entry whose key is not smaller. */
  function Inserted(s: seq<Entry>, e: Entry): seq<Entry> {
    s[..Place(s, e.key)] + [e] + s[Place(s, e.key)..]
  }

  lemma {:induction false} InsertedBetween(a: seq<Entry>, b: seq<Entry>, e: Entry)
    requires AllBelow(a, e.key) && NoneBelow(b, e.key)
    ensures Inserted(a + b, e) == a + [e] + b
  {
    var s, k := a + b, Place(a + b, e.key);
    assert forall i :: 0 <= i < |a| ==> s[i] == a[i];
    assert b != [] ==> s[|a|] == b[0];
    assert k == |a|;
    assert s[..k] == a && s[k..] == b;
  }

  /** Where the entries of a sequence are once e is in at position k. */
  lemma {:induction false} InsertedEntryAt(s: seq<Entry>, k: nat, e: Entry, p: nat)
    requires k <= |s| && p <= |s|
    ensures |s[..k] + [e] + s[k..]| == |s| + 1
    ensures (s[..k] + [e] + s[k..])[p] == if p < k then s[p] else if p == k then e else s[p - 1]
  {
  }

  lemma {:induction false} InsertedIsSorted(s: seq<Entry>, e: Entry)
    requires Sorted(s)
    ensures Sorted(Inserted(s, e))
    ensures multiset(Inserted(s, e)) == multiset(s) + multiset{e}
  {
    var k, s' := Place(s, e.key), Inserted(s, e);
    assert s == s[..k] + s[k..];
    forall p, q | 0 <= p < q < |s'|
      ensures s'[p].key <= s'[q].key
    {
      InsertedEntryAt(s, k, e, p);
      InsertedEntryAt(s, k, e, q);
      if q > k {
        assert s[k].key <= s[q - 1].key;
      }
    }
  }

  /** s' is s without one entry of that key. */
  ghost predicate OneRemoved(s: seq<Entry>, s': seq<Entry>, key: int) {
    exists i :: 0 <= i < |s| && s[i].key == key && s' == s[..i] + s[i + 1..]
  }

  lemma {:induction false} RemovedEntryAt(s: seq<Entry>, i: nat, p: nat)
    requires i < |s| && p < |s| - 1
    ensures |s[..i] + s[i + 1..]| == |s| - 1
    ensures (s[..i] + s[i + 1..])[p] == s[if p < i then p else p + 1]
  {
  }

  lemma {:induction false} OneRemovedIsSorted(s: seq<Entry>, s': seq<Entry>, key: int)
    requires OneRemoved(s, s', key) && Sorted(s)
    ensures Sorted(s')
  {
    var i :| 0 <= i < |s| && s[i].key == key && s' == s[..i] + s[i + 1..];
    forall p, q | 0 <= p < q < |s'|
      ensures s'[p].key <= s'[q].key
    {
      RemovedEntryAt(s, i, p);
      RemovedEntryAt(s, i, q);
    }
  }

  lemma {:induction false} OneRemovedMultiset(s: seq<Entry>, s': seq<Entry>, key: int) returns (e: Entry)
    requires OneRemoved(s, s', key)
    ensures e in s && e.key == key && multiset(s) == multiset(s') + multiset{e}
  {
    var i :| 0 <= i < |s| && s[i].key == key && s' == s[..i] + s[i + 1..];
    assert s == s[..i] + [s[i]] + s[i + 1..];
    e := s[i];
  }
}
