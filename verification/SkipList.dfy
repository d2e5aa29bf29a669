/**
 The skip list (include/data_structure/skiplist.h, class skiplist).

 The nodes live in a memory that maps addresses to a vector of forward links and an entry.  The towers are the
 nodes in the order of the bottom level, with their heights; the links of every level are determined by them.
 */
module SkipList {
  import opened Common
  import opened Multimap

  type Address = nat

  const NULL: Address := 0
  const HEADER: Address := 1

  datatype Node = Node(forward: seq<Address>, entry: Entry)

  type Heap = map<Address, Node>

  datatype Tower = Tower(at: Address, height: nat, entry: Entry)

  // ---------------------------------------------------------------------------------------------
  // Levels

  /** The first node of height above i, or NULL. */
  function First(s: seq<Tower>, i: nat): Address {
    if s == [] then NULL else if s[0].height > i then s[0].at else First(s[1..], i)
  }

  /** The last node of height above i, or the header. */
  function Last(s: seq<Tower>, i: nat): Address {
    if s == [] then HEADER else if s[|s| - 1].height > i then s[|s| - 1].at else Last(s[..|s| - 1], i)
  }

  lemma {:induction false} FirstConcat(a: seq<Tower>, b: seq<Tower>, i: nat)
    requires forall p :: 0 <= p < |a| ==> a[p].at != NULL
    ensures First(a + b, i) == if First(a, i) != NULL then First(a, i) else First(b, i)
  {
    if a == [] {
      assert a + b == b;
    } else {
      assert (a + b)[1..] == a[1..] + b;
      FirstConcat(a[1..], b, i);
    }
  }

  /** First and Last in terms of positions. */
  lemma {:induction false} FirstAt(s: seq<Tower>, i: nat) returns (p: nat)
    ensures p <= |s| && forall q :: 0 <= q < p ==> s[q].height <= i
    ensures if p < |s| then s[p].height > i && First(s, i) == s[p].at else First(s, i) == NULL
  {
    p := 0;
    if s != [] && s[0].height <= i {
      p := FirstAt(s[1..], i);
      assert forall q :: 0 < q < p + 1 ==> s[q] == s[1..][q - 1];
      p := p + 1;
    }
  }

  /** The same from position p on. */
  lemma {:induction false} FirstFrom(s: seq<Tower>, i: nat, p: nat) returns (d: nat)
    requires p <= |s|
    ensures p <= d <= |s| && forall q :: p <= q < d ==> s[q].height <= i
    ensures if d < |s| then s[d].height > i && First(s[p..], i) == s[d].at else First(s[p..], i) == NULL
    decreases |s| - p
  {
    d := p;
    if p < |s| {
      DropAt(s, p, 0);
      DropDrop(s, p, 1);
      if s[p].height <= i {
        d := FirstFrom(s, i, p + 1);
      }
    }
  }

  lemma {:induction false} LastAt(s: seq<Tower>, i: nat, p: nat)
    requires p <= |s| && forall q :: p <= q < |s| ==> s[q].height <= i
    requires p > 0 ==> s[p - 1].height > i
    ensures Last(s, i) == if p == 0 then HEADER else s[p - 1].at
  {
    if p < |s| {
      LastAt(s[..|s| - 1], i, p);
    }
  }

  // ---------------------------------------------------------------------------------------------
  // Which memories represent which towers

  /** One node: its links lead to the next node that is tall enough. */
  predicate NodeOk(h: Heap, a: Address, height: nat, rest: seq<Tower>) {
    a in h && |h[a].forward| == height && forall i :: 0 <= i < height ==> h[a].forward[i] == First(rest, i)
  }

  predicate TowerOk(t: Tower, max: nat) { t.at !in {NULL, HEADER} && 1 <= t.height <= max }

  predicate Distinct(s: seq<Tower>) { forall p, q :: 0 <= p < q < |s| ==> s[p].at != s[q].at }

  predicate Linked(h: Heap, s: seq<Tower>, p: nat)
    requires p < |s|
  {
    NodeOk(h, s[p].at, s[p].height, s[p + 1..]) && h[s[p].at].entry == s[p].entry
  }

  predicate Rep(h: Heap, s: seq<Tower>, max: nat) {
    && (forall p {:trigger TowerOk(s[p], max)} :: 0 <= p < |s| ==> TowerOk(s[p], max))
    && Distinct(s)
    && NodeOk(h, HEADER, max, s)
    && (forall p {:trigger Linked(h, s, p)} :: 0 <= p < |s| ==> Linked(h, s, p))
  }

  function Entries(s: seq<Tower>): (r: seq<Entry>)
    ensures |r| == |s| && forall p :: 0 <= p < |s| ==> r[p] == s[p].entry
  {
    if s == [] then [] else [s[0].entry] + Entries(s[1..])
  }

  predicate Highest(s: seq<Tower>, level: nat) { forall p :: 0 <= p < |s| ==> s[p].height <= level }

  /** The node at position p, counted from the header at 0. */
  function At(s: seq<Tower>, p: nat): Address
    requires p <= |s|
  {
    if p == 0 then HEADER else s[p - 1].at
  }

  // ---------------------------------------------------------------------------------------------
  // What the levels are

  /** The towers that reach level i. */
  function Tall(s: seq<Tower>, i: nat): seq<Tower> {
    if s == [] then [] else if s[0].height > i then [s[0]] + Tall(s[1..], i) else Tall(s[1..], i)
  }

  /** Following the links of level i from `from` visits exactly these nodes. */
  predicate Chain(h: Heap, from: Address, i: nat, nodes: seq<Tower>)
    decreases |nodes|
  {
    && from in h && i < |h[from].forward|
    && (if nodes == [] then h[from].forward[i] == NULL
        else h[from].forward[i] == nodes[0].at && nodes[0].at in h && h[nodes[0].at].entry == nodes[0].entry
             && Chain(h, nodes[0].at, i, nodes[1..]))
  }

  lemma {:induction false} ChainFrom(h: Heap, s: seq<Tower>, max: nat, i: nat, p: nat, a: Address)
    requires Rep(h, s, max) && i < max && p <= |s|
    requires a in h && i < |h[a].forward| && h[a].forward[i] == First(s[p..], i)
    ensures Chain(h, a, i, Tall(s[p..], i))
    decreases |s| - p
  {
    if p < |s| {
      assert s[p..][1..] == s[p + 1..];
      assert Linked(h, s, p);
      if s[p].height > i {
        ChainFrom(h, s, max, i, p + 1, s[p].at);
        assert Tall(s[p..], i)[1..] == Tall(s[p + 1..], i);
      } else {
        ChainFrom(h, s, max, i, p + 1, a);
      }
    }
  }

  lemma {:induction false} TallMembers(s: seq<Tower>, i: nat)
    ensures forall t :: t in Tall(s, i) <==> t in s && t.height > i
  {
    if s != [] {
      TallMembers(s[1..], i);
      assert s == [s[0]] + s[1..];
    }
  }

  lemma {:induction false} TallEntries(s: seq<Tower>, i: nat, key: int)
    requires NoneBelow(Entries(s), key)
    ensures NoneBelow(Entries(Tall(s, i)), key)
  {
    var r := Tall(s, i);
    TallMembers(s, i);
    forall p | 0 <= p < |r|
      ensures key <= Entries(r)[p].key
    {
      var j :| 0 <= j < |s| && s[j] == r[p];
      assert key <= Entries(s)[j].key;
    }
  }

  lemma {:induction false} TallSorted(s: seq<Tower>, i: nat)
    requires Sorted(Entries(s))
    ensures Sorted(Entries(Tall(s, i)))
  {
    if s != [] {
      SortedRest(Entries(s));
      assert Entries(s)[1..] == Entries(s[1..]);
      TallSorted(s[1..], i);
      if s[0].height > i {
        TallEntries(s[1..], i, s[0].entry.key);
        EntriesCons(s[0], Tall(s[1..], i));
        SortedInFront(s[0].entry, Entries(Tall(s[1..], i)));
      }
    }
  }

  lemma {:induction false} EntriesCons(t: Tower, s: seq<Tower>)
    ensures Entries([t] + s) == [t.entry] + Entries(s)
  {
    assert ([t] + s)[1..] == s;
  }

  /** Every level is sorted and holds exactly the nodes of the bottom level that are tall enough, in order. */
  lemma {:induction false} LevelIsSublist(h: Heap, s: seq<Tower>, max: nat, i: nat)
    requires Rep(h, s, max) && Sorted(Entries(s)) && i < max
    ensures Chain(h, HEADER, i, Tall(s, i)) && Sorted(Entries(Tall(s, i)))
    ensures Tall(s, 0) == s
  {
    ChainFrom(h, s, max, i, 0, HEADER);
    assert s[0..] == s;
    TallSorted(s, i);
    TallAll(s, max);
  }

  lemma {:induction false} TallAll(s: seq<Tower>, max: nat)
    requires forall p :: 0 <= p < |s| ==> TowerOk(s[p], max)
    ensures Tall(s, 0) == s
  {
    if s != [] {
      TallAll(s[1..], max);
    }
  }

  // ---------------------------------------------------------------------------------------------
  // Splicing

  /** The links of level j into the part after `front` leave from the last tall node of `front`. */
  lemma {:induction false} LinkOver(h: Heap, s: seq<Tower>, max: nat, k: nat, j: nat)
    requires Rep(h, s, max) && k <= |s| && j < max
    ensures var u := Last(s[..k], j);
      u in h && j < |h[u].forward| && h[u].forward[j] == First(s[k..], j)
  {
    var p := LastPosition(s[..k], j);
    LastAt(s[..k], j, p);
    assert s[p..] == s[p..k] + s[k..];
    assert forall q :: p <= q < k ==> TowerOk(s[q], max);
    var d := FirstAt(s[p..k], j);
    FirstConcat(s[p..k], s[k..], j);
    if p == 0 {
      assert s[0..] == s;
      assert NodeOk(h, HEADER, max, s);
    } else {
      assert Linked(h, s, p - 1);
    }
  }

  lemma {:induction false} LastPosition(s: seq<Tower>, j: nat) returns (p: nat)
    ensures p <= |s| && (forall q :: p <= q < |s| ==> s[q].height <= j) && (p > 0 ==> s[p - 1].height > j)
  {
    p := |s|;
    if s != [] && s[|s| - 1].height <= j {
      p := LastPosition(s[..|s| - 1], j);
    }
  }

  /** A node at position p of `front` is the last tall one exactly when no tall one follows. */
  lemma {:induction false} LastOrFirst(front: seq<Tower>, p: nat, j: nat)
    requires p <= |front| && Distinct(front) && (forall q :: 0 <= q < |front| ==> front[q].at !in {NULL, HEADER})
    requires p > 0 ==> front[p - 1].height > j
    ensures First(front[p..], j) == NULL <==> Last(front, j) == At(front, p)
  {
    var l := LastPosition(front, j);
    LastAt(front, j, l);
    var d := FirstFrom(front, j, p);
    if d < |front| {
      assert l > d;
      assert p > 0 ==> front[l - 1].at != front[p - 1].at;
    } else {
      assert l == p || p == 0;
    }
  }

  /** Every link out of `front` that crossed into the rest now leads into the new rest. */
  predicate Redirected(h: Heap, h': Heap, x: Address, front: seq<Tower>, rest': seq<Tower>) {
    && x in h && x in h' && |h'[x].forward| == |h[x].forward| && h'[x].entry == h[x].entry
    && forall j :: 0 <= j < |h[x].forward| ==>
         h'[x].forward[j] == if Last(front, j) == x then First(rest', j) else h[x].forward[j]
  }

  lemma {:induction false} RedirectedNode(h: Heap, h': Heap, p: nat, height: nat, front: seq<Tower>,
        rest: seq<Tower>, rest': seq<Tower>)
    requires p <= |front| && Distinct(front) && forall q :: 0 <= q < |front| ==> front[q].at !in {NULL, HEADER}
    requires p > 0 ==> front[p - 1].height == height
    requires NodeOk(h, At(front, p), height, front[p..] + rest)
    requires Redirected(h, h', At(front, p), front, rest')
    ensures NodeOk(h', At(front, p), height, front[p..] + rest')
  {
    var x := At(front, p);
    forall j | 0 <= j < height ensures h'[x].forward[j] == First(front[p..] + rest', j) {
      LastOrFirst(front, p, j);
      FirstConcat(front[p..], rest, j);
      FirstConcat(front[p..], rest', j);
    }
  }

  lemma {:induction false} Spliced(h: Heap, h': Heap, max: nat, front: seq<Tower>, rest: seq<Tower>, rest': seq<Tower>)
    requires Rep(h, front + rest, max)
    requires Redirected(h, h', HEADER, front, rest')
    requires forall p :: 0 <= p < |front| ==> Redirected(h, h', front[p].at, front, rest')
    requires forall p :: 0 <= p < |rest'| ==> TowerOk(rest'[p], max)
    requires forall p :: 0 <= p < |rest'| ==> Linked(h', rest', p)
    requires Distinct(front + rest')
    ensures Rep(h', front + rest', max)
  {
    var s, s' := front + rest, front + rest';
    TowersInFront(front, rest, max);
    assert front[0..] == front;
    RedirectedNode(h, h', 0, max, front, rest, rest');
    forall p | 0 <= p < |s'|
      ensures TowerOk(s'[p], max) && Linked(h', s', p)
    {
      if p < |front| {
        assert TowerOk(s[p], max) && Linked(h, s, p) && s[p] == s'[p];
        SplicedFront(h, h', front, rest, rest', p);
      } else {
        assert TowerOk(rest'[p - |front|], max) && Linked(h', rest', p - |front|);
        SplicedBack(h', front, rest', p);
      }
    }
  }

  lemma {:induction false} SplicedFront(h: Heap, h': Heap, front: seq<Tower>, rest: seq<Tower>, rest': seq<Tower>,
                                        p: nat)
    requires p < |front| && Linked(h, front + rest, p) && Redirected(h, h', front[p].at, front, rest')
    requires Distinct(front) && forall q :: 0 <= q < |front| ==> front[q].at !in {NULL, HEADER}
    ensures Linked(h', front + rest', p)
  {
    DropConcat(front, rest, p + 1);
    DropConcat(front, rest', p + 1);
    RedirectedNode(h, h', p + 1, front[p].height, front, rest, rest');
  }

  lemma {:induction false} SplicedBack(h': Heap, front: seq<Tower>, rest': seq<Tower>, p: nat)
    requires |front| <= p < |front + rest'| && Linked(h', rest', p - |front|)
    ensures (front + rest')[p] == rest'[p - |front|] && Linked(h', front + rest', p)
  {
    DropConcat(front, rest', p + 1);
  }

  lemma {:induction false} TowersInFront(front: seq<Tower>, rest: seq<Tower>, max: nat)
    requires forall p :: 0 <= p < |front + rest| ==> TowerOk((front + rest)[p], max)
    requires Distinct(front + rest)
    ensures Distinct(front) && forall p :: 0 <= p < |front| ==> front[p].at !in {NULL, HEADER}
  {
    var s := front + rest;
    forall p | 0 <= p < |front|
      ensures front[p].at !in {NULL, HEADER}
    {
      assert s[p] == front[p] && TowerOk(s[p], max);
    }
    forall p, q | 0 <= p < q < |front|
      ensures front[p].at != front[q].at
    {
      assert s[p] == front[p] && s[q] == front[q];
    }
  }

  // ---------------------------------------------------------------------------------------------
  // Linking a node in and out

  /** From level i up, `updates` holds the last tall nodes before position k. */
  predicate PathFrom(s: seq<Tower>, k: nat, updates: seq<Address>, i: nat, max: nat) {
    k <= |s| && |updates| == max && forall j :: i <= j < max ==> updates[j] == Last(s[..k], j)
  }

  lemma {:induction false} PathStarts(s: seq<Tower>, k: nat, updates: seq<Address>, level: nat, max: nat)
    requires k <= |s| && Highest(s, level) && updates == Repeat(HEADER, max)
    ensures PathFrom(s, k, updates, level, max)
  {
    forall j | level <= j < max ensures updates[j] == Last(s[..k], j) {
      LastAt(s[..k], j, 0);
    }
  }

  lemma {:induction false} PathStep(s: seq<Tower>, k: nat, updates: seq<Address>, i: nat, max: nat, p: nat)
    requires PathFrom(s, k, updates, i + 1, max) && i < max && Low(s, p, k, i)
    ensures PathFrom(s, k, updates[i := At(s, p)], i, max)
  {
    LowLast(s, p, k, i);
  }

  lemma {:induction false} EntriesConcat(a: seq<Tower>, b: seq<Tower>)
    ensures Entries(a + b) == Entries(a) + Entries(b)
  {
  }

  lemma {:induction false} EntriesParts(s: seq<Tower>, k: nat)
    requires k <= |s|
    ensures Entries(s[..k]) == Entries(s)[..k] && Entries(s[k..]) == Entries(s)[k..]
  {
  }

  /** Levels 0 to i - 1 of the nodes in `updates` lead to `target(j)` now; nothing else changed. */
  predicate Rewired(h0: Heap, h: Heap, updates: seq<Address>, targets: seq<Address>, i: nat) {
    && i <= |targets| && i <= |updates|
    && forall a :: a in h0 ==>
         && a in h && |h[a].forward| == |h0[a].forward| && h[a].entry == h0[a].entry
         && forall j :: 0 <= j < |h0[a].forward| ==>
              h[a].forward[j] == if j < i && updates[j] == a then targets[j] else h0[a].forward[j]
  }

  /** Rewiring all levels of a tower redirects exactly the links that crossed its place. */
  lemma {:induction false} RewiredIsRedirected(h0: Heap, h: Heap, s: seq<Tower>, max: nat, k: nat, rest': seq<Tower>,
                            updates: seq<Address>, targets: seq<Address>, height: nat, p: nat)
    requires Rep(h0, s, max) && k <= |s| && p <= k && height <= max
    requires PathFrom(s, k, updates, 0, max)
    requires Rewired(h0, h, updates, targets, height)
    requires forall j :: 0 <= j < height ==> targets[j] == First(rest', j)
    requires forall j :: height <= j < max ==> First(s[k..], j) == First(rest', j)
    ensures Redirected(h0, h, At(s, p), s[..k], rest')
  {
    var x := At(s, p);
    if p > 0 {
      assert Linked(h0, s, p - 1) && TowerOk(s[p - 1], max);
    }
    forall j | 0 <= j < |h0[x].forward|
      ensures h[x].forward[j] == if Last(s[..k], j) == x then First(rest', j) else h0[x].forward[j]
    {
      LinkOver(h0, s, max, k, j);
    }
  }

  lemma {:induction false} LastInside(s: seq<Tower>, j: nat)
    ensures Last(s, j) == HEADER || exists q :: 0 <= q < |s| && s[q].at == Last(s, j)
  {
    var p := LastPosition(s, j);
    LastAt(s, j, p);
  }

  /** The nodes behind the place are not among the rewired ones. */
  lemma {:induction false} BackUntouched(h0: Heap, h: Heap, s: seq<Tower>, max: nat, k: nat, updates: seq<Address>,
        targets: seq<Address>, i: nat, p: nat)
    requires Rep(h0, s, max) && k <= p < |s| && PathFrom(s, k, updates, 0, max)
    requires Rewired(h0, h, updates, targets, i)
    ensures s[p].at in h && Linked(h, s, p)
  {
    assert Linked(h0, s, p) && TowerOk(s[p], max);
    forall j | 0 <= j < s[p].height ensures h[s[p].at].forward[j] == h0[s[p].at].forward[j] {
      LastInside(s[..k], j);
    }
  }

  lemma {:induction false} FrontRedirected(h0: Heap, h: Heap, s: seq<Tower>, max: nat, k: nat, rest': seq<Tower>,
                        updates: seq<Address>, targets: seq<Address>, height: nat)
    requires Rep(h0, s, max) && k <= |s| && height <= max
    requires PathFrom(s, k, updates, 0, max)
    requires Rewired(h0, h, updates, targets, height)
    requires forall j :: 0 <= j < height ==> targets[j] == First(rest', j)
    requires forall j :: height <= j < max ==> First(s[k..], j) == First(rest', j)
    ensures Redirected(h0, h, HEADER, s[..k], rest')
    ensures forall p :: 0 <= p < |s[..k]| ==> Redirected(h0, h, s[..k][p].at, s[..k], rest')
  {
    RewiredIsRedirected(h0, h, s, max, k, rest', updates, targets, height, 0);
    forall p | 0 <= p < k ensures Redirected(h0, h, s[..k][p].at, s[..k], rest') {
      RewiredIsRedirected(h0, h, s, max, k, rest', updates, targets, height, p + 1);
    }
  }

  lemma {:induction false} InsertedDistinct(h0: Heap, s: seq<Tower>, max: nat, k: nat, t: Tower)
    requires Rep(h0, s, max) && k <= |s| && t.at !in h0
    ensures Distinct(s[..k] + ([t] + s[k..]))
  {
    forall q | 0 <= q < |s| ensures s[q].at in h0 {
      assert Linked(h0, s, q);
    }
  }

  /** The memory after the loop of insert represents the towers with the new one in its place. */
  lemma {:induction false} InsertedRep(h0: Heap, h: Heap, s: seq<Tower>, max: nat, k: nat, updates: seq<Address>,
        t: Tower)
    requires Rep(h0, s, max) && k <= |s| && TowerOk(t, max) && t.at !in h0
    requires PathFrom(s, k, updates, 0, max)
    requires Rewired(h0, h, updates, Repeat(t.at, t.height), t.height)
    requires NodeOk(h, t.at, t.height, s[k..]) && h[t.at].entry == t.entry
    ensures Rep(h, s[..k] + ([t] + s[k..]), max)
  {
    var rest', targets := [t] + s[k..], Repeat(t.at, t.height);
    assert s == s[..k] + s[k..];
    assert rest'[1..] == s[k..];
    FrontRedirected(h0, h, s, max, k, rest', updates, targets, t.height);
    InsertedRest(h0, h, s, max, k, updates, t);
    InsertedDistinct(h0, s, max, k, t);
    Spliced(h0, h, max, s[..k], s[k..], rest');
  }

  lemma {:induction false} InsertedRest(h0: Heap, h: Heap, s: seq<Tower>, max: nat, k: nat, updates: seq<Address>,
                                        t: Tower)
    requires Rep(h0, s, max) && k <= |s| && TowerOk(t, max) && PathFrom(s, k, updates, 0, max)
    requires Rewired(h0, h, updates, Repeat(t.at, t.height), t.height)
    requires NodeOk(h, t.at, t.height, s[k..]) && h[t.at].entry == t.entry
    ensures var rest' := [t] + s[k..];
      forall p :: 0 <= p < |rest'| ==> TowerOk(rest'[p], max) && Linked(h, rest', p)
  {
    var rest' := [t] + s[k..];
    forall p | 0 <= p < |rest'|
      ensures TowerOk(rest'[p], max) && Linked(h, rest', p)
    {
      DropConcat([t], s[k..], p + 1);
      if p > 0 {
        BackUntouched(h0, h, s, max, k, updates, Repeat(t.at, t.height), t.height, k + p - 1);
        assert TowerOk(s[k + p - 1], max);
        DropAt(s, k, p - 1);
        DropDrop(s, k, p);
      }
    }
  }

  /** Freeing a node that nothing in the towers refers to. */
  lemma {:induction false} FreedRep(h: Heap, s: seq<Tower>, max: nat, a: Address)
    requires Rep(h, s, max) && a != HEADER && forall p :: 0 <= p < |s| ==> s[p].at != a
    ensures Rep(h - {a}, s, max)
  {
    forall p | 0 <= p < |s| ensures Linked(h - {a}, s, p) {
      assert Linked(h, s, p);
    }
  }

  /** The memory after the loop of remove represents the towers without the one at position k. */
  lemma {:induction false} RemovedRep(h0: Heap, h: Heap, s: seq<Tower>, max: nat, k: nat, updates: seq<Address>)
    requires Rep(h0, s, max) && k < |s| && s[k].at in h0
    requires PathFrom(s, k, updates, 0, max)
    requires Rewired(h0, h, updates, h0[s[k].at].forward, s[k].height)
    ensures Rep(h - {s[k].at}, s[..k] + s[k + 1..], max)
  {
    var rest', targets := s[k + 1..], h0[s[k].at].forward;
    assert s == s[..k] + s[k..] && s[k..][1..] == rest';
    assert Linked(h0, s, k) && TowerOk(s[k], max);
    FrontRedirected(h0, h, s, max, k, rest', updates, targets, s[k].height);
    forall p | 0 <= p < |rest'| ensures TowerOk(rest'[p], max) && Linked(h, rest', p) {
      BackUntouched(h0, h, s, max, k, updates, targets, s[k].height, k + 1 + p);
      assert TowerOk(s[k + 1 + p], max);
      assert rest'[p + 1..] == s[k + 1 + p + 1..];
    }
    assert Distinct(s[..k] + rest');
    Spliced(h0, h, max, s[..k], s[k..], rest');
    FreedRep(h, s[..k] + rest', max, s[k].at);
  }

  lemma {:induction false} RewireStep(h0: Heap, h: Heap, h': Heap, updates: seq<Address>, targets: seq<Address>, i: nat)
    requires Rewired(h0, h, updates, targets, i) && i < |targets| && i < |updates|
    requires updates[i] in h0 && updates[i] in h && i < |h[updates[i]].forward|
    requires h' == h[updates[i] := h[updates[i]].(forward := h[updates[i]].forward[i := targets[i]])]
    ensures Rewired(h0, h', updates, targets, i + 1)
  {
  }

  lemma {:induction false} LinkNotYet(h0: Heap, h: Heap, updates: seq<Address>, targets: seq<Address>, i: nat)
    requires Rewired(h0, h, updates, targets, i) && i < |updates|
    requires updates[i] in h0 && i < |h0[updates[i]].forward|
    ensures updates[i] in h && |h[updates[i]].forward| == |h0[updates[i]].forward|
    ensures h[updates[i]].forward[i] == h0[updates[i]].forward[i]
  {
  }

  /** One round of insert's loop: the new node z takes over the link of level i and is linked to itself. */
  lemma {:induction false} LinkInStep(h0: Heap, h: Heap, updates: seq<Address>, z: Address, level: nat, i: nat)
    requires Rewired(h0, h, updates, Repeat(z, level), i) && i < level && i < |updates|
    requires z !in h0 && z in h && |h[z].forward| == level
    requires updates[i] in h0 && i < |h0[updates[i]].forward|
    ensures var u := updates[i]; var f := h[z].forward;
      && u in h && i < |h[u].forward| && h[u].forward[i] == h0[u].forward[i]
      && var h1 := h[z := h[z].(forward := f[i := h0[u].forward[i]])];
         u in h1 && i < |h1[u].forward|
         && var h2 := h1[u := h1[u].(forward := h1[u].forward[i := z])];
            Rewired(h0, h2, updates, Repeat(z, level), i + 1) && h2[z] == h1[z]
  {
    LinkNotYet(h0, h, updates, Repeat(z, level), i);
    var h1 := h[z := h[z].(forward := h[z].forward[i := h0[updates[i]].forward[i]])];
    RewiredElsewhere(h0, h, updates, Repeat(z, level), i, z, h1);
    var u := updates[i];
    RewireStep(h0, h1, h1[u := h1[u].(forward := h1[u].forward[i := z])], updates, Repeat(z, level), i);
  }

  lemma {:induction false} RewiredElsewhere(h0: Heap, h: Heap, updates: seq<Address>, targets: seq<Address>, i: nat,
                                            z: Address, h1: Heap)
    requires Rewired(h0, h, updates, targets, i) && z !in h0
    requires z in h1 && h1 == h[z := h1[z]]
    ensures Rewired(h0, h1, updates, targets, i)
  {
  }

  /** The node being removed keeps its own links. */
  lemma {:induction false} CurUntouched(h0: Heap, h: Heap, s: seq<Tower>, max: nat, k: nat, updates: seq<Address>,
        i: nat)
    requires Rep(h0, s, max) && k < |s| && s[k].at in h0 && PathFrom(s, k, updates, 0, max)
    requires Rewired(h0, h, updates, h0[s[k].at].forward, i)
    ensures s[k].at in h && h[s[k].at] == h0[s[k].at]
  {
    assert Linked(h0, s, k) && TowerOk(s[k], max);
    forall j | 0 <= j < s[k].height ensures h[s[k].at].forward[j] == h0[s[k].at].forward[j] {
      LastInside(s[..k], j);
    }
  }

  /** The level-i link over position k leads to the node at k exactly when that node is tall enough. */
  lemma {:induction false} FirstHere(s: seq<Tower>, k: nat, i: nat)
    requires k < |s| && Distinct(s) && s[k].at != NULL
    ensures First(s[k..], i) == s[k].at <==> s[k].height > i
  {
    var d := FirstFrom(s, i, k);
  }

  lemma {:induction false} InsertedEntries(s: seq<Tower>, k: nat, t: Tower)
    requires Sorted(Entries(s)) && k == Place(Entries(s), t.entry.key)
    ensures Entries(s[..k] + ([t] + s[k..])) == Inserted(Entries(s), t.entry)
    ensures Sorted(Inserted(Entries(s), t.entry))
  {
    InsertedIsSorted(Entries(s), t.entry);
    EntriesConcat(s[..k], [t] + s[k..]);
    EntriesConcat([t], s[k..]);
    EntriesParts(s, k);
    Associate(Entries(s)[..k], [t.entry], Entries(s)[k..]);
    assert Entries([t]) == [t.entry];
  }

  lemma {:induction false} HighestInserted(s: seq<Tower>, level: nat, k: nat, t: Tower, level': nat)
    requires Highest(s, level) && k <= |s| && t.height <= level' && level <= level'
    ensures Highest(s[..k] + ([t] + s[k..]), level')
  {
  }

  lemma {:induction false} RemovedEntries(s: seq<Tower>, k: nat, key: int)
    requires Sorted(Entries(s)) && k < |s| && s[k].entry.key == key
    ensures Entries(s[..k] + s[k + 1..]) == Entries(s)[..k] + Entries(s)[k + 1..]
    ensures Sorted(Entries(s[..k] + s[k + 1..])) && OneRemoved(Entries(s), Entries(s[..k] + s[k + 1..]), key)
  {
    EntriesConcat(s[..k], s[k + 1..]);
    EntriesParts(s, k);
    EntriesParts(s, k + 1);
    OneRemovedIsSorted(Entries(s), Entries(s)[..k] + Entries(s)[k + 1..], key);
  }

  lemma {:induction false} HighestRemoved(s: seq<Tower>, level: nat, k: nat)
    requires Highest(s, level) && k < |s|
    ensures Highest(s[..k] + s[k + 1..], level)
  {
    var s' := s[..k] + s[k + 1..];
    assert forall p :: 0 <= p < |s'| ==> s'[p] == s[if p < k then p else p + 1];
  }

  lemma {:induction false} FirstTall(s: seq<Tower>, i: nat)
    requires forall p :: 0 <= p < |s| ==> s[p].at != NULL
    ensures First(s, i) == NULL <==> Tall(s, i) == []
  {
    if s != [] {
      FirstTall(s[1..], i);
    }
  }

  /** What remove makes of the current level. */
  function LevelLeft(s: seq<Tower>, level: nat): nat {
    if level > 1 && Tall(s, level - 1) == [] then level - 1 else level
  }

  /** No tower reaches the top level once its list is empty. */
  lemma {:induction false} TopEmpty(s: seq<Tower>, level: nat)
    requires Highest(s, level) && level > 0 && First(s, level - 1) == NULL
    requires forall p :: 0 <= p < |s| ==> s[p].at != NULL
    ensures Highest(s, level - 1)
  {
    var p := FirstAt(s, level - 1);
  }

  // ---------------------------------------------------------------------------------------------
  // Searching

  /** The first k towers are those with a smaller key. */
  predicate Divides(s: seq<Tower>, key: int, k: nat) {
    k <= |s| && forall q :: 0 <= q < |s| ==> (q < k <==> s[q].entry.key < key)
  }

  lemma {:induction false} PlaceDivides(s: seq<Tower>, key: int)
    requires Sorted(Entries(s))
    ensures Divides(s, key, Place(Entries(s), key))
  {
    var r, k := Entries(s), Place(Entries(s), key);
    forall q | 0 <= q < |s| ensures q < k <==> s[q].entry.key < key {
      if k < q {
        assert r[k].key <= r[q].key;
      }
    }
  }

  predicate NoneAbove(s: seq<Tower>, key: int, level: nat) {
    forall q :: 0 <= q < |s| && s[q].entry.key == key ==> s[q].height <= level
  }

  /** Among the entries of that key, the first one of those that reach highest. */
  predicate TopOfKey(s: seq<Tower>, key: int, p: nat) {
    && p < |s| && s[p].entry.key == key
    && forall q :: 0 <= q < |s| && s[q].entry.key == key ==>
         s[q].height <= s[p].height && (s[q].height == s[p].height ==> p <= q)
  }

  /** The node before position p reaches above level i, the ones from p to k do not. */
  predicate Low(s: seq<Tower>, p: nat, k: nat, i: nat) {
    p <= k <= |s| && (p > 0 ==> s[p - 1].height > i) && forall q :: p <= q < k ==> s[q].height <= i
  }

  lemma {:induction false} AllTall(h: Heap, s: seq<Tower>, max: nat)
    requires Rep(h, s, max)
    ensures forall q :: 0 <= q < |s| ==> s[q].height > 0
  {
    forall q | 0 <= q < |s| ensures s[q].height > 0 {
      assert TowerOk(s[q], max);
    }
  }

  lemma {:induction false} TallAt(h: Heap, s: seq<Tower>, max: nat, q: nat)
    requires Rep(h, s, max) && q < |s|
    ensures s[q].height > 0
  {
    AllTall(h, s, max);
  }

  lemma {:induction false} LowBottom(h: Heap, s: seq<Tower>, max: nat, p: nat, k: nat)
    requires Rep(h, s, max) && Low(s, p, k, 0)
    ensures p == k
  {
    if p < k {
      TallAt(h, s, max, p);
    }
  }

  lemma {:induction false} NoNull(h: Heap, s: seq<Tower>, max: nat)
    requires Rep(h, s, max)
    ensures forall q :: 0 <= q < |s| ==> s[q].at != NULL
  {
    forall q | 0 <= q < |s| ensures s[q].at != NULL {
      assert TowerOk(s[q], max);
    }
  }

  lemma {:induction false} LowLast(s: seq<Tower>, p: nat, k: nat, i: nat)
    requires Low(s, p, k, i)
    ensures Last(s[..k], i) == At(s, p)
  {
    LastAt(s[..k], i, p);
  }

  /** The link of level i from position p leads to position d, or to the end. */
  predicate StepTo(h: Heap, s: seq<Tower>, i: nat, p: nat, d: nat) {
    && p <= d <= |s| && Low(s, p, d, i)
    && At(s, p) in h && i < |h[At(s, p)].forward|
    && var next := h[At(s, p)].forward[i];
       if d == |s| then next == NULL
       else next != NULL && next == s[d].at && s[d].height > i && next in h && h[next].entry == s[d].entry
  }

  /** The link of level i leaves position p for the first tall node behind it. */
  lemma {:induction false} LinkFrom(h: Heap, s: seq<Tower>, max: nat, i: nat, p: nat)
    requires Rep(h, s, max) && i < max && Low(s, p, p, i)
    ensures At(s, p) in h && i < |h[At(s, p)].forward| && h[At(s, p)].forward[i] == First(s[p..], i)
  {
    if p > 0 {
      assert Linked(h, s, p - 1);
    } else {
      assert s[0..] == s;
    }
  }

  lemma {:induction false} Step(h: Heap, s: seq<Tower>, max: nat, i: nat, p: nat) returns (d: nat)
    requires Rep(h, s, max) && i < max && Low(s, p, p, i)
    ensures StepTo(h, s, i, p, d)
  {
    LinkFrom(h, s, max, i, p);
    d := FirstFrom(s, i, p);
    if d < |s| {
      assert TowerOk(s[d], max) && Linked(h, s, d);
    }
  }

  /** On the bottom level every node is linked. */
  lemma {:induction false} BottomStep(h: Heap, s: seq<Tower>, max: nat, p: nat)
    requires Rep(h, s, max) && max > 0 && p <= |s|
    ensures StepTo(h, s, 0, p, p)
  {
    AllTall(h, s, max);
    var d := Step(h, s, max, 0, p);
    assert p == |s| || s[p].height > 0;
  }

  /** The step at the end of a level that leads to a node with the key, or shows that the level has none. */
  lemma {:induction false} LevelOutcome(h: Heap, s: seq<Tower>, key: int, k: nat, i: nat, p: nat, d: nat)
    requires Sorted(Entries(s)) && Divides(s, key, k) && Low(s, p, k, i) && StepTo(h, s, i, p, d)
      && NoneAbove(s, key, i + 1)
    ensures if d < |s| && s[d].entry.key == key then TopOfKey(s, key, d) else NoneAbove(s, key, i)
  {
    if d < |s| && s[d].entry.key != key {
      forall q | d <= q < |s|
        ensures s[q].entry.key != key
      {
        assert Entries(s)[d].key <= Entries(s)[q].key;
      }
    }
  }

  // ---------------------------------------------------------------------------------------------
  // The list object

  class SkipListMap {
    const maxLevel: nat
    var heap: Heap
    var curLevel: nat
    ghost var towers: seq<Tower>

    ghost predicate Valid()
      reads this
    {
      && Rep(heap, towers, maxLevel) && Sorted(Entries(towers))
      && Highest(towers, curLevel) && curLevel <= maxLevel && maxLevel > 0
    }

    /** The header's entry is never looked at. */
    constructor (maxLevel: nat, dummy: Entry)
      requires maxLevel > 0
      ensures Valid() && towers == [] && curLevel == 0 && this.maxLevel == maxLevel
    {
      this.maxLevel := maxLevel;
      heap := map[HEADER := Node(Repeat(NULL, maxLevel), dummy)];
      curLevel := 0;
      towers := [];
    }

    /** The inner loop of every search: along level i as long as the next key is smaller. */
    method Advance(from: Address, i: nat, key: int, ghost p: nat, ghost k: nat) returns (cur: Address, ghost p': nat)
      requires Rep(heap, towers, maxLevel) && i < maxLevel && Divides(towers, key, k)
      requires p <= k && from == At(towers, p) && Low(towers, p, p, i)
      ensures p <= p' <= k && cur == At(towers, p') && Low(towers, p', k, i)
    {
      cur, p' := from, p;
      ghost var d: nat := Step(heap, towers, maxLevel, i, p');
      while heap[cur].forward[i] != NULL && heap[heap[cur].forward[i]].entry.key < key
        invariant p <= p' <= k && cur == At(towers, p') && StepTo(heap, towers, i, p', d)
        decreases |towers| - p'
      {
        cur := heap[cur].forward[i];
        p' := d + 1;
        d := Step(heap, towers, maxLevel, i, p');
      }
    }

    /** The descent shared by insert and remove: on every level, the last node with a smaller key. */
    method Search(key: int) returns (updates: seq<Address>, cur: Address)
      requires Valid()
      ensures var k := Place(Entries(towers), key); cur == At(towers, k) && PathFrom(towers, k, updates, 0, maxLevel)
    {
      ghost var k := Place(Entries(towers), key);
      PlaceDivides(towers, key);
      updates := Repeat(HEADER, maxLevel);
      cur := HEADER;
      ghost var p := 0;
      var i: nat := curLevel;
      PathStarts(towers, k, updates, curLevel, maxLevel);
      while i > 0
        invariant i <= curLevel && p <= k && cur == At(towers, p) && Low(towers, p, k, i)
        invariant PathFrom(towers, k, updates, i, maxLevel)
      {
        i := i - 1;
        cur, p := Advance(cur, i, key, p, k);
        PathStep(towers, k, updates, i, maxLevel, p);
        updates := updates[i := cur];
      }
      LowBottom(heap, towers, maxLevel, p, k);
    }

    /** The pointer loop of insert: the new node z goes between each updates[i] and its successor. */
    method LinkIn(z: Address, level: nat, updates: seq<Address>, ghost h0: Heap, ghost k: nat, ghost entry: Entry)
      requires Rep(h0, towers, maxLevel) && level <= maxLevel && k <= |towers|
      requires z !in h0 && heap == h0[z := Node(Repeat(NULL, level), entry)]
      requires PathFrom(towers, k, updates, 0, maxLevel)
      modifies `heap
      ensures Rewired(h0, heap, updates, Repeat(z, level), level)
      ensures NodeOk(heap, z, level, towers[k..]) && heap[z].entry == entry
    {
      var i := 0;
      while i < level
        invariant i <= level && Rewired(h0, heap, updates, Repeat(z, level), i)
        invariant z in heap && |heap[z].forward| == level && heap[z].entry == entry
        invariant forall j :: 0 <= j < i ==> heap[z].forward[j] == First(towers[k..], j)
      {
        LinkOver(h0, towers, maxLevel, k, i);
        var u := updates[i];
        LinkInStep(h0, heap, updates, z, level, i);
        heap := heap[z := heap[z].(forward := heap[z].forward[i := heap[u].forward[i]])];
        heap := heap[u := heap[u].(forward := heap[u].forward[i := z])];
        i := i + 1;
      }
    }

    /** insert(key, val): `level` is the outcome of randomLevel, z the address the allocator hands out. */
    method Insert(key: int, val: Value, level: nat, z: Address)
      requires Valid() && 1 <= level <= maxLevel && z !in heap && z != NULL
      modifies this
      ensures Valid() && Entries(towers) == Inserted(old(Entries(towers)), Entry(key, val))
      ensures var k := Place(old(Entries(towers)), key);
        towers == old(towers[..k]) + ([Tower(z, level, Entry(key, val))] + old(towers[k..]))
      ensures curLevel == if old(curLevel) > level then old(curLevel) else level
    {
      ghost var k := Place(Entries(towers), key);
      ghost var t := Tower(z, level, Entry(key, val));
      var updates, cur := Search(key);
      heap := heap[z := Node(Repeat(NULL, level), Entry(key, val))];
      LinkIn(z, level, updates, old(heap), k, Entry(key, val));
      curLevel := if curLevel > level then curLevel else level;
      towers := towers[..k] + ([t] + towers[k..]);
      InsertedRep(old(heap), heap, old(towers), maxLevel, k, updates, t);
      HighestInserted(old(towers), old(curLevel), k, t, curLevel);
      InsertedEntries(old(towers), k, t);
    }

    /** The pointer loop of remove: on every level the link over the removed node. */
    method LinkOut(cur: Address, updates: seq<Address>, ghost k: nat)
      requires Valid() && k < |towers| && cur == towers[k].at && cur in heap
      requires PathFrom(towers, k, updates, 0, maxLevel)
      modifies `heap
      ensures Rewired(old(heap), heap, updates, old(heap[cur].forward), towers[k].height)
    {
      ghost var h0 := heap;
      assert Linked(heap, towers, k) && TowerOk(towers[k], maxLevel);
      ghost var height := towers[k].height;
      var i := 0;
      while i < curLevel
        invariant i <= height <= curLevel && Rewired(h0, heap, updates, h0[cur].forward, i)
        decreases curLevel - i
      {
        LinkOver(h0, towers, maxLevel, k, i);
        LinkNotYet(h0, heap, updates, h0[cur].forward, i);
        CurUntouched(h0, heap, towers, maxLevel, k, updates, i);
        FirstHere(towers, k, i);
        var u := updates[i];
        if heap[u].forward[i] != cur {
          break;
        }
        ghost var h := heap;
        heap := heap[u := heap[u].(forward := heap[u].forward[i := heap[cur].forward[i]])];
        RewireStep(h0, h, heap, updates, h0[cur].forward, i);
        i := i + 1;
      }
    }

    /** The part of remove that runs once the node is found. */
    method DeleteTower(cur: Address, updates: seq<Address>, ghost k: nat)
      requires Valid() && k < |towers| && cur == towers[k].at && cur in heap
      requires PathFrom(towers, k, updates, 0, maxLevel)
      modifies this
      ensures Valid() && towers == old(towers[..k]) + old(towers[k + 1..]) && cur !in heap
      ensures curLevel == LevelLeft(towers, old(curLevel))
    {
      ghost var s, h0 := towers, heap;
      LinkOut(cur, updates, k);
      RemovedRep(h0, heap, s, maxLevel, k, updates);
      RemovedEntries(s, k, s[k].entry.key);
      HighestRemoved(s, curLevel, k);
      heap := heap - {cur};
      towers := s[..k] + s[k + 1..];
      Shrink();
    }

    method Remove(key: int)
      requires Valid()
      modifies this
      ensures Valid()
      ensures var s, k := old(towers), Place(old(Entries(towers)), key);
        if k < |s| && s[k].entry.key == key then
          && towers == s[..k] + s[k + 1..] && OneRemoved(old(Entries(towers)), Entries(towers), key)
          && s[k].at !in heap && curLevel == LevelLeft(towers, old(curLevel))
        else towers == s && heap == old(heap) && curLevel == old(curLevel)
    {
      ghost var k := Place(Entries(towers), key);
      var updates, cur := Search(key);
      BottomStep(heap, towers, maxLevel, k);
      PlaceDivides(towers, key);
      if heap[cur].forward[0] == NULL || heap[heap[cur].forward[0]].entry.key > key {
        return;
      }
      RemovedEntries(towers, k, key);
      DeleteTower(heap[cur].forward[0], updates, k);
    }

    /** The end of remove: the top level is given up when its list has become empty. */
    method Shrink()
      requires Valid()
      modifies `curLevel
      ensures Valid()
      ensures curLevel == LevelLeft(towers, old(curLevel))
    {
      NoNull(heap, towers, maxLevel);
      if curLevel > 1 {
        FirstTall(towers, curLevel - 1);
        if heap[HEADER].forward[curLevel - 1] == NULL {
          TopEmpty(towers, curLevel);
          curLevel := curLevel - 1;
        }
      }
    }

    /**
     The descent shared by find and isExist.  They look at the first node without checking that there is one, so
     they need a non-empty list, unless nothing was ever inserted.
     */
    method Lookup(key: int) returns (found: Address, ghost at: nat)
      requires Valid() && (curLevel == 0 || towers != [])
      ensures found == NULL ==> NoneAbove(towers, key, 0)
      ensures found != NULL ==> TopOfKey(towers, key, at) && found in heap && heap[found].entry == towers[at].entry
    {
      found, at := NULL, 0;
      if curLevel == 0 { return; }
      ghost var k := Place(Entries(towers), key);
      PlaceDivides(towers, key);
      ghost var d: nat := 0;
      BottomStep(heap, towers, maxLevel, 0);
      if heap[heap[HEADER].forward[0]].entry.key > key {
        LevelOutcome(heap, towers, key, k, 0, 0, d);
        return;
      }
      var cur := HEADER;
      ghost var p := 0;
      var i: nat := curLevel;
      while i > 0
        invariant i <= curLevel && p <= k && cur == At(towers, p) && Low(towers, p, k, i) && NoneAbove(towers, key, i)
      {
        i := i - 1;
        cur, p := Advance(cur, i, key, p, k);
        d := Step(heap, towers, maxLevel, i, p);
        LevelOutcome(heap, towers, key, k, i, p, d);
        if heap[cur].forward[i] != NULL && heap[heap[cur].forward[i]].entry.key == key {
          return heap[cur].forward[i], d;
        }
      }
    }

    /** The exception for an absent key is None. */
    method Find(key: int) returns (r: Option<Value>)
      requires Valid() && (curLevel == 0 || towers != [])
      ensures r.None? <==> forall e :: e in Entries(towers) ==> e.key != key
      ensures r.Some? ==> exists p: nat :: TopOfKey(towers, key, p) && towers[p].entry == Entry(key, r.value)
    {
      var found;
      ghost var at;
      found, at := Lookup(key);
      AllTall(heap, towers, maxLevel);
      r := if found == NULL then None else Some(heap[found].entry.val);
      if found != NULL {
        assert Entries(towers)[at].key == key;
      }
    }

    method IsExist(key: int) returns (r: bool)
      requires Valid() && (curLevel == 0 || towers != [])
      ensures r <==> exists e :: e in Entries(towers) && e.key == key
    {
      var found;
      ghost var at;
      found, at := Lookup(key);
      AllTall(heap, towers, maxLevel);
      r := found != NULL;
      if r {
        assert Entries(towers)[at].key == key;
      }
    }
  }
}
