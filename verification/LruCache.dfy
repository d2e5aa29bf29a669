/**
 The LRU cache (include/data_structure/lru_cache.h, class LRUCache).

 A hash map finds the nodes of a doubly linked list that runs from the sentinel HEAD to the sentinel TAIL, most
 recently used node first.  The cells are the nodes between the sentinels, in that order.
 */
module LruCache {
  import opened Common

  type Address = nat

  const HEAD: Address := 1
  const TAIL: Address := 2

  datatype Node = Node(key: int, value: int, next: Address, last: Address)

  type Heap = map<Address, Node>

  datatype Item = Item(key: int, value: int)

  datatype Cell = Cell(at: Address, item: Item)

  // ---------------------------------------------------------------------------------------------
  // Recency sequences

  predicate Unique(s: seq<Item>) { forall i, j :: 0 <= i < j < |s| ==> s[i].key != s[j].key }

  /** Where the key is, or the length of the sequence. */
  function IndexOf(s: seq<Item>, key: int): (i: nat)
    ensures i <= |s| && (i < |s| ==> s[i].key == key) && forall j :: 0 <= j < i ==> s[j].key != key
  {
    if s == [] || s[0].key == key then 0 else 1 + IndexOf(s[1..], key)
  }

  predicate Has(s: seq<Item>, key: int) { IndexOf(s, key) < |s| }

  lemma {:induction false} HasAt(s: seq<Item>, i: nat, key: int)
    requires i < |s| && s[i].key == key
    ensures Has(s, key)
  {
  }

  /** In a sequence without repetitions a key is only at one place. */
  lemma {:induction false} IndexAt(s: seq<Item>, i: nat)
    requires Unique(s) && i < |s|
    ensures IndexOf(s, s[i].key) == i
  {
    var j := IndexOf(s, s[i].key);
    assert j <= i;
  }

  function Without(s: seq<Item>, key: int): seq<Item> {
    if Has(s, key) then Omit(s, IndexOf(s, key)) else s
  }

  /** What get leaves behind: a present key moves to the front. */
  function Used(s: seq<Item>, key: int): seq<Item> {
    if Has(s, key) then [s[IndexOf(s, key)]] + Without(s, key) else s
  }

  /** What put leaves behind: the key in front with its new value; the last item goes when there is no room. */
  function Stored(s: seq<Item>, key: int, value: int, capacity: int): seq<Item> {
    var all := [Item(key, value)] + Without(s, key);
    if |all| > capacity then all[..|all| - 1] else all
  }

  // ---------------------------------------------------------------------------------------------
  // Doubly linked lists

  /** Neighbours in s are linked both ways. */
  predicate Chain(h: Heap, s: seq<Address>) {
    && (forall i :: 0 <= i < |s| ==> s[i] in h)
    && (forall i, j :: 0 <= i < j < |s| ==> s[i] != s[j])
    && (forall i, j :: 0 <= i < |s| && j == i + 1 < |s| ==> h[s[i]].next == s[j] && h[s[j]].last == s[i])
  }

  function Unlinked(h: Heap, p: Address, n: Address): Heap
    requires p in h && n in h
  {
    var h1 := h[p := h[p].(next := n)];
    h1[n := h1[n].(last := p)]
  }

  /** Taking out the node at position i. */
  lemma {:induction false} UnlinkedChain(h: Heap, s: seq<Address>, i: nat)
    requires Chain(h, s) && 0 < i < |s| - 1
    ensures h[s[i]].last == s[i - 1] && h[s[i]].next == s[i + 1]
    ensures Chain(Unlinked(h, s[i - 1], s[i + 1]), Omit(s, i))
  {
    var h', s' := Unlinked(h, s[i - 1], s[i + 1]), Omit(s, i);
    forall a, b | 0 <= a < |s'| && b == a + 1 < |s'|
      ensures h'[s'[a]].next == s'[b] && h'[s'[b]].last == s'[a]
    {
      var c := if a < i then a else a + 1;
      var d := if b < i then b else b + 1;
      assert s'[a] == s[c] && s'[b] == s[d];
      assert h[s[c]].next == s[c + 1] && h[s[d]].last == s[d - 1];
    }
  }

  function Fronted(h: Heap, a: Address): Heap
    requires a in h && HEAD in h && h[HEAD].next in h
  {
    var h1 := h[a := h[a].(next := h[HEAD].next)];
    var h2 := h1[h1[HEAD].next := h1[h1[HEAD].next].(last := a)];
    var h3 := h2[HEAD := h2[HEAD].(next := a)];
    h3[a := h3[a].(last := HEAD)]
  }

  /** Putting a node behind the head sentinel. */
  lemma {:induction false} FrontedChain(h: Heap, s: seq<Address>, a: Address)
    requires Chain(h, s) && |s| > 1 && s[0] == HEAD && a in h && a !in s
    ensures h[HEAD].next in h
    ensures Chain(Fronted(h, a), [HEAD, a] + s[1..])
  {
    assert h[s[0]].next == s[1];
    var h', s' := Fronted(h, a), [HEAD, a] + s[1..];
    forall i, j | 0 <= i < |s'| && j == i + 1 < |s'|
      ensures h'[s'[i]].next == s'[j] && h'[s'[j]].last == s'[i]
    {
      if i > 1 {
        assert s'[i] == s[i - 1] && s'[j] == s[j - 1];
        assert h[s[i - 1]].next == s[j - 1];
      }
    }
  }

  // ---------------------------------------------------------------------------------------------
  // Which memories represent which cells

  function Ats(cells: seq<Cell>): (r: seq<Address>)
    ensures |r| == |cells| && forall i :: 0 <= i < |cells| ==> r[i] == cells[i].at
  {
    if cells == [] then [] else [cells[0].at] + Ats(cells[1..])
  }

  function Items(cells: seq<Cell>): (r: seq<Item>)
    ensures |r| == |cells| && forall i :: 0 <= i < |cells| ==> r[i] == cells[i].item
  {
    if cells == [] then [] else [cells[0].item] + Items(cells[1..])
  }

  function Ring(cells: seq<Cell>): seq<Address> { [HEAD] + Ats(cells) + [TAIL] }

  predicate Holds(h: Heap, c: Cell) { c.at in h && h[c.at].key == c.item.key && h[c.at].value == c.item.value }

  predicate Indexed(hash: map<int, Address>, cells: seq<Cell>) {
    && (forall i :: 0 <= i < |cells| ==> cells[i].item.key in hash && hash[cells[i].item.key] == cells[i].at)
    && (forall k :: k in hash ==> Has(Items(cells), k))
  }

  /** The list holds exactly these cells and the hash map finds exactly their nodes. */
  predicate Rep(h: Heap, hash: map<int, Address>, cells: seq<Cell>) {
    Chain(h, Ring(cells)) && (forall i :: 0 <= i < |cells| ==> Holds(h, cells[i])) && Indexed(hash, cells)
  }

  lemma {:induction false} RingAt(cells: seq<Cell>, j: nat)
    requires j < |cells| + 2
    ensures |Ring(cells)| == |cells| + 2
    ensures Ring(cells)[j] == if j == 0 then HEAD else if j <= |cells| then cells[j - 1].at else TAIL
  {
  }

  lemma {:induction false} RingRemoved(cells: seq<Cell>, i: nat)
    requires i < |cells|
    ensures Ring(Omit(cells, i)) == Omit(Ring(cells), i + 1)
  {
    var r, r' := Ring(cells), Ring(Omit(cells, i));
    forall j | 0 <= j < |r'|
      ensures r'[j] == Omit(r, i + 1)[j]
    {
      RingAt(Omit(cells, i), j);
      RingAt(cells, if j < i + 1 then j else j + 1);
    }
  }

  lemma {:induction false} RingFronted(c: Cell, cells: seq<Cell>)
    ensures Ring([c] + cells) == [HEAD, c.at] + Ring(cells)[1..]
  {
    assert Ats([c] + cells) == [c.at] + Ats(cells);
  }

  predicate Apart(cells: seq<Cell>) { forall i, j :: 0 <= i < j < |cells| ==> cells[i].at != cells[j].at }

  lemma {:induction false} CellsApart(h: Heap, cells: seq<Cell>)
    requires Chain(h, Ring(cells))
    ensures Apart(cells)
  {
    forall i, j | 0 <= i < j < |cells|
      ensures cells[i].at != cells[j].at
    {
      assert Ring(cells)[i + 1] == cells[i].at && Ring(cells)[j + 1] == cells[j].at;
    }
  }

  lemma {:induction false} KeysApart(hash: map<int, Address>, cells: seq<Cell>)
    requires Apart(cells) && Indexed(hash, cells)
    ensures Unique(Items(cells))
  {
    forall i, j | 0 <= i < j < |cells|
      ensures Items(cells)[i].key != Items(cells)[j].key
    {
      assert hash[cells[i].item.key] == cells[i].at && hash[cells[j].item.key] == cells[j].at;
    }
  }

  /** Different cells have different keys, and a key's cell is where IndexOf says. */
  lemma {:induction false} OneCellPerKey(h: Heap, hash: map<int, Address>, cells: seq<Cell>)
    requires Rep(h, hash, cells)
    ensures Unique(Items(cells))
    ensures forall i :: 0 <= i < |cells| ==> IndexOf(Items(cells), cells[i].item.key) == i
    ensures forall k :: k in hash <==> Has(Items(cells), k)
  {
    var s := Items(cells);
    CellsApart(h, cells);
    KeysApart(hash, cells);
    forall i | 0 <= i < |cells|
      ensures IndexOf(s, cells[i].item.key) == i
    {
      IndexAt(s, i);
    }
    forall k | Has(s, k)
      ensures k in hash
    {
      assert cells[IndexOf(s, k)].item.key == k;
    }
  }

  /** Taking the cell at position i out of the list. */
  lemma {:induction false} CutOut(h: Heap, cells: seq<Cell>, i: nat)
    requires Chain(h, Ring(cells)) && i < |cells|
    ensures var a := cells[i].at;
      && a in h && h[a].last in h && h[a].next in h && a !in {h[a].last, h[a].next}
      && Chain(Unlinked(h, h[a].last, h[a].next), Ring(Omit(cells, i)))
      && a !in Ring(Omit(cells, i))
      && (i == |cells| - 1 ==> TAIL in h && h[TAIL].last == a && h[a].next == TAIL)
  {
    var r := Ring(cells);
    assert r[i + 1] == cells[i].at;
    UnlinkedChain(h, r, i + 1);
    RingRemoved(cells, i);
    if i == |cells| - 1 {
      assert h[r[i + 1]].next == r[i + 2] && r[i + 2] == TAIL;
    }
  }

  /** Linking never touches keys and values. */
  predicate SameData(h: Heap, h': Heap) {
    h'.Keys == h.Keys && forall a :: a in h ==> h'[a].key == h[a].key && h'[a].value == h[a].value
  }

  lemma {:induction false} LinkingKeepsData(h: Heap, p: Address, n: Address, a: Address)
    ensures p in h && n in h ==> SameData(h, Unlinked(h, p, n))
    ensures a in h && HEAD in h && h[HEAD].next in h ==> SameData(h, Fronted(h, a))
  {
  }

  lemma {:induction false} ItemsOmitted(cells: seq<Cell>, i: nat)
    requires i < |cells|
    ensures Items(Omit(cells, i)) == Omit(Items(cells), i)
  {
    var rest := Omit(cells, i);
    forall j | 0 <= j < |rest|
      ensures Items(rest)[j] == Omit(Items(cells), i)[j]
    {
    }
  }

  lemma {:induction false} ItemsFronted(c: Cell, cells: seq<Cell>)
    ensures Items([c] + cells) == [c.item] + Items(cells)
  {
    assert ([c] + cells)[1..] == cells;
  }

  lemma {:induction false} HasMoved(s: seq<Item>, i: nat, item: Item, key: int)
    requires i < |s| && item.key == s[i].key && Has(s, key)
    ensures Has([item] + Omit(s, i), key)
  {
    var j, rest := IndexOf(s, key), Omit(s, i);
    if j == i {
      HasAt([item] + rest, 0, key);
    } else {
      var j' := if j < i then j else j - 1;
      assert rest[j'] == s[j];
      HasAt([item] + rest, j' + 1, key);
    }
  }

  lemma {:induction false} IndexedRemoved(hash: map<int, Address>, cells: seq<Cell>, i: nat, item: Item)
    requires Indexed(hash, cells) && i < |cells| && item.key == cells[i].item.key
    ensures Indexed(hash, [Cell(cells[i].at, item)] + Omit(cells, i))
  {
    ItemsFronted(Cell(cells[i].at, item), Omit(cells, i));
    ItemsOmitted(cells, i);
    forall k | k in hash
      ensures Has([item] + Omit(Items(cells), i), k)
    {
      HasMoved(Items(cells), i, item, k);
    }
  }

  lemma {:induction false} HasFronted(item: Item, s: seq<Item>, key: int)
    requires Has(s, key)
    ensures Has([item] + s, key)
  {
    HasAt([item] + s, IndexOf(s, key) + 1, key);
  }

  lemma {:induction false} IndexedAdded(hash: map<int, Address>, cells: seq<Cell>, c: Cell)
    requires Indexed(hash, cells) && c.item.key !in hash
    ensures Indexed(hash[c.item.key := c.at], [c] + cells)
  {
    ItemsFronted(c, cells);
    forall k | k in hash[c.item.key := c.at]
      ensures Has([c.item] + Items(cells), k)
    {
      if k == c.item.key {
        HasAt([c.item] + Items(cells), 0, k);
      } else {
        HasFronted(c.item, Items(cells), k);
      }
    }
  }

  lemma {:induction false} HasPrefix(s: seq<Item>, n: nat, k: int)
    requires n < |s| && Has(s, k) && s[n].key != k && n == |s| - 1
    ensures Has(s[..n], k)
  {
    var j := IndexOf(s, k);
    HasAt(s[..n], j, k);
  }

  lemma {:induction false} IndexedDropped(hash: map<int, Address>, cells: seq<Cell>, n: nat)
    requires Indexed(hash, cells) && n == |cells| - 1 && Unique(Items(cells))
    ensures Indexed(hash - {cells[n].item.key}, cells[..n])
  {
    var hash', s := hash - {cells[n].item.key}, Items(cells);
    assert Items(cells[..n]) == s[..n];
    forall i | 0 <= i < n
      ensures cells[i].item.key in hash' && hash'[cells[i].item.key] == cells[i].at
    {
      assert s[i].key != s[n].key;
    }
    forall k | k in hash'
      ensures Has(Items(cells[..n]), k)
    {
      HasPrefix(s, n, k);
    }
  }

  /** The list holds the cells `rest`, the hash map one more cell, whose node is ready to be linked in. */
  predicate Detached(h: Heap, hash: map<int, Address>, c: Cell, rest: seq<Cell>) {
    && Chain(h, Ring(rest)) && c.at in h && c.at !in Ring(rest)
    && Holds(h, c) && (forall i :: 0 <= i < |rest| ==> Holds(h, rest[i]))
    && Indexed(hash, [c] + rest)
  }

  /** A node is taken out; its value may have been overwritten before. */
  lemma {:induction false} DetachedCell(h0: Heap, h: Heap, hash: map<int, Address>, cells: seq<Cell>, i: nat,
        value: int)
    requires Rep(h0, hash, cells) && i < |cells| && cells[i].at in h0
    requires h == h0[cells[i].at := h0[cells[i].at].(value := value)]
    ensures var a, c := cells[i].at, Cell(cells[i].at, Item(cells[i].item.key, value));
      && h[a].last in h && h[a].next in h && a !in {h[a].last, h[a].next}
      && Detached(Unlinked(h, h[a].last, h[a].next), hash, c, Omit(cells, i))
  {
    var a, c := cells[i].at, Cell(cells[i].at, Item(cells[i].item.key, value));
    assert Chain(h, Ring(cells));
    CutOut(h, cells, i);
    CellsApart(h, cells);
    OthersHeld(h0, h, cells, i, value, h[a].last, h[a].next);
    IndexedRemoved(hash, cells, i, c.item);
  }

  lemma {:induction false} OthersHeld(h0: Heap, h: Heap, cells: seq<Cell>, i: nat, value: int, p: Address, n: Address)
    requires (forall j :: 0 <= j < |cells| ==> Holds(h0, cells[j])) && i < |cells| && cells[i].at in h0
    requires h == h0[cells[i].at := h0[cells[i].at].(value := value)] && p in h && n in h && Apart(cells)
    ensures Holds(Unlinked(h, p, n), Cell(cells[i].at, Item(cells[i].item.key, value)))
    ensures forall j :: 0 <= j < |Omit(cells, i)| ==> Holds(Unlinked(h, p, n), Omit(cells, i)[j])
  {
    LinkingKeepsData(h, p, n, 0);
    var rest := Omit(cells, i);
    assert Holds(h0, cells[i]);
    forall j | 0 <= j < |rest|
      ensures Holds(Unlinked(h, p, n), rest[j])
    {
      var j' := if j < i then j else j + 1;
      assert rest[j] == cells[j'] && Holds(h0, cells[j']);
      assert cells[j'].at != cells[i].at;
    }
  }

  /** A detached node with its data in place goes to the front. */
  lemma {:induction false} FrontRep(h: Heap, hash: map<int, Address>, c: Cell, rest: seq<Cell>)
    requires Detached(h, hash, c, rest)
    ensures c.at in h && c.at != HEAD && c.item.key in hash && hash[c.item.key] == c.at
    ensures HEAD in h && h[HEAD].next in h && Rep(Fronted(h, c.at), hash, [c] + rest)
  {
    assert Ring(rest)[0] == HEAD;
    FrontedChain(h, Ring(rest), c.at);
    LinkingKeepsData(h, 0, 0, c.at);
    RingFronted(c, rest);
    var cells := [c] + rest;
    forall i | 0 <= i < |cells|
      ensures Holds(Fronted(h, c.at), cells[i])
    {
      assert cells[i] == if i == 0 then c else rest[i - 1];
      assert Holds(h, cells[i]);
    }
  }

  lemma {:induction false} ItemsMoved(cells: seq<Cell>, i: nat, item: Item)
    requires i < |cells| && IndexOf(Items(cells), cells[i].item.key) == i
    ensures Items([Cell(cells[i].at, item)] + Omit(cells, i)) == [item] + Without(Items(cells), cells[i].item.key)
  {
    ItemsOmitted(cells, i);
    ItemsFronted(Cell(cells[i].at, item), Omit(cells, i));
  }

  lemma {:induction false} NewCell(h: Heap, hash: map<int, Address>, cells: seq<Cell>, z: Address, node: Node)
    requires Rep(h, hash, cells) && z !in h && node.key !in hash
    ensures Detached(h[z := node], hash[node.key := z], Cell(z, Item(node.key, node.value)), cells)
  {
    var h' := h[z := node];
    IndexedAdded(hash, cells, Cell(z, Item(node.key, node.value)));
    assert z !in Ring(cells);
    forall j | 0 <= j < |cells|
      ensures Holds(h', cells[j])
    {
      assert Holds(h, cells[j]);
    }
  }

  /** The cells that put leaves: the key's own or a new one in front, and the others behind it. */
  lemma {:induction false} EnteredItems(h: Heap, hash: map<int, Address>, cells: seq<Cell>, key: int, value: int,
                                        z: Address) returns (i: nat, c: Cell, rest: seq<Cell>)
    requires Rep(h, hash, cells)
    ensures key !in hash ==> c == Cell(z, Item(key, value)) && rest == cells
    ensures key in hash ==>
      && i < |cells| && cells[i].item.key == key && cells[i].at == hash[key]
      && c == Cell(cells[i].at, Item(key, value)) && rest == Omit(cells, i)
    ensures Items([c] + rest) == [Item(key, value)] + Without(Items(cells), key)
  {
    OneCellPerKey(h, hash, cells);
    i, c, rest := IndexOf(Items(cells), key), Cell(if key in hash then hash[key] else z, Item(key, value)), cells;
    if key in hash {
      rest := Omit(cells, i);
      ItemsMoved(cells, i, c.item);
    } else {
      ItemsFronted(c, rest);
    }
  }

  /** The last cell is dropped from the list, the hash map and the memory. */
  lemma {:induction false} EvictedRep(h: Heap, hash: map<int, Address>, cells: seq<Cell>, n: nat)
    requires Rep(h, hash, cells) && n == |cells| - 1
    ensures var a := cells[n].at;
      && a in h && TAIL in h && h[TAIL].last == a && h[a].last in h && a != h[a].last && a != TAIL
      && h[a].key == cells[n].item.key
      && Rep(Unlinked(h, h[a].last, TAIL) - {a}, hash - {cells[n].item.key}, cells[..n])
  {
    var a := cells[n].at;
    CutOut(h, cells, n);
    LinkingKeepsData(h, h[a].last, TAIL, 0);
    OneCellPerKey(h, hash, cells);
    IndexedDropped(hash, cells, n);
    assert Omit(cells, n) == cells[..n];
    var h', rest := Unlinked(h, h[a].last, TAIL) - {a}, cells[..n];
    assert Holds(h, cells[n]);
    FreedChain(Unlinked(h, h[a].last, TAIL), Ring(rest), a);
    forall j | 0 <= j < n
      ensures Holds(h', rest[j])
    {
      assert Holds(h, cells[j]);
      assert Ring(rest)[j + 1] == rest[j].at;
    }
  }

  lemma {:induction false} FreedChain(h: Heap, s: seq<Address>, a: Address)
    requires Chain(h, s) && a !in s
    ensures Chain(h - {a}, s)
  {
  }

  lemma {:induction false} ItemsPrefix(cells: seq<Cell>, n: nat)
    requires n <= |cells|
    ensures Items(cells[..n]) == Items(cells)[..n]
  {
  }

  // ---------------------------------------------------------------------------------------------
  // The cache object

  class LRUCache {
    const capacity: int
    var size: int
    var heap: Heap
    var hash: map<int, Address>
    ghost var cells: seq<Cell>

    ghost predicate Linked()
      reads this
    {
      Rep(heap, hash, cells) && size == |cells|
    }

    ghost predicate Valid()
      reads this
    {
      Linked() && size <= Max(0, capacity)
    }

    /** The sentinels' contents are never looked at. */
    constructor (capacity: int)
      ensures Valid() && cells == [] && this.capacity == capacity
    {
      this.capacity := capacity;
      size := 0;
      heap := map[HEAD := Node(0, 0, TAIL, 0), TAIL := Node(0, 0, 0, HEAD)];
      hash := map[];
      cells := [];
    }

    /** moveToFront: the detached node becomes the first, the others follow in their order. */
    method MoveToFront(key: int, ghost c: Cell, ghost rest: seq<Cell>)
      requires Detached(heap, hash, c, rest) && key == c.item.key
      modifies `heap, `cells
      ensures Rep(heap, hash, cells) && cells == [c] + rest
    {
      FrontRep(heap, hash, c, rest);
      heap := heap[hash[key] := heap[hash[key]].(next := heap[HEAD].next)];
      heap := heap[heap[HEAD].next := heap[heap[HEAD].next].(last := hash[key])];
      heap := heap[HEAD := heap[HEAD].(next := hash[key])];
      heap := heap[hash[key] := heap[hash[key]].(last := HEAD)];
      cells := [c] + rest;
    }

    /** The two assignments of get and put that take a node out of the list. */
    method Unlink(a: Address)
      requires a in heap && heap[a].last in heap && heap[a].next in heap && a !in {heap[a].last, heap[a].next}
      modifies `heap
      ensures heap == Unlinked(old(heap), old(heap)[a].last, old(heap)[a].next)
    {
      heap := heap[heap[a].last := heap[heap[a].last].(next := heap[a].next)];
      heap := heap[heap[a].next := heap[heap[a].next].(last := heap[a].last)];
    }

    /** What get does to a present key. */
    method Refresh(key: int, ghost i: nat)
      requires Rep(heap, hash, cells) && i < |cells|
      requires key == cells[i].item.key && key in hash && hash[key] == cells[i].at
      modifies `heap, `cells
      ensures Rep(heap, hash, cells) && cells == [old(cells[i])] + old(Omit(cells, i))
    {
      assert Holds(heap, cells[i]);
      DetachedCell(heap, heap, hash, cells, i, cells[i].item.value);
      Unlink(hash[key]);
      MoveToFront(key, cells[i], Omit(cells, i));
    }

    /** The cache's answer is -1 for an absent key. */
    method Get(key: int) returns (r: int)
      requires Valid()
      modifies this
      ensures Valid() && Items(cells) == Used(old(Items(cells)), key)
      ensures var s := old(Items(cells)); r == if Has(s, key) then s[IndexOf(s, key)].value else -1
    {
      OneCellPerKey(heap, hash, cells);
      if key !in hash {
        return -1;
      }
      ghost var i := IndexOf(Items(cells), key);
      ItemsMoved(cells, i, cells[i].item);
      Refresh(key, i);
      assert Holds(heap, cells[0]);
      r := heap[hash[key]].value;
    }

    method EvictLast()
      requires Linked() && cells != []
      modifies this
      ensures Linked() && cells == old(cells[..|cells| - 1])
      ensures old(cells[|cells| - 1].at) !in heap
    {
      ghost var n, h := |cells| - 1, heap;
      ghost var c := cells[n];
      EvictedRep(h, hash, cells, n);
      var temp := UnlinkLast();
      assert temp == c.at && heap[temp].key == c.item.key;
      hash := hash - {heap[temp].key};
      heap := heap - {temp};
      assert heap == Unlinked(h, h[c.at].last, TAIL) - {c.at};
      size := size - 1;
      cells := cells[..n];
    }

    /** The first two assignments of evictLast. */
    method UnlinkLast() returns (temp: Address)
      requires TAIL in heap && heap[TAIL].last in heap && heap[heap[TAIL].last].last in heap
      requires heap[TAIL].last !in {heap[heap[TAIL].last].last, TAIL}
      modifies `heap
      ensures temp == old(heap)[TAIL].last && heap == Unlinked(old(heap), old(heap)[temp].last, TAIL)
      ensures heap[temp].key == old(heap)[temp].key
    {
      temp := heap[TAIL].last;
      heap := heap[heap[temp].last := heap[heap[temp].last].(next := TAIL)];
      heap := heap[TAIL := heap[TAIL].(last := heap[temp].last)];
    }

    /** The first half of put for a present key: new value, node out of the list. */
    method Overwrite(key: int, value: int, ghost i: nat, ghost c: Cell, ghost rest: seq<Cell>)
      requires Linked() && i < |cells| && key == cells[i].item.key && key in hash && hash[key] == cells[i].at
      requires c == Cell(cells[i].at, Item(key, value)) && rest == Omit(cells, i)
      modifies `heap
      ensures Detached(heap, hash, c, rest)
    {
      assert Holds(heap, cells[i]);
      DetachedCell(heap, heap[hash[key] := heap[hash[key]].(value := value)], hash, cells, i, value);
      heap := heap[hash[key] := heap[hash[key]].(value := value)];
      Unlink(hash[key]);
    }

    /** The first half of put for an absent key: a new node whose links are not set yet. */
    method AddNode(key: int, value: int, z: Address)
      requires Linked() && key !in hash && z !in heap
      modifies `heap, `hash, `size
      ensures Detached(heap, hash, Cell(z, Item(key, value)), cells) && size == old(size) + 1
    {
      var next, last := *, *;
      NewCell(heap, hash, cells, z, Node(key, value, next, last));
      heap := heap[z := Node(key, value, next, last)];
      hash := hash[key := z];
      size := size + 1;
    }

    /** put up to the test of the size: the key is in front with its new value. */
    method Enter(key: int, value: int, z: Address)
      requires Linked() && z !in heap
      modifies this
      ensures Linked() && Items(cells) == [Item(key, value)] + Without(old(Items(cells)), key)
    {
      ghost var i, c, rest := EnteredItems(heap, hash, cells, key, value, z);
      if key in hash {
        Overwrite(key, value, i, c, rest);
      } else {
        AddNode(key, value, z);
      }
      MoveToFront(key, c, rest);
    }

    /** put: z is the address the allocator hands out, should a new node be needed. */
    method Put(key: int, value: int, z: Address)
      requires Valid() && z !in heap
      modifies this
      ensures Valid() && Items(cells) == Stored(old(Items(cells)), key, value, capacity)
    {
      Enter(key, value, z);
      ItemsPrefix(cells, |cells| - 1);
      if size > capacity {
        EvictLast();
      }
    }
  }
}
