/**
 The circular, doubling block index of an implicit producer (include/data_structure/concurrentqueue.h,
 insert_block_index_entry, rewind_block_index_tail, get_block_index_index_for_index, new_block_index).

 Blocks are numbered 0, 1, 2, ...; block k starts at index k * BLOCK_SIZE, which is the key of its entry.
 The single producer inserts and rewinds; consumers look entries up and clear them in any order, possibly
 through a header that has been replaced since they loaded it.  Every store to a key, a tail, a value or the
 header pointer is a step of its own, and so is every load of a consumer.  Entries are allocated once and
 shared by all headers, so an entry is a number into `keys` and `values`, and a header's `index` holds such
 numbers.
 */
module BlockIndex {
  import opened Common

  type EntryId = nat
  type BlockId = nat

  const BLOCK_SIZE: int := 32

  /** The block size is above 1, so an odd number is no block's first index. */
  const INVALID_BLOCK_BASE: int := 1

  /** A BlockIndexHeader; `index` is filled before the header is published and never changes after. */
  datatype Header = Header(capacity: nat, index: seq<EntryId>, tail: nat)

  // ---------------------------------------------------------------------------------------------
  // Positions in a ring

  /** A position less than one round outside 0 .. cap - 1, brought back inside. */
  function Wrap(x: int, cap: int): int {
    if x < 0 then x + cap else if x >= cap then x - cap else x
  }

  /** `x & (cap - 1)` goes round the ring, because capacities are powers of two; x may be negative. */
  lemma {:induction false} MaskWraps(x: int, cap: int)
    requires cap > 0 && PowerOfTwo(cap) && -cap <= x < 2 * cap
    ensures And(x, cap - 1) == Wrap(x, cap) && 0 <= Wrap(x, cap) < cap
  {
    AndMask(x, cap);
    Remainder(x, cap, if x < 0 then -1 else if x >= cap then 1 else 0, Wrap(x, cap));
  }

  method Mask(x: int, cap: int) returns (r: nat)
    requires cap > 0 && PowerOfTwo(cap) && -cap <= x < 2 * cap
    ensures r == Wrap(x, cap) && r < cap
  {
    MaskWraps(x, cap);
    r := And(x, cap - 1);
  }

  // ---------------------------------------------------------------------------------------------
  // The state of the index, as facts about its fields.  `ring` lists the entries of the blocks
  // lo, lo + 1, ..., lo + capacity - 1, and `start` is the slot of block lo.

  predicate Distinct(ring: seq<EntryId>, size: nat) {
    && (forall i :: 0 <= i < |ring| ==> ring[i] < size)
    && (forall i, j :: 0 <= i < j < |ring| ==> ring[i] != ring[j])
  }

  /** The entry i slots behind slot `start`. */
  function At(h: Header, start: int, i: int): EntryId
    requires 0 <= start < h.capacity == |h.index| && 0 <= i <= h.capacity
  {
    h.index[Wrap(start + i, h.capacity)]
  }

  /** The header has the first n entries of the ring in their slots. */
  predicate InSlots(h: Header, start: int, ring: seq<EntryId>, n: int) {
    && 0 <= start < h.capacity == |h.index| && n <= |ring| && n <= h.capacity
    && (forall i {:trigger At(h, start, i)} :: 0 <= i < n ==> At(h, start, i) == ring[i])
  }

  /** Blocks below hi have their key; the entries behind them are invalid. */
  predicate KeysOk(keys: seq<int>, ring: seq<EntryId>, lo: int, hi: int) {
    forall i :: 0 <= i < |ring| ==>
      ring[i] < |keys| && keys[ring[i]] == if lo + i < hi then (lo + i) * BLOCK_SIZE else INVALID_BLOCK_BASE
  }

  /** Live blocks have their value; released and rewound ones, block `skip` aside, have none. */
  predicate ValuesOk(values: seq<Option<BlockId>>, ring: seq<EntryId>, lo: int, hi: int, live: map<int, BlockId>,
                     skip: int) {
    forall i :: 0 <= i < |ring| && lo + i < hi && lo + i != skip ==>
      ring[i] < |values| && values[ring[i]] == if lo + i in live then Some(live[lo + i]) else None
  }

  /** Where a header stands in the ring: the slot of block lo, and the number below which it has the blocks. */
  datatype Place = Place(start: int, limit: int)

  /** A replaced header keeps its tail and the entries of the blocks below its limit. */
  predicate StaleOk(h: Header, p: Place, ring: seq<EntryId>, lo: int, hi: int) {
    && PowerOfTwo(h.capacity) && p.limit <= hi && InSlots(h, p.start, ring, p.limit - lo)
    && (p.limit > lo ==> h.tail == Wrap(p.start + p.limit - 1 - lo, h.capacity))
  }

  /** All headers but the last are stale. */
  predicate AllStaleOk(headers: seq<Header>, places: seq<Place>, ring: seq<EntryId>, lo: int, hi: int) {
    |places| == |headers| && forall i :: 0 <= i < |headers| - 1 ==> StaleOk(headers[i], places[i], ring, lo, hi)
  }

  /** The current header has the whole ring, and its tail is at the last block inserted. */
  predicate CurrentOk(h: Header, start: int, ring: seq<EntryId>, lo: int, next: int) {
    && PowerOfTwo(h.capacity) && h.capacity > 1 && |ring| == h.capacity && InSlots(h, start, ring, |ring|)
    && h.tail == Wrap(start + next - 1 - lo, h.capacity)
  }

  // ---------------------------------------------------------------------------------------------
  // How these facts change when the oldest block's entry is given to the next block

  /** The slot behind the tail: the next block's own, or the oldest block's when the ring is full. */
  lemma {:induction false} NextSlot(h: Header, start: int, ring: seq<EntryId>, lo: int, next: int)
    requires CurrentOk(h, start, ring, lo, next) && lo <= next <= lo + h.capacity
    ensures Wrap(h.tail + 1, h.capacity) == Wrap(start + next - lo, h.capacity)
    ensures h.index[Wrap(h.tail + 1, h.capacity)] == if next < lo + h.capacity then ring[next - lo] else ring[0]
  {
    var i := if next < lo + h.capacity then next - lo else 0;
    assert At(h, start, i) == ring[i];
  }

  /** Moving the tail leaves the entries where they are. */
  lemma {:induction false} InSlotsTail(h: Header, tail: nat, start: int, ring: seq<EntryId>, n: int)
    requires InSlots(h, start, ring, n)
    ensures InSlots(h.(tail := tail), start, ring, n)
  {
    forall i | 0 <= i < n
      ensures At(h.(tail := tail), start, i) == ring[i]
    {
      assert At(h, start, i) == ring[i];
    }
  }

  function Turned(ring: seq<EntryId>): seq<EntryId>
    requires ring != []
  {
    ring[1..] + [ring[0]]
  }

  lemma {:induction false} InSlotsTurns(h: Header, start: int, ring: seq<EntryId>, n: int)
    requires InSlots(h, start, ring, n) && ring != []
    ensures InSlots(h, Wrap(start + 1, h.capacity), Turned(ring), n - 1)
  {
    forall i | 0 <= i < n - 1
      ensures At(h, Wrap(start + 1, h.capacity), i) == Turned(ring)[i]
    {
      assert At(h, start, i + 1) == ring[i + 1];
    }
  }

  /** The tail stays where it is, at the block before the next one. */
  lemma {:induction false} CurrentTurns(h: Header, start: int, ring: seq<EntryId>, lo: int)
    requires CurrentOk(h, start, ring, lo, lo + |ring|)
    ensures CurrentOk(h, Wrap(start + 1, h.capacity), Turned(ring), lo + 1, lo + |ring|)
  {
    InSlotsTurns(h, start, ring, |ring|);
    var start' := Wrap(start + 1, h.capacity);
    assert At(h, start, 0) == ring[0];
    assert At(h, start', |ring| - 1) == Turned(ring)[|ring| - 1];
  }

  lemma {:induction false} KeysTurn(keys: seq<int>, ring: seq<EntryId>, lo: int, hi: int, keys': seq<int>)
    requires Distinct(ring, |keys|) && KeysOk(keys, ring, lo, hi) && ring != [] && hi == lo + |ring|
    requires keys' == keys[ring[0] := hi * BLOCK_SIZE]
    ensures Distinct(Turned(ring), |keys'|) && KeysOk(keys', Turned(ring), lo + 1, hi + 1)
  {
    var r := Turned(ring);
    forall i | 0 <= i < |r|
      ensures r[i] < |keys'| && keys'[r[i]] == (lo + 1 + i) * BLOCK_SIZE
    {
      if i < |ring| - 1 {
        assert keys[ring[i + 1]] == (lo + (i + 1)) * BLOCK_SIZE;
      }
    }
  }

  lemma {:induction false} ValuesTurn(values: seq<Option<BlockId>>, ring: seq<EntryId>, lo: int, hi: int,
                                      live: map<int, BlockId>)
    requires ValuesOk(values, ring, lo, hi, live, -1) && ring != [] && hi == lo + |ring| && 0 <= lo
    ensures ValuesOk(values, Turned(ring), lo + 1, hi + 1, live, hi)
  {
    var r := Turned(ring);
    forall i | 0 <= i < |r| && lo + 1 + i != hi
      ensures r[i] < |values| && values[r[i]] == if lo + 1 + i in live then Some(live[lo + 1 + i]) else None
    {
      assert r[i] == ring[i + 1] && lo + (i + 1) == lo + 1 + i;
    }
  }

  /** Every header's slot of block lo moves on with lo. */
  function Moved(headers: seq<Header>, places: seq<Place>): (r: seq<Place>)
    requires |places| == |headers|
    ensures |r| == |places|
    ensures forall i :: 0 <= i < |r| ==> r[i] == places[i].(start := Wrap(places[i].start + 1, headers[i].capacity))
  {
    seq(|places|, i requires 0 <= i < |places| => places[i].(start := Wrap(places[i].start + 1, headers[i].capacity)))
  }

  lemma {:induction false} AllStaleTurn(headers: seq<Header>, places: seq<Place>, ring: seq<EntryId>, lo: int, hi: int)
    requires AllStaleOk(headers, places, ring, lo, hi) && ring != []
    ensures AllStaleOk(headers, Moved(headers, places), Turned(ring), lo + 1, hi + 1)
  {
    forall i | 0 <= i < |headers| - 1
      ensures StaleOk(headers[i], Moved(headers, places)[i], Turned(ring), lo + 1, hi + 1)
    {
      assert StaleOk(headers[i], places[i], ring, lo, hi);
      InSlotsTurns(headers[i], places[i].start, ring, places[i].limit - lo);
    }
  }

  /** Changing the current header, or knowing more keys, is nothing to the stale headers. */
  lemma {:induction false} AllStaleSame(headers: seq<Header>, places: seq<Place>, ring: seq<EntryId>, lo: int, hi: int,
                                        headers': seq<Header>, hi': int)
    requires AllStaleOk(headers, places, ring, lo, hi) && hi <= hi'
    requires |headers'| == |headers| && forall i :: 0 <= i < |headers| - 1 ==> headers'[i] == headers[i]
    ensures AllStaleOk(headers', places, ring, lo, hi')
  {
    forall i | 0 <= i < |headers| - 1
      ensures StaleOk(headers'[i], places[i], ring, lo, hi')
    {
      assert StaleOk(headers[i], places[i], ring, lo, hi);
    }
  }

  // ---------------------------------------------------------------------------------------------
  // How they change when a longer header is published

  /** The last place gets its limit. */
  function Limited(places: seq<Place>, limit: int): (r: seq<Place>)
    ensures |r| == |places|
  {
    if places == [] then [] else places[|places| - 1 := places[|places| - 1].(limit := limit)]
  }

  lemma {:induction false} AllStaleGrow(headers: seq<Header>, places: seq<Place>, ring: seq<EntryId>, lo: int,
                                        next: int, h: Header, p: Place, ring': seq<EntryId>)
    requires AllStaleOk(headers, places, ring, lo, next) && ring <= ring' && next == lo + |ring|
    requires headers != [] ==> CurrentOk(headers[|headers| - 1], places[|headers| - 1].start, ring, lo, next)
    ensures AllStaleOk(headers + [h], Limited(places, next) + [p], ring', lo, next)
  {
    var headers', places' := headers + [h], Limited(places, next) + [p];
    forall i | 0 <= i < |headers|
      ensures StaleOk(headers'[i], places'[i], ring', lo, next)
    {
      if i < |headers| - 1 {
        assert StaleOk(headers[i], places[i], ring, lo, next);
      }
    }
  }

  lemma {:induction false} KeysGrow(keys: seq<int>, ring: seq<EntryId>, lo: int, hi: int, keys': seq<int>,
                                    added: seq<EntryId>)
    requires Distinct(ring, |keys|) && KeysOk(keys, ring, lo, hi) && hi == lo + |ring|
    requires keys <= keys' && |keys'| == |keys| + |added|
    requires forall i :: 0 <= i < |added| ==> added[i] == |keys| + i && keys'[|keys| + i] == INVALID_BLOCK_BASE
    ensures Distinct(ring + added, |keys'|) && KeysOk(keys', ring + added, lo, hi)
  {
  }

  lemma {:induction false} ValuesGrow(values: seq<Option<BlockId>>, ring: seq<EntryId>, lo: int, hi: int,
                                      live: map<int, BlockId>, values': seq<Option<BlockId>>, ring': seq<EntryId>)
    requires ValuesOk(values, ring, lo, hi, live, -1) && values <= values' && ring <= ring' && hi <= lo + |ring|
    ensures ValuesOk(values', ring', lo, hi, live, -1)
  {
  }

  /** The entries of a header in ring order, starting behind its tail: the copying loop of new_block_index. */
  method CopyRing(prev: Header, ghost start: int, ghost ring: seq<EntryId>, ghost lo: int) returns (r: seq<EntryId>)
    requires CurrentOk(prev, start, ring, lo, lo + |ring|)
    ensures r == ring
  {
    var prevPos := prev.tail;
    r := [];
    while r == [] || prevPos != prev.tail
      invariant |r| <= prev.capacity && prevPos == Wrap(start + |r| - 1, prev.capacity)
      invariant r == ring[..|r|]
      decreases prev.capacity - |r|
    {
      prevPos := Mask(prevPos + 1, prev.capacity);
      assert At(prev, start, |r|) == ring[|r|];
      r := r + [prev.index[prevPos]];
    }
  }

  /** Fresh entries: invalid keys, values not initialised. */
  method NewEntries(keys: seq<int>, values: seq<Option<BlockId>>, count: nat)
    returns (keys': seq<int>, values': seq<Option<BlockId>>, added: seq<EntryId>)
    requires |values| == |keys|
    ensures keys' == keys + Repeat(INVALID_BLOCK_BASE, count) && |values'| == |keys'| && values <= values'
    ensures |added| == count && forall i :: 0 <= i < count ==> added[i] == |keys| + i
  {
    keys', values', added := keys, values, [];
    for n := 0 to count
      invariant keys' == keys + Repeat(INVALID_BLOCK_BASE, n) && |values'| == |keys'| && values <= values'
      invariant |added| == n && forall i :: 0 <= i < n ==> added[i] == |keys| + i
    {
      var garbage: Option<BlockId> := *;
      added := added + [|keys'|];
      keys', values' := keys' + [INVALID_BLOCK_BASE], values' + [garbage];
    }
  }

  // ---------------------------------------------------------------------------------------------
  // The whole state, and what each store makes of it

  /** What the producer still owes: Keyed the tail store, Taken the value store, Unwound the store of null. */
  datatype Stage = Quiet | Keyed | Taken | Unwound

  datatype State = State(
    keys: seq<int>,
    values: seq<Option<BlockId>>,
    headers: seq<Header>,                  // all headers published so far; blockIndex points to the last one
    nextCapacity: nat,                     // nextBlockIndexCapacity
    places: seq<Place>,                    // where each header stands in the ring
    ring: seq<EntryId>,
    lo: int,                               // oldest block whose entry has not been reused
    next: int,                             // number of the block behind the tail
    hi: int,                               // next or higher: entries below hi have their keys
    live: map<int, BlockId>,               // inserted blocks that have a value and have not been released
    stage: Stage)
  {
    function Current(): Header
      requires headers != []
    {
      headers[|headers| - 1]
    }

    function Start(): int
      requires places != []
    {
      places[|places| - 1].start
    }

    /** The block whose entry has no value that means anything. */
    function Skip(): int {
      match stage case Quiet => -1 case Taken => next - 1 case Keyed => next case Unwound => next
    }
  }

  predicate LiveOk(live: map<int, BlockId>, lo: int, next: int) { forall k :: k in live ==> lo <= k < next }

  predicate StageOk(stage: Stage, lo: int, next: int, hi: int, live: map<int, BlockId>) {
    match stage
    case Quiet => true
    case Taken => lo < next && next - 1 !in live
    case Keyed => next < hi
    case Unwound => next < hi
  }

  predicate Bounds(s: State) {
    && s.nextCapacity > 1 && PowerOfTwo(s.nextCapacity) && 0 <= s.lo <= s.next <= s.hi <= s.lo + |s.ring|
    && |s.values| == |s.keys| && |s.places| == |s.headers|
    && StageOk(s.stage, s.lo, s.next, s.hi, s.live) && LiveOk(s.live, s.lo, s.next)
  }

  predicate Storage(s: State) {
    && Distinct(s.ring, |s.keys|)
    && KeysOk(s.keys, s.ring, s.lo, s.hi)
    && ValuesOk(s.values, s.ring, s.lo, s.hi, s.live, s.Skip())
  }

  predicate Published(s: State) {
    && AllStaleOk(s.headers, s.places, s.ring, s.lo, s.hi)
    && (if s.headers == [] then s.ring == [] else
          CurrentOk(s.Current(), s.Start(), s.ring, s.lo, s.next) && s.nextCapacity == 2 * s.Current().capacity)
  }

  predicate Ok(s: State) { Bounds(s) && Storage(s) && Published(s) }

  /** The state before the first header is allocated. */
  function Empty(initial: nat): State {
    State([], [], [], initial, [], [], 0, 0, 0, map[], Quiet)
  }

  /** Every entry is in use. */
  predicate Full(s: State) { s.hi == s.next == s.lo + |s.ring| }

  /** The next entries to be allocated. */
  function Fresh(from: nat, count: nat): (r: seq<EntryId>)
    ensures |r| == count && forall i :: 0 <= i < count ==> r[i] == from + i
  {
    seq(count, i => from + i)
  }

  /** After new_block_index: the new header has the ring in order and behind it fresh entries with these values. */
  function Grown(s: State, garbage: seq<Option<BlockId>>): State
    requires s.nextCapacity > 0
  {
    var added := Fresh(|s.keys|, |garbage|);
    var tail := if s.ring == [] then s.nextCapacity - 1 else |s.ring| - 1;
    s.(keys := s.keys + Repeat(INVALID_BLOCK_BASE, |garbage|), values := s.values + garbage,
       headers := s.headers + [Header(s.nextCapacity, s.ring + added, tail)], nextCapacity := 2 * s.nextCapacity,
       places := Limited(s.places, s.next) + [Place(0, s.next)], ring := s.ring + added)
  }

  lemma {:induction false} StorageGrown(s: State, s': State, added: seq<EntryId>)
    requires Bounds(s) && Storage(s) && s.stage.Quiet? && Full(s)
    requires s'.ring == s.ring + added && s.keys <= s'.keys && |s'.keys| == |s.keys| + |added| && s.values <= s'.values
    requires forall i :: 0 <= i < |added| ==> added[i] == |s.keys| + i && s'.keys[|s.keys| + i] == INVALID_BLOCK_BASE
    requires s'.lo == s.lo && s'.hi == s.hi && s'.live == s.live && s'.stage.Quiet?
    ensures Storage(s')
  {
    KeysGrow(s.keys, s.ring, s.lo, s.hi, s'.keys, added);
    ValuesGrow(s.values, s.ring, s.lo, s.hi, s.live, s'.values, s'.ring);
  }

  lemma {:induction false} PublishedGrown(s: State, s': State, h: Header)
    requires Bounds(s) && Published(s) && Full(s) && |h.index| == h.capacity == s.nextCapacity && s.ring < h.index
    requires h.tail == if s.ring == [] then h.capacity - 1 else |s.ring| - 1
    requires s'.headers == s.headers + [h] && s'.nextCapacity == 2 * s.nextCapacity
    requires s'.places == Limited(s.places, s.next) + [Place(0, s.next)] && s'.ring == h.index
    requires s'.lo == s.lo && s'.next == s.next && s'.hi == s.hi
    ensures Published(s')
  {
    AllStaleGrow(s.headers, s.places, s.ring, s.lo, s.next, h, Place(0, s.next), s'.ring);
  }

  lemma {:induction false} GrownOk(s: State, garbage: seq<Option<BlockId>>)
    requires Ok(s) && s.stage.Quiet? && Full(s) && |s.ring| + |garbage| == s.nextCapacity && garbage != []
    ensures Ok(Grown(s, garbage))
  {
    var s' := Grown(s, garbage);
    StorageGrown(s, s', Fresh(|s.keys|, |garbage|));
    PublishedGrown(s, s', s'.Current());
  }

  /** The entry behind the tail is unused or cleared. */
  predicate HasRoom(s: State) {
    s.headers != [] && (s.next < s.hi || s.hi < s.lo + |s.ring| || s.lo !in s.live)
  }

  /** The entry that the next insertion takes. */
  function NextEntry(s: State): EntryId
    requires s.ring != [] && s.lo <= s.next
  {
    if s.next < s.lo + |s.ring| then s.ring[s.next - s.lo] else s.ring[0]
  }

  /** After the key store of an insertion, which may take the entry of the oldest block. */
  function AfterKey(s: State): State
    requires Ok(s) && s.headers != []
  {
    var keyed := s.(keys := s.keys[NextEntry(s) := s.next * BLOCK_SIZE], hi := Max(s.hi, s.next + 1), stage := Keyed);
    if s.next < s.lo + |s.ring| then keyed
    else keyed.(ring := Turned(s.ring), lo := s.lo + 1, places := Moved(s.headers, s.places))
  }

  function TailMoved(headers: seq<Header>, shift: int): seq<Header>
    requires headers != [] && -1 <= shift <= 1
    requires headers[|headers| - 1].tail < headers[|headers| - 1].capacity
  {
    var h := headers[|headers| - 1];
    headers[|headers| - 1 := h.(tail := Wrap(h.tail + shift, h.capacity))]
  }

  lemma {:induction false} TailInRing(s: State)
    requires Bounds(s) && Published(s) && s.headers != []
    ensures s.Current().tail < s.Current().capacity == |s.ring|
  {
  }

  /** After the tail store of an insertion. */
  function AfterTail(s: State): State
    requires Ok(s) && s.headers != []
  {
    TailInRing(s);
    s.(headers := TailMoved(s.headers, 1), next := s.next + 1, stage := Taken)
  }

  /** The entry of block k. */
  function EntryOf(s: State, k: int): EntryId
    requires s.lo <= k < s.lo + |s.ring|
  {
    s.ring[k - s.lo]
  }

  /** After the producer stores the new block into the entry it inserted. */
  function AfterValue(s: State, b: BlockId): State
    requires Ok(s) && s.stage.Taken?
  {
    s.(values := s.values[EntryOf(s, s.next - 1) := Some(b)], live := s.live[s.next - 1 := b], stage := Quiet)
  }

  /** After rewind_block_index_tail. */
  function AfterRewind(s: State): State
    requires Ok(s) && s.headers != []
  {
    TailInRing(s);
    s.(headers := TailMoved(s.headers, -1), next := s.next - 1, stage := Unwound)
  }

  /** After the store of null that follows it. */
  function AfterClear(s: State): State
    requires Ok(s) && s.stage.Unwound?
  {
    s.(values := s.values[EntryOf(s, s.next) := None], stage := Quiet)
  }

  /** After a consumer clears the entry of the block it emptied. */
  function Released(s: State, k: int): State
    requires Ok(s) && k in s.live
  {
    s.(values := s.values[EntryOf(s, k) := None], live := s.live - {k})
  }

  lemma {:induction false} KeyInRing(s: State, s': State)
    requires Bounds(s) && Storage(s) && s.stage.Quiet? && s.next < s.lo + |s.ring|
    requires s'.keys == s.keys[NextEntry(s) := s.next * BLOCK_SIZE] && s'.hi == Max(s.hi, s.next + 1)
    requires s'.stage.Keyed? && s'.values == s.values && s'.ring == s.ring && s'.lo == s.lo && s'.next == s.next
      && s'.live == s.live
    ensures Storage(s')
  {
    var e := s.ring[s.next - s.lo];
    forall i | 0 <= i < |s.ring|
      ensures s.ring[i] < |s'.keys|
      ensures s'.keys[s.ring[i]] == if s.lo + i < s'.hi then (s.lo + i) * BLOCK_SIZE else INVALID_BLOCK_BASE
    {
      assert i != s.next - s.lo ==> s.ring[i] != e;
    }
  }

  lemma {:induction false} KeyOverOldest(s: State, s': State)
    requires Bounds(s) && Storage(s) && s.stage.Quiet? && s.next == s.lo + |s.ring| && s.ring != []
    requires s'.keys == s.keys[s.ring[0] := s.next * BLOCK_SIZE] && s'.hi == s.next + 1 && s'.stage.Keyed?
    requires s'.values == s.values && s'.ring == Turned(s.ring) && s'.lo == s.lo + 1 && s'.next == s.next
      && s'.live == s.live
    ensures Storage(s')
  {
    KeysTurn(s.keys, s.ring, s.lo, s.hi, s'.keys);
    ValuesTurn(s.values, s.ring, s.lo, s.hi, s.live);
  }

  lemma {:induction false} PublishedTurned(s: State, s': State)
    requires Bounds(s) && Published(s) && s.headers != [] && s.next == s.lo + |s.ring|
    requires s'.headers == s.headers && s'.places == Moved(s.headers, s.places) && s'.nextCapacity == s.nextCapacity
    requires s'.ring == Turned(s.ring) && s'.lo == s.lo + 1 && s'.next == s.next && s'.hi == s.next + 1
    ensures Published(s')
  {
    AllStaleTurn(s.headers, s.places, s.ring, s.lo, s.hi);
    CurrentTurns(s.Current(), s.Start(), s.ring, s.lo);
  }

  lemma {:induction false} AfterKeyOk(s: State)
    requires Ok(s) && HasRoom(s) && s.stage.Quiet?
    ensures Ok(AfterKey(s))
  {
    var s' := AfterKey(s);
    if s.next < s.lo + |s.ring| {
      KeyInRing(s, s');
      AllStaleSame(s.headers, s.places, s.ring, s.lo, s.hi, s.headers, s'.hi);
    } else {
      KeyOverOldest(s, s');
      PublishedTurned(s, s');
    }
  }

  /** The tail moves to the block before `next`. */
  lemma {:induction false} TailStored(s: State, s': State, shift: int)
    requires Bounds(s) && Published(s) && s.headers != [] && -1 <= shift <= 1
    requires s.lo <= s.next + shift <= s.lo + |s.ring|
    requires s'.headers == TailMoved(s.headers, shift) && s'.next == s.next + shift
    requires s'.places == s.places && s'.ring == s.ring && s'.lo == s.lo && s'.hi == s.hi
      && s'.nextCapacity == s.nextCapacity
    ensures Published(s')
  {
    AllStaleSame(s.headers, s.places, s.ring, s.lo, s.hi, s'.headers, s.hi);
    InSlotsTail(s.Current(), s'.Current().tail, s.Start(), s.ring, |s.ring|);
  }

  lemma {:induction false} AfterTailOk(s: State)
    requires Ok(s) && s.headers != [] && s.stage.Keyed?
    ensures Ok(AfterTail(s))
  {
    TailStored(s, AfterTail(s), 1);
  }

  lemma {:induction false} AfterRewindOk(s: State)
    requires Ok(s) && s.headers != [] && s.stage.Taken?
    ensures Ok(AfterRewind(s))
  {
    TailStored(s, AfterRewind(s), -1);
  }

  /** Storing the value of block k settles what its entry holds. */
  lemma {:induction false} ValueStored(s: State, k: int, v: Option<BlockId>, live': map<int, BlockId>)
    requires Storage(s) && s.lo <= k < s.lo + |s.ring| && |s.values| == |s.keys| && 0 <= s.lo
    requires forall j :: j != k ==> (j in live' <==> j in s.live) && (j in live' ==> live'[j] == s.live[j])
    requires v == if k in live' then Some(live'[k]) else None
    ensures ValuesOk(s.values[EntryOf(s, k) := v], s.ring, s.lo, s.hi, live', if s.Skip() == k then -1 else s.Skip())
  {
    forall i | 0 <= i < |s.ring| && i != k - s.lo
      ensures s.ring[i] != s.ring[k - s.lo]
    {
    }
  }

  lemma {:induction false} AfterValueOk(s: State, b: BlockId)
    requires Ok(s) && s.stage.Taken?
    ensures Ok(AfterValue(s, b))
  {
    ValueStored(s, s.next - 1, Some(b), s.live[s.next - 1 := b]);
  }

  lemma {:induction false} AfterClearOk(s: State)
    requires Ok(s) && s.stage.Unwound?
    ensures Ok(AfterClear(s))
  {
    ValueStored(s, s.next, None, s.live);
  }

  lemma {:induction false} ReleasedOk(s: State, k: int)
    requires Ok(s) && k in s.live
    ensures Ok(Released(s, k))
  {
    ValueStored(s, k, None, s.live - {k});
  }

  // ---------------------------------------------------------------------------------------------
  // All stores together

  datatype Op =
    | Grow(garbage: seq<Option<BlockId>>)
    | StoreKey
    | StoreTail
    | StoreValue(block: BlockId)
    | RewindTail
    | ClearValue
    | Release(k: int)

  predicate Enabled(s: State, op: Op) {
    && Ok(s)
    && match op
       case Grow(garbage) => s.stage.Quiet? && Full(s) && garbage != [] && |s.ring| + |garbage| == s.nextCapacity
       case StoreKey => s.stage.Quiet? && HasRoom(s)
       case StoreTail => s.stage.Keyed? && s.headers != []
       case StoreValue(_) => s.stage.Taken?
       case RewindTail => s.stage.Taken? && s.headers != []
       case ClearValue => s.stage.Unwound?
       case Release(k) => k in s.live
  }

  function Apply(s: State, op: Op): State
    requires Enabled(s, op)
  {
    match op
    case Grow(garbage) => Grown(s, garbage)
    case StoreKey => AfterKey(s)
    case StoreTail => AfterTail(s)
    case StoreValue(b) => AfterValue(s, b)
    case RewindTail => AfterRewind(s)
    case ClearValue => AfterClear(s)
    case Release(k) => Released(s, k)
  }

  lemma {:induction false} ApplyOk(s: State, op: Op)
    requires Enabled(s, op)
    ensures Ok(Apply(s, op))
  {
    match op
    case Grow(garbage) => GrownOk(s, garbage);
    case StoreKey => AfterKeyOk(s);
    case StoreTail => AfterTailOk(s);
    case StoreValue(b) => AfterValueOk(s, b);
    case RewindTail => AfterRewindOk(s);
    case ClearValue => AfterClearOk(s);
    case Release(k) => ReleasedOk(s, k);
  }

  // ---------------------------------------------------------------------------------------------
  // Lookups that overlap with any number of stores

  /**
   What a consumer has loaded: the header, also that header's tail, or the slot of a block in that header, which it
   computed from the key at that tail or from the slot of the block before.
   */
  datatype Reader = HaveHeader(header: nat) | HaveTail(header: nat, tail: nat) | HaveSlot(header: nat, slot: nat)

  /** One past the last block that a header has. */
  function Limit(s: State, header: nat): int
    requires header < |s.headers| == |s.places|
  {
    if header == |s.headers| - 1 then s.hi else s.places[header].limit
  }

  /** The block whose slot in a header is `tail`. */
  function BlockAt(s: State, header: nat, tail: int): int
    requires header < |s.headers| == |s.places|
  {
    s.lo + Wrap(tail - s.places[header].start, s.headers[header].capacity)
  }

  /**
   A reader on its way to the entry of block k, and from there to the entries of the blocks up to `last`, can get
   there through its header.  The slot it holds may be that of a block whose entry has been reused.
   */
  predicate ReaderOk(s: State, r: Reader, k: int, last: int) {
    && r.header < |s.headers| == |s.places| && k <= last < Limit(s, r.header)
    && match r
       case HaveHeader(_) => s.lo <= k
       case HaveTail(header, tail) =>
         s.lo <= k && tail < s.headers[header].capacity && k <= BlockAt(s, header, tail) < Limit(s, header)
       case HaveSlot(header, slot) =>
         s.lo - 1 <= k && slot == Wrap(s.places[header].start + k - s.lo, s.headers[header].capacity)
  }

  /** The blocks that the reader still needs are live; one that holds a slot may be done with that slot's block. */
  predicate Awaited(s: State, r: Reader, k: int, last: int) {
    last in s.live && (k in s.live || (r.HaveSlot? && k + 1 in s.live))
  }

  lemma {:induction false} HeaderRange(s: State, header: nat)
    requires Bounds(s) && Published(s) && header < |s.headers|
    ensures 0 <= s.places[header].start < s.headers[header].capacity == |s.headers[header].index|
    ensures PowerOfTwo(s.headers[header].capacity)
    ensures Limit(s, header) <= s.hi && Limit(s, header) - s.lo <= s.headers[header].capacity
  {
    if header < |s.headers| - 1 {
      assert StaleOk(s.headers[header], s.places[header], s.ring, s.lo, s.hi);
    }
  }

  /** The oldest block and its slot move on together. */
  lemma {:induction false} SlotTurns(start: int, cap: int, i: int)
    requires 0 <= start < cap && 0 <= i <= cap
    ensures Wrap(Wrap(start + 1, cap) + i - 1, cap) == Wrap(start + i, cap)
  {
  }

  lemma {:induction false} TailTurns(start: int, cap: int, tail: int)
    requires 0 <= start < cap && 0 <= tail < cap && Wrap(tail - start, cap) >= 1
    ensures Wrap(tail - Wrap(start + 1, cap), cap) == Wrap(tail - start, cap) - 1
  {
  }

  lemma {:induction false} TurnKeepsReader(s: State, s': State, r: Reader, k: int, last: int)
    requires ReaderOk(s, r, k, last) && s'.headers == s.headers && |s'.places| == |s.headers|
    requires 0 <= s.places[r.header].start < s.headers[r.header].capacity
    requires s'.places[r.header].start == Wrap(s.places[r.header].start + 1, s.headers[r.header].capacity)
    requires s'.lo == s.lo + 1 && Limit(s, r.header) <= Limit(s', r.header) && k - s.lo < s.headers[r.header].capacity
    requires if r.HaveSlot? then s.lo <= k else s.lo < k
    ensures ReaderOk(s', r, k, last)
  {
    match r
    case HaveHeader(_) =>
    case HaveTail(header, tail) => TailTurns(s.places[header].start, s.headers[header].capacity, tail);
    case HaveSlot(header, _) => SlotTurns(s.places[header].start, s.headers[header].capacity, k - s.lo);
  }

  /** Tails and values do not matter to a reader that has loaded its tail. */
  lemma {:induction false} SameKeepsReader(s: State, s': State, r: Reader, k: int, last: int)
    requires ReaderOk(s, r, k, last) && |s'.headers| == |s.headers| && s'.places == s.places
    requires s'.headers[r.header].capacity == s.headers[r.header].capacity && s'.lo == s.lo && s'.hi >= s.hi
    ensures ReaderOk(s', r, k, last)
  {
  }

  lemma {:induction false} KeyKeepsReader(s: State, s': State, r: Reader, k: int, last: int)
    requires Bounds(s) && Published(s) && s.headers != [] && ReaderOk(s, r, k, last)
    requires s'.headers == s.headers && s'.hi >= s.hi
    requires if s.next < s.lo + |s.ring| then s'.places == s.places && s'.lo == s.lo
             else s'.places == Moved(s.headers, s.places) && s'.lo == s.lo + 1
    requires if r.HaveSlot? then s'.lo <= k + 1 else s'.lo <= k
    ensures ReaderOk(s', r, k, last)
  {
    HeaderRange(s, r.header);
    if s.next < s.lo + |s.ring| {
      SameKeepsReader(s, s', r, k, last);
    } else {
      TurnKeepsReader(s, s', r, k, last);
    }
  }

  lemma {:induction false} GrowKeepsReader(s: State, garbage: seq<Option<BlockId>>, r: Reader, k: int, last: int)
    requires Bounds(s) && Published(s) && ReaderOk(s, r, k, last) && Full(s) && last < s.next
    ensures ReaderOk(Grown(s, garbage), r, k, last)
  {
  }

  /** Whatever the producer and the other consumers do, a reader stays on its way as long as its blocks are live. */
  lemma {:induction false} ApplyKeepsReader(s: State, op: Op, r: Reader, k: int, last: int)
    requires Enabled(s, op) && ReaderOk(s, r, k, last)
    requires Awaited(s, r, k, last) && Awaited(Apply(s, op), r, k, last)
    ensures ReaderOk(Apply(s, op), r, k, last)
  {
    match op
    case Grow(garbage) => GrowKeepsReader(s, garbage, r, k, last);
    case StoreKey =>
      AfterKeyOk(s);
      KeyKeepsReader(s, AfterKey(s), r, k, last);
    case _ => SameKeepsReader(s, Apply(s, op), r, k, last);
  }

  /** Loading the current header starts a lookup of any live block. */
  lemma {:induction false} ReaderStarts(s: State, k: int, last: int)
    requires Ok(s) && s.headers != [] && k <= last && k in s.live && last in s.live
    ensures ReaderOk(s, HaveHeader(|s.headers| - 1), k, last)
  {
  }

  /** Loading the tail of the header the reader holds, current or not. */
  lemma {:induction false} ReaderLoadsTail(s: State, header: nat, k: int, last: int)
    requires Ok(s) && ReaderOk(s, HaveHeader(header), k, last) && k in s.live
    ensures ReaderOk(s, HaveTail(header, s.headers[header].tail), k, last)
  {
    if header < |s.headers| - 1 {
      assert StaleOk(s.headers[header], s.places[header], s.ring, s.lo, s.hi);
    }
  }

  /** A block below a header's limit has its entry in its slot there. */
  lemma {:induction false} EntryInSlot(s: State, header: nat, i: int)
    requires Ok(s) && header < |s.headers| && s.lo <= i < Limit(s, header)
    ensures var h, p := s.headers[header], s.places[header];
      && 0 <= Wrap(p.start + i - s.lo, h.capacity) < |h.index| == h.capacity
      && PowerOfTwo(h.capacity) && 0 <= p.start < h.capacity && i - s.lo < h.capacity && Limit(s, header) <= s.hi
      && var e := h.index[Wrap(p.start + i - s.lo, h.capacity)];
         e == EntryOf(s, i) && e < |s.keys| == |s.values| && s.keys[e] == i * BLOCK_SIZE
  {
    var h, p := s.headers[header], s.places[header];
    HeaderRange(s, header);
    if header < |s.headers| - 1 {
      assert StaleOk(h, p, s.ring, s.lo, s.hi);
    }
    assert At(h, p.start, i - s.lo) == s.ring[i - s.lo];
  }

  /** The slot that a lookup of block k computes from a key that it loaded at a tail. */
  function SlotFrom(tail: int, tailBase: int, k: int, capacity: int): nat
    requires capacity > 0
  {
    And(tail + (k * BLOCK_SIZE - tailBase) / BLOCK_SIZE, capacity - 1)
  }

  /** Positions relative to block lo and slots of the ring are the same thing. */
  lemma {:induction false} Positions(start: int, cap: int, lo: int, tail: int, k: int)
    requires 0 <= start < cap && 0 <= tail < cap && lo <= k < lo + cap
    ensures var at := lo + Wrap(tail - start, cap);
      && lo <= at < lo + cap && Wrap(start + at - lo, cap) == tail && -cap <= tail + (k - at) < 2 * cap
      && Wrap(tail + (k - at), cap) == Wrap(start + k - lo, cap)
  {
  }

  lemma {:induction false} ExactOffset(k: int, at: int)
    ensures (k * BLOCK_SIZE - at * BLOCK_SIZE) / BLOCK_SIZE == k - at && at * BLOCK_SIZE != INVALID_BLOCK_BASE
  {
  }

  /** The key at that tail is that of a block, even if the tail has moved since, back or forth. */
  lemma {:induction false} KeyAtTail(s: State, header: nat, tail: nat, k: int, last: int)
    requires Ok(s) && ReaderOk(s, HaveTail(header, tail), k, last)
    ensures var h := s.headers[header];
      && tail < |h.index| && h.index[tail] < |s.keys|
      && s.keys[h.index[tail]] == BlockAt(s, header, tail) * BLOCK_SIZE
  {
    HeaderRange(s, header);
    Positions(s.places[header].start, s.headers[header].capacity, s.lo, tail, k);
    EntryInSlot(s, header, BlockAt(s, header, tail));
  }

  lemma {:induction false} SlotComputed(s: State, header: nat, tail: nat, k: int, last: int)
    requires Bounds(s) && Published(s) && ReaderOk(s, HaveTail(header, tail), k, last)
    ensures s.headers[header].capacity > 0
    ensures var slot := SlotFrom(tail, BlockAt(s, header, tail) * BLOCK_SIZE, k, s.headers[header].capacity);
      ReaderOk(s, HaveSlot(header, slot), k, last)
  {
    var at := BlockAt(s, header, tail);
    HeaderRange(s, header);
    Positions(s.places[header].start, s.headers[header].capacity, s.lo, tail, k);
    ExactOffset(k, at);
    MaskWraps(tail + (k - at), s.headers[header].capacity);
    assert SlotFrom(tail, at * BLOCK_SIZE, k, s.headers[header].capacity)
        == Wrap(s.places[header].start + k - s.lo, s.headers[header].capacity);
  }

  /** Loading the key at that tail and computing the slot from it. */
  lemma {:induction false} ReaderLoadsKey(s: State, header: nat, tail: nat, k: int, last: int)
    requires Ok(s) && ReaderOk(s, HaveTail(header, tail), k, last)
    ensures var h := s.headers[header];
      && tail < |h.index| && h.index[tail] < |s.keys| && h.capacity > 0
      && var tailBase := s.keys[h.index[tail]];
         tailBase != INVALID_BLOCK_BASE
         && ReaderOk(s, HaveSlot(header, SlotFrom(tail, tailBase, k, h.capacity)), k, last)
  {
    KeyAtTail(s, header, tail, k, last);
    SlotComputed(s, header, tail, k, last);
    ExactOffset(k, BlockAt(s, header, tail));
  }

  /** The entry in the slot of a live block has the block's base as its key and the block as its value. */
  lemma {:induction false} SlotFinds(s: State, header: nat, slot: nat, k: int, last: int)
    requires Ok(s) && ReaderOk(s, HaveSlot(header, slot), k, last) && k in s.live
    ensures slot < |s.headers[header].index|
    ensures var entry := s.headers[header].index[slot];
      && entry == EntryOf(s, k) && entry < |s.keys| == |s.values|
      && s.keys[entry] == k * BLOCK_SIZE && s.values[entry] == Some(s.live[k])
  {
    EntryInSlot(s, header, k);
    assert s.values[s.ring[k - s.lo]] == Some(s.live[k]);
  }

  lemma {:induction false} NextPosition(start: int, cap: int, i: int)
    requires 0 <= start < cap && -1 <= i && i + 1 < cap
    ensures 0 <= Wrap(start + i, cap) < cap
    ensures Wrap(Wrap(start + i, cap) + 1, cap) == Wrap(start + (i + 1), cap)
  {
  }

  /** dequeue_bulk goes on to the next block inside the header that it loaded at its start, replaced or not. */
  lemma {:induction false} ReaderMovesOn(s: State, header: nat, slot: nat, k: int, last: int)
    requires Bounds(s) && Published(s) && ReaderOk(s, HaveSlot(header, slot), k, last) && k < last
    ensures s.headers[header].capacity > 0
    ensures ReaderOk(s, HaveSlot(header, And(slot + 1, s.headers[header].capacity - 1)), k + 1, last)
  {
    var cap := s.headers[header].capacity;
    HeaderRange(s, header);
    NextPosition(s.places[header].start, cap, k - s.lo);
    MaskWraps(slot + 1, cap);
  }

  predicate IsRun(run: seq<State>, ops: seq<Op>) {
    && |run| == |ops| + 1
    && forall i :: 0 <= i < |ops| ==> Happens(run, ops, i)
  }

  /** Step number i of a run. */
  predicate Happens(run: seq<State>, ops: seq<Op>, i: nat) {
    i < |ops| && i + 1 < |run| && Enabled(run[i], ops[i]) && run[i + 1] == Apply(run[i], ops[i])
  }

  /** A reader whose blocks stay live is on its way to their entries at the end of any run of stores. */
  lemma {:induction false} RunKeepsReader(run: seq<State>, ops: seq<Op>, r: Reader, k: int, last: int)
    requires IsRun(run, ops) && Ok(run[0]) && ReaderOk(run[0], r, k, last)
    requires forall i :: 0 <= i < |run| ==> Awaited(run[i], r, k, last)
    ensures Ok(run[|ops|]) && ReaderOk(run[|ops|], r, k, last)
  {
    if ops != [] {
      var n := |ops| - 1;
      var front, past := run[..n + 1], ops[..n];
      forall i | 0 <= i < n
        ensures Happens(front, past, i)
      {
        assert Happens(run, ops, i);
      }
      RunKeepsReader(front, past, r, k, last);
      assert Happens(run, ops, n);
      ApplyOk(run[n], ops[n]);
      ApplyKeepsReader(run[n], ops[n], r, k, last);
    }
  }

  // ---------------------------------------------------------------------------------------------
  // The object

  /** What insertion tests of the entry behind the tail says whether there is room. */
  lemma {:induction false} NextEntryFree(s: State)
    requires Ok(s) && s.stage.Quiet? && s.headers != []
    ensures NextEntry(s) < |s.keys| == |s.values|
    ensures (s.keys[NextEntry(s)] == INVALID_BLOCK_BASE || s.values[NextEntry(s)] == None) <==> HasRoom(s)
    ensures !HasRoom(s) ==> Full(s)
  {
    var i := if s.next < s.lo + |s.ring| then s.next - s.lo else 0;
    assert s.ring[i] == NextEntry(s);
  }

  /** A successful insertion, growing the ring first when it has no room. */
  ghost predicate Inserts(s: State, s': State) {
    if HasRoom(s) then InsertsInto(s, s') else exists garbage :: GrowsAndInserts(s, garbage, s')
  }

  ghost predicate InsertsInto(s: State, s': State) {
    Enabled(s, StoreKey) && Enabled(AfterKey(s), StoreTail) && s' == AfterTail(AfterKey(s))
  }

  ghost predicate GrowsAndInserts(s: State, garbage: seq<Option<BlockId>>, s': State) {
    Enabled(s, Grow(garbage)) && InsertsInto(Grown(s, garbage), s')
  }

  lemma {:induction false} InsertsIntoTakenBack(s: State, s': State)
    requires InsertsInto(s, s')
    ensures Enabled(s', RewindTail) && Enabled(AfterRewind(s'), ClearValue)
    ensures var u := AfterClear(AfterRewind(s'));
      Ok(u) && u.stage.Quiet? && u.live == s.live && u.next == s.next && HasRoom(u)
  {
    AfterKeyOk(s);
    AfterTailOk(AfterKey(s));
    AfterRewindOk(s');
    AfterClearOk(AfterRewind(s'));
  }

  /** Without a block, the rewind and the store of null take the insertion back: the same blocks are in the index. */
  lemma {:induction false} InsertionTakenBack(s: State, s': State)
    requires Ok(s) && s.stage.Quiet? && Inserts(s, s')
    ensures Enabled(s', RewindTail) && Enabled(AfterRewind(s'), ClearValue)
    ensures var u := AfterClear(AfterRewind(s'));
      Ok(u) && u.stage.Quiet? && u.live == s.live && u.next == s.next && HasRoom(u)
  {
    if HasRoom(s) {
      InsertsIntoTakenBack(s, s');
    } else {
      var garbage :| GrowsAndInserts(s, garbage, s');
      InsertsIntoTakenBack(Grown(s, garbage), s');
    }
  }

  /** The entry is that of the block inserted last. */
  predicate IsLast(s: State, entry: EntryId) {
    s.lo < s.next <= s.lo + |s.ring| && entry == EntryOf(s, s.next - 1)
  }

  /** The entry that takes the key is that of the new block. */
  lemma {:induction false} KeyedEntry(s: State)
    requires Bounds(s) && s.ring != [] && Ok(s) && s.headers != []
    ensures var s' := AfterKey(s);
      && s'.headers == s.headers && s'.next == s.next && s'.stage.Keyed?
      && s'.lo <= s.next < s'.lo + |s'.ring| && NextEntry(s) == EntryOf(s', s.next)
  {
  }

  lemma {:induction false} TailEntry(s: State, entry: EntryId)
    requires Ok(s) && s.headers != [] && s.stage.Keyed?
    requires s.lo <= s.next < s.lo + |s.ring| && entry == EntryOf(s, s.next)
    ensures IsLast(AfterTail(s), entry)
  {
  }

  lemma {:induction false} InsertedFacts(s: State, entry: EntryId)
    requires Enabled(s, StoreKey) && entry == NextEntry(s)
    ensures Enabled(AfterKey(s), StoreTail) && AfterKey(s).headers == s.headers
    ensures InsertsInto(s, AfterTail(AfterKey(s))) && IsLast(AfterTail(AfterKey(s)), entry)
  {
    AfterKeyOk(s);
    KeyedEntry(s);
    TailEntry(AfterKey(s), entry);
  }

  lemma {:induction false} GrownHasRoom(s: State, garbage: seq<Option<BlockId>>)
    requires Enabled(s, Grow(garbage))
    ensures HasRoom(Grown(s, garbage)) && Grown(s, garbage).stage.Quiet? && Grown(s, garbage).next == s.next
  {
  }

  /** What the copying and the filling loop build. */
  lemma {:induction false} GrownFields(s: State, garbage: seq<Option<BlockId>>, keys': seq<int>,
                                       values': seq<Option<BlockId>>, added: seq<EntryId>, h: Header)
    requires s.nextCapacity > 0 && |added| == |garbage| && forall i :: 0 <= i < |added| ==> added[i] == |s.keys| + i
    requires keys' == s.keys + Repeat(INVALID_BLOCK_BASE, |garbage|) && values' == s.values + garbage
    requires h == Header(s.nextCapacity, s.ring + added, if s.ring == [] then s.nextCapacity - 1 else |s.ring| - 1)
    ensures var s' := Grown(s, garbage);
      && s'.keys == keys' && s'.values == values' && s'.headers == s.headers + [h]
      && s'.nextCapacity == 2 * s.nextCapacity
  {
    assert added == Fresh(|s.keys|, |garbage|);
  }

  class Index {
    var keys: seq<int>
    var values: seq<Option<BlockId>>
    var headers: seq<Header>                  // all headers published so far; blockIndex points to the last one
    var nextBlockIndexCapacity: nat
    ghost var ghostState: State               // agrees with the fields above, and adds the proof-only parts

    ghost predicate Valid()
      reads this
    {
      && Ok(ghostState)
      && keys == ghostState.keys && values == ghostState.values && headers == ghostState.headers
      && nextBlockIndexCapacity == ghostState.nextCapacity
    }

    /** The producer's constructor, before its first call of NewBlockIndex. */
    constructor (initial: nat)
      requires initial > 1 && PowerOfTwo(initial)
      ensures Valid() && ghostState == Empty(initial)
    {
      keys, values, headers, nextBlockIndexCapacity := [], [], [], initial;
      ghostState := Empty(initial);
    }

    /** The entries that a new header takes over, the capacity they come from, and how many it adds. */
    method OldEntries() returns (index: seq<EntryId>, prevCapacity: int, entryCount: nat)
      requires Valid() && Full(ghostState)
      ensures index == ghostState.ring && prevCapacity == |index| && |index| + entryCount == nextBlockIndexCapacity
      ensures entryCount > 0
    {
      if headers == [] {
        return [], 0, nextBlockIndexCapacity;
      }
      var prev := headers[|headers| - 1];
      index := CopyRing(prev, ghostState.Start(), ghostState.ring, ghostState.lo);
      return index, prev.capacity, prev.capacity;
    }

    /** new_block_index, called when every entry is in use; `malloc` says whether the allocation succeeds. */
    method NewBlockIndex(malloc: bool) returns (ok: bool, ghost garbage: seq<Option<BlockId>>)
      requires Valid() && ghostState.stage.Quiet? && Full(ghostState)
      modifies this
      ensures Valid() && ok == malloc
      ensures !ok ==> unchanged(this)
      ensures ok ==> Enabled(old(ghostState), Grow(garbage)) && ghostState == Grown(old(ghostState), garbage)
    {
      if !malloc {
        return false, [];
      }
      var index, prevCapacity, entryCount := OldEntries();
      var tail := Mask(prevCapacity - 1, nextBlockIndexCapacity);
      var keys', values', added := NewEntries(keys, values, entryCount);
      garbage := values'[|values|..];
      var header := Header(nextBlockIndexCapacity, index + added, tail);
      GrownFields(ghostState, garbage, keys', values', added, header);
      GrownOk(ghostState, garbage);
      keys, values := keys', values';
      headers := headers + [header];
      nextBlockIndexCapacity := 2 * nextBlockIndexCapacity;
      ghostState := Grown(ghostState, garbage);
      ok := true;
    }

    method StoreKeyOf(idxEntry: EntryId, blockStartIndex: int)
      requires Valid() && Enabled(ghostState, StoreKey)
      requires blockStartIndex == ghostState.next * BLOCK_SIZE && idxEntry == NextEntry(ghostState)
      modifies `keys, `ghostState
      ensures Valid() && ghostState == AfterKey(old(ghostState))
    {
      AfterKeyOk(ghostState);
      KeyedEntry(ghostState);
      keys := keys[idxEntry := blockStartIndex];
      ghostState := AfterKey(ghostState);
    }

    method StoreTailOf(newTail: nat)
      requires Valid() && Enabled(ghostState, StoreTail)
      requires newTail == Wrap(headers[|headers| - 1].tail + 1, headers[|headers| - 1].capacity)
      modifies `headers, `ghostState
      ensures Valid() && ghostState == AfterTail(old(ghostState))
    {
      AfterTailOk(ghostState);
      headers := headers[|headers| - 1 := headers[|headers| - 1].(tail := newTail)];
      ghostState := AfterTail(ghostState);
    }

    /** The key and tail stores that end insert_block_index_entry. */
    method TakeSlot(newTail: nat, idxEntry: EntryId, blockStartIndex: int)
      requires Valid() && Enabled(ghostState, StoreKey)
      requires blockStartIndex == ghostState.next * BLOCK_SIZE && idxEntry == NextEntry(ghostState)
      requires newTail == Wrap(headers[|headers| - 1].tail + 1, headers[|headers| - 1].capacity)
      modifies `keys, `headers, `ghostState
      ensures Valid() && InsertsInto(old(ghostState), ghostState) && IsLast(ghostState, idxEntry)
    {
      InsertedFacts(ghostState, idxEntry);
      StoreKeyOf(idxEntry, blockStartIndex);
      StoreTailOf(newTail);
    }

    /** The slot behind the tail, and its entry. */
    method FindNextSlot() returns (newTail: nat, idxEntry: EntryId)
      requires Valid() && ghostState.stage.Quiet? && headers != []
      ensures newTail == Wrap(headers[|headers| - 1].tail + 1, headers[|headers| - 1].capacity)
      ensures idxEntry == NextEntry(ghostState) && idxEntry < |keys| == |values|
      ensures (keys[idxEntry] == INVALID_BLOCK_BASE || values[idxEntry] == None) <==> HasRoom(ghostState)
      ensures !HasRoom(ghostState) ==> Full(ghostState)
    {
      var h := headers[|headers| - 1];
      NextSlot(h, ghostState.Start(), ghostState.ring, ghostState.lo, ghostState.next);
      newTail := Mask(h.tail + 1, h.capacity);
      idxEntry := h.index[newTail];
      NextEntryFree(ghostState);
    }

    /** insert_block_index_entry; `canAlloc` is its template parameter, `malloc` whether an allocation succeeds. */
    method InsertBlockIndexEntry(blockStartIndex: int, canAlloc: bool, malloc: bool)
      returns (ok: bool, idxEntry: EntryId)
      requires Valid() && ghostState.stage.Quiet? && blockStartIndex == ghostState.next * BLOCK_SIZE
      modifies this
      ensures Valid()
      ensures ok == (old(headers) != [] && (HasRoom(old(ghostState)) || (canAlloc && malloc)))
      ensures !ok ==> unchanged(this)
      ensures ok ==> Inserts(old(ghostState), ghostState) && IsLast(ghostState, idxEntry)
    {
      if headers == [] {
        return false, 0;
      }
      var newTail;
      newTail, idxEntry := FindNextSlot();
      if keys[idxEntry] == INVALID_BLOCK_BASE || values[idxEntry] == None {
        TakeSlot(newTail, idxEntry, blockStartIndex);
        return true, idxEntry;
      }
      if !canAlloc {
        return false, 0;
      }
      ok, idxEntry := InsertInNewIndex(blockStartIndex, malloc);
    }

    /** No room in the old block index, try to allocate another one. */
    method InsertInNewIndex(blockStartIndex: int, malloc: bool) returns (ok: bool, idxEntry: EntryId)
      requires Valid() && ghostState.stage.Quiet? && blockStartIndex == ghostState.next * BLOCK_SIZE
      requires headers != [] && Full(ghostState) && !HasRoom(ghostState)
      modifies this
      ensures Valid() && ok == malloc
      ensures !ok ==> unchanged(this)
      ensures ok ==> Inserts(old(ghostState), ghostState) && IsLast(ghostState, idxEntry)
    {
      ghost var garbage;
      ok, garbage := NewBlockIndex(malloc);
      idxEntry := 0;
      if ok {
        GrownHasRoom(old(ghostState), garbage);
        var newTail;
        newTail, idxEntry := FindNextSlot();
        TakeSlot(newTail, idxEntry, blockStartIndex);
        assert GrowsAndInserts(old(ghostState), garbage, ghostState);
      }
    }

    /** The producer stores the block it found into the entry it inserted. */
    method StoreBlock(idxEntry: EntryId, block: BlockId)
      requires Valid() && ghostState.stage.Taken? && IsLast(ghostState, idxEntry)
      modifies this
      ensures Valid() && ghostState == AfterValue(old(ghostState), block)
      ensures ghostState.live == old(ghostState).live[ghostState.next - 1 := block]
    {
      AfterValueOk(ghostState, block);
      ghostState := AfterValue(ghostState, block);
      values := values[idxEntry := Some(block)];
    }

    /** No block was found: rewind_block_index_tail. */
    method RewindBlockIndexTail(ghost idxEntry: EntryId)
      requires Valid() && Enabled(ghostState, RewindTail) && IsLast(ghostState, idxEntry)
      modifies this
      ensures Valid() && ghostState == AfterRewind(old(ghostState))
      ensures ghostState.live == old(ghostState).live && ghostState.next == old(ghostState).next - 1
      ensures ghostState.stage.Unwound? && ghostState.next < ghostState.lo + |ghostState.ring|
        && idxEntry == EntryOf(ghostState, ghostState.next)
    {
      AfterRewindOk(ghostState);
      var h := headers[|headers| - 1];
      var newTail := Mask(h.tail - 1, h.capacity);
      headers := headers[|headers| - 1 := h.(tail := newTail)];
      ghostState := AfterRewind(ghostState);
    }

    /** Then the entry is cleared. */
    method ClearEntry(idxEntry: EntryId)
      requires Valid() && ghostState.stage.Unwound? && idxEntry == EntryOf(ghostState, ghostState.next)
      modifies this
      ensures Valid() && ghostState == AfterClear(old(ghostState)) && ghostState.stage.Quiet?
      ensures ghostState.live == old(ghostState).live && ghostState.next == old(ghostState).next
    {
      AfterClearOk(ghostState);
      ghostState := AfterClear(ghostState);
      values := values[idxEntry := None];
    }

    /** A consumer that emptied block k clears its entry. */
    method ReleaseEntry(idxEntry: EntryId, ghost k: int)
      requires Valid() && k in ghostState.live && idxEntry == EntryOf(ghostState, k)
      modifies this
      ensures Valid() && ghostState == Released(old(ghostState), k)
      ensures ghostState.live == old(ghostState).live - {k}
    {
      ReleasedOk(ghostState, k);
      ghostState := Released(ghostState, k);
      values := values[idxEntry := None];
    }

    /** get_block_index_index_for_index, for an index in a live block; the division is exact. */
    method GetBlockIndexIndexForIndex(index: nat) returns (idx: nat)
      requires Valid() && headers != [] && index / BLOCK_SIZE in ghostState.live
      ensures ReaderOk(ghostState, HaveSlot(|headers| - 1, idx), index / BLOCK_SIZE, index / BLOCK_SIZE)
    {
      ghost var k := index / BLOCK_SIZE;
      var base := index - index % BLOCK_SIZE;
      ReaderStarts(ghostState, k, k);
      ReaderLoadsTail(ghostState, |headers| - 1, k, k);
      var h := headers[|headers| - 1];
      ReaderLoadsKey(ghostState, |headers| - 1, h.tail, k, k);
      var tailBase := keys[h.index[h.tail]];
      idx := And(h.tail + (base - tailBase) / BLOCK_SIZE, h.capacity - 1);
    }

    /** get_block_index_entry_for_index. */
    method GetBlockIndexEntryForIndex(index: nat) returns (entry: EntryId)
      requires Valid() && headers != [] && index / BLOCK_SIZE in ghostState.live
      ensures entry < |keys| == |values|
      ensures keys[entry] == index - index % BLOCK_SIZE && values[entry] == Some(ghostState.live[index / BLOCK_SIZE])
    {
      var idx := GetBlockIndexIndexForIndex(index);
      SlotFinds(ghostState, |headers| - 1, idx, index / BLOCK_SIZE, index / BLOCK_SIZE);
      entry := headers[|headers| - 1].index[idx];
    }
  }
}
