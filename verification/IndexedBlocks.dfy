/**
 The implicit producer as a whole: the machine of Blocks with its block index replaced by the structure of BlockIndex
 (include/data_structure/concurrentqueue.h, ImplicitProducer::enqueue, dequeue, dequeue_bulk).

 A consumer loads the header, its tail and the key there, computes the slot of its first block, and loads the value in
 that slot; for every further block of a bulk dequeue it goes on to the next slot of the header it loaded at first.
 The producer inserts the entry of a new block in several stores before it asks for the block.  All these accesses are
 steps that interleave.  The map `entry` of Blocks is not looked at any more: it becomes an abstraction of the index,
 and every step is a step of Blocks or leaves the state of Blocks as it is.
 */
module IndexedBlocks {
  import opened Common
  import Tickets
  import Blocks
  import BlockIndex

  type ThreadId = Blocks.ThreadId
  type BlockId = Blocks.BlockId
  type Element = Blocks.Element

  const BLOCK_SIZE: nat := Blocks.BLOCK_SIZE

  /** What a consumer has loaded for its current block. */
  datatype Lookup = NoHeader | Reading(reader: BlockIndex.Reader)

  datatype State = State(
    b: Blocks.State,
    x: BlockIndex.State,
    lookups: seq<Lookup>,
    entering: Option<Element>)          // the producer is inserting an index entry for the block of this element

  datatype Event =
    | BeginEnqueue(element: Element)
    | GrowIndex(garbage: seq<Option<BlockIndex.BlockId>>)
    | StoreKey
    | StoreTail
    | FailEnqueue                       // no room in the index, and no larger one
    | Produce(choice: Option<BlockId>)
    | ClearValue                        // the store of null after a rewind
    | BeginDequeue(thread: ThreadId, max: nat)
    | Consume(thread: ThreadId)

  predicate Requisitioning(p: Blocks.Producer) { p.Requisition? || p.Reset? || p.Link? }

  predicate WellFormed(c: State) {
    && Blocks.WellFormed(c.b) && BlockIndex.Ok(c.x) && c.x.headers != [] && |c.lookups| == |c.b.work|
    && (Requisitioning(c.b.producer) ==> c.x.stage.Taken?)
  }

  predicate Enabled(c: State, e: Event)
    requires WellFormed(c)
  {
    match e
    case BeginEnqueue(_) => c.b.producer.Ready? && c.entering.None? && c.x.stage.Quiet?
    case GrowIndex(garbage) => c.entering.Some? && BlockIndex.Enabled(c.x, BlockIndex.Grow(garbage))
    case StoreKey => c.entering.Some? && BlockIndex.Enabled(c.x, BlockIndex.StoreKey)
    case StoreTail => c.entering.Some? && c.x.stage.Keyed? && c.b.producer.Ready?
    case FailEnqueue => c.entering.Some? && c.x.stage.Quiet? && !BlockIndex.HasRoom(c.x)
    case Produce(choice) => Blocks.Enabled(c.b, Blocks.Produce(choice))
    case ClearValue => c.x.stage.Unwound?
    case BeginDequeue(t, max) => Blocks.Enabled(c.b, Blocks.BeginDequeue(t, max))
    case Consume(t) => Blocks.Enabled(c.b, Blocks.Consume(t))
  }

  function Apply(c: State, e: Event): State
    requires WellFormed(c) && Enabled(c, e)
  {
    match e
    case BeginEnqueue(x) =>
      if Blocks.Offset(c.b.tickets.tail) == 0 then c.(entering := Some(x))
      else c.(b := Blocks.Apply(c.b, Blocks.BeginEnqueue(x)))
    case GrowIndex(garbage) => c.(x := BlockIndex.Grown(c.x, garbage))
    case StoreKey => c.(x := BlockIndex.AfterKey(c.x))
    case StoreTail =>
      c.(x := BlockIndex.AfterTail(c.x), b := Blocks.Apply(c.b, Blocks.BeginEnqueue(c.entering.value)),
         entering := None)
    case FailEnqueue => c.(entering := None)
    case Produce(choice) => c.(b := Blocks.Apply(c.b, Blocks.Produce(choice)), x := IndexOfProducer(c, choice))
    case ClearValue => c.(x := BlockIndex.AfterClear(c.x))
    case BeginDequeue(t, max) => c.(b := Blocks.Apply(c.b, Blocks.BeginDequeue(t, max)))
    case Consume(t) =>
      if c.b.tickets.pcs[t].Holding? then WorkStep(c, t)
      else c.(b := Blocks.TicketStep(c.b, t), lookups := c.lookups[t := NoHeader])
  }

  /** Without a block the index tail is rewound; a block that is ready is stored in its entry. */
  function IndexOfProducer(c: State, choice: Option<BlockId>): BlockIndex.State
    requires WellFormed(c)
  {
    if c.b.producer.Requisition? && choice.None? then BlockIndex.AfterRewind(c.x)
    else if c.b.producer.Link? then BlockIndex.AfterValue(c.x, c.b.producer.block)
    else c.x
  }

  function WorkStep(c: State, t: ThreadId): State
    requires WellFormed(c) && Enabled(c, Consume(t)) && c.b.tickets.pcs[t].Holding?
  {
    match c.b.work[t].at
    case Find => LookupStep(c, t)
    case Release(_, start) => ReleaseEntry(c, t, start)
    case _ =>
      var b' := Blocks.WorkStep(c.b, t);
      c.(b := b', lookups := c.lookups[t := NextLookup(c, b'.work[t], c.lookups[t])])
  }

  function Faulty(c: State): State { c.(b := c.b.(fault := true)) }

  /** get_block_index_index_for_index, load by load, and then the load of the value. */
  function LookupStep(c: State, t: ThreadId): State
    requires WellFormed(c) && t < |c.lookups| && c.b.work[t].Working?
  {
    match c.lookups[t]
    case NoHeader => c.(lookups := c.lookups[t := Reading(BlockIndex.HaveHeader(|c.x.headers| - 1))])
    case Reading(r) =>
      if r.header >= |c.x.headers| then Faulty(c)
      else
        var h := c.x.headers[r.header];
        match r
        case HaveHeader(n) => c.(lookups := c.lookups[t := Reading(BlockIndex.HaveTail(n, h.tail))])
        case HaveTail(n, tail) =>
          if tail < |h.index| && h.index[tail] < |c.x.keys| && h.capacity > 0
             && c.x.keys[h.index[tail]] != BlockIndex.INVALID_BLOCK_BASE then
            var slot := BlockIndex.SlotFrom(tail, c.x.keys[h.index[tail]], Block(c.b.work[t].cur), h.capacity);
            c.(lookups := c.lookups[t := Reading(BlockIndex.HaveSlot(n, slot))])
          else Faulty(c)
        case HaveSlot(_, slot) =>
          if slot < |h.index| && h.index[slot] < |c.x.values| && c.x.values[h.index[slot]].Some? then
            c.(b := Found(c.b, t, c.x.values[h.index[slot]].value))
          else Faulty(c)
  }

  /** The consumer has its block. */
  function Found(b: Blocks.State, t: ThreadId, block: BlockId): Blocks.State
    requires t < |b.work| && b.work[t].Working?
  {
    var w := b.work[t];
    b.(work := b.work[t := w.(at := Blocks.Move(block, w.cur))])
  }

  /** The store of null into the entry of the block that the consumer emptied. */
  function ReleaseEntry(c: State, t: ThreadId, start: nat): State
    requires WellFormed(c) && Enabled(c, Consume(t)) && c.b.tickets.pcs[t].Holding?
  {
    var l := c.lookups[t];
    if l.Reading? && l.reader.HaveSlot? && l.reader.header < |c.x.headers|
       && l.reader.slot < |c.x.headers[l.reader.header].index|
       && c.x.headers[l.reader.header].index[l.reader.slot] < |c.x.values| then
      var entry := c.x.headers[l.reader.header].index[l.reader.slot];
      c.(b := Blocks.WorkStep(c.b, t),
         x := c.x.(values := c.x.values[entry := None], live := c.x.live - {Block(start)}))
    else Faulty(c)
  }

  /** dequeue_bulk goes on to the next slot of its header when it goes on to the next block. */
  function NextLookup(c: State, w: Blocks.Work, l: Lookup): Lookup {
    if w.NoWork? then NoHeader
    else if w.at.Find? && l.Reading? && l.reader.HaveSlot? && l.reader.header < |c.x.headers|
         && c.x.headers[l.reader.header].capacity > 0 then
      Reading(BlockIndex.HaveSlot(l.reader.header,
                                  And(l.reader.slot + 1, c.x.headers[l.reader.header].capacity - 1)))
    else l
  }

  // ---------------------------------------------------------------------------------------------
  // The invariant

  /** The number of the block that index i is in. */
  function Block(i: int): int { i / BLOCK_SIZE }

  /** The map is what the index stands for. */
  ghost predicate MapsAgree(entry: map<nat, BlockId>, live: map<int, BlockIndex.BlockId>) {
    && (forall base {:trigger HasBlock(live, base, entry[base])} :: base in entry ==> HasBlock(live, base, entry[base]))
    && (forall k {:trigger HasBase(entry, k)} :: k in live ==> HasBase(entry, k))
  }

  predicate HasBase(entry: map<nat, BlockId>, k: int) { 0 <= k && k * BLOCK_SIZE in entry }

  predicate HasBlock(live: map<int, BlockIndex.BlockId>, base: nat, b: BlockId) {
    Blocks.Offset(base) == 0 && Block(base) in live && live[Block(base)] == b
  }

  /** The number of the next block to insert. */
  function NextBlock(tail: nat, p: Blocks.Producer): int {
    if Blocks.Offset(tail) == 0 && p.Ready? then Block(tail) else Block(tail) + 1
  }

  predicate StagesAgree(stage: BlockIndex.Stage, next: int, p: Blocks.Producer, tail: nat, entering: Option<Element>) {
    && (stage.Taken? <==> Requisitioning(p))
    && (stage.Keyed? ==> entering.Some?)
    && (stage.Unwound? ==> entering.None?)
    && (stage.Keyed? || stage.Unwound? || entering.Some? ==> p.Ready? && Blocks.Offset(tail) == 0)
    && next == NextBlock(tail, p)
  }

  /** The block that the consumer is at. */
  function Current(w: Blocks.Work): int
    requires w.Working?
  {
    match w.at
    case Find => Block(w.cur)
    case Move(_, start) => Block(start)
    case Release(_, start) => Block(start)
    case Recycle(_) => Block(w.cur - 1)
  }

  /** The last block that the consumer has elements of. */
  function Last(w: Blocks.Work): int
    requires w.Working?
  {
    Block(w.end - 1)
  }

  /** The consumer is going to use what it has loaded. */
  predicate Reads(w: Blocks.Work, l: Lookup) {
    w.Working? && l.Reading? && (w.at.Recycle? ==> w.cur < w.end)
  }

  /** The consumer has come to the end of its block, or of its elements. */
  predicate AtEnd(cur: nat, end: nat, start: nat) { cur == Min(end, Blocks.Base(start) + BLOCK_SIZE) }

  /** Having found its block, the consumer has its slot, and it leaves a block only at its end. */
  predicate ShapeOk(w: Blocks.Work, l: Lookup) {
    w.Working? ==>
      && (!w.at.Find? ==> l.Reading? && l.reader.HaveSlot?)
      && (w.at.Release? ==> AtEnd(w.cur, w.end, w.at.start))
      && (w.at.Recycle? && w.cur < w.end ==> 0 < w.cur && Block(w.cur - 1) + 1 == Block(w.cur))
  }

  predicate OnItsWay(w: Blocks.Work, l: Lookup, x: BlockIndex.State) {
    Reads(w, l) ==> BlockIndex.ReaderOk(x, l.reader, Current(w), Last(w))
  }

  predicate LookupOk(w: Blocks.Work, l: Lookup, x: BlockIndex.State) { ShapeOk(w, l) && OnItsWay(w, l, x) }

  predicate LookupsOk(work: seq<Blocks.Work>, lookups: seq<Lookup>, x: BlockIndex.State) {
    |lookups| == |work| && forall t :: 0 <= t < |work| ==> LookupOk(work[t], lookups[t], x)
  }

  predicate ProducerAgrees(c: State) {
    StagesAgree(c.x.stage, c.x.next, c.b.producer, c.b.tickets.tail, c.entering)
  }

  ghost predicate Inv(c: State) {
    && Blocks.Reached(c.b)
    && BlockIndex.Ok(c.x) && c.x.headers != []
    && MapsAgree(c.b.entry, c.x.live)
    && ProducerAgrees(c)
    && LookupsOk(c.b.work, c.lookups, c.x)
  }

  lemma {:induction false} InvWellFormed(c: State)
    requires Inv(c)
    ensures WellFormed(c)
  {
    Blocks.ReachedSound(c.b);
  }

  // ---------------------------------------------------------------------------------------------
  // The blocks that a lookup needs are live

  lemma {:induction false} BlockOf(i: nat)
    ensures Block(Blocks.Base(i)) == Block(i) && Blocks.Base(i) == Block(i) * BLOCK_SIZE
    ensures Blocks.Base(i) <= i < Blocks.Base(i) + BLOCK_SIZE
  {
  }

  lemma {:induction false} BlockNumber(k: int, i: int)
    requires k * BLOCK_SIZE <= i < (k + 1) * BLOCK_SIZE
    ensures Block(i) == k
  {
  }

  lemma {:induction false} BlocksOrdered(i: int, j: int)
    requires i <= j
    ensures Block(i) <= Block(j)
  {
  }

  lemma {:induction false} EntryLive(entry: map<nat, BlockId>, live: map<int, BlockIndex.BlockId>, i: nat)
    requires MapsAgree(entry, live) && Blocks.Base(i) in entry
    ensures Block(i) in live && live[Block(i)] == entry[Blocks.Base(i)]
  {
    assert HasBlock(live, Blocks.Base(i), entry[Blocks.Base(i)]);
    BlockOf(i);
  }

  lemma {:induction false} PendingLive(b: Blocks.State, live: map<int, BlockIndex.BlockId>, t: ThreadId, i: nat)
    requires Blocks.Reached(b) && MapsAgree(b.entry, live) && t < |b.work| && Blocks.IsPending(b.work[t], i)
    ensures Block(i) in live
  {
    Blocks.PendingLinked(b, t, i);
    EntryLive(b.entry, live, i);
  }

  /** A block at its end: the next one follows, or the last element was in it. */
  lemma {:induction false} AfterBlock(start: nat, cur: nat, end: nat)
    requires start < cur <= end && AtEnd(cur, end, start)
    ensures cur == end ==> Block(end - 1) == Block(start)
    ensures cur < end ==> Block(cur) == Block(start) + 1 && Block(cur - 1) == Block(start)
  {
    BlockOf(start);
    BlockNumber(Block(start), cur - 1);
    if cur < end {
      BlockNumber(Block(start) + 1, cur);
    }
  }

  lemma {:induction false} PendingRange(
    b: Blocks.State, live: map<int, BlockIndex.BlockId>, t: ThreadId, i: nat, j: nat)
    requires Blocks.Reached(b) && MapsAgree(b.entry, live) && t < |b.work| && i <= j
    requires Blocks.IsPending(b.work[t], i) && Blocks.IsPending(b.work[t], j)
    ensures Block(i) in live && Block(j) in live && Block(i) <= Block(j)
  {
    PendingLive(b, live, t, i);
    PendingLive(b, live, t, j);
    BlocksOrdered(i, j);
  }

  /** From a pending element on, the blocks of the consumer are live. */
  lemma {:induction false} RangeLive(b: Blocks.State, live: map<int, BlockIndex.BlockId>, t: ThreadId, i: nat)
    requires Blocks.Reached(b) && MapsAgree(b.entry, live) && t < |b.work| && b.work[t].Working?
    requires Blocks.IsPending(b.work[t], i)
    ensures Block(i) in live && Last(b.work[t]) in live && Block(i) <= Last(b.work[t])
  {
    var last: nat := b.work[t].end - 1;
    assert Blocks.IsPending(b.work[t], last);
    PendingRange(b, live, t, i, last);
  }

  lemma {:induction false} ReleasedLive(b: Blocks.State, live: map<int, BlockIndex.BlockId>, t: ThreadId, start: nat)
    requires Blocks.Reached(b) && MapsAgree(b.entry, live) && t < |b.work|
    requires b.work[t].Working? && b.work[t].at.Release? && b.work[t].at.start == start
    requires AtEnd(b.work[t].cur, b.work[t].end, start)
    ensures Block(start) in live && Last(b.work[t]) in live && Block(start) <= Last(b.work[t])
  {
    var w := b.work[t];
    Blocks.WorkBounds(b, t);
    EntryLive(b.entry, live, start);
    AfterBlock(start, w.cur, w.end);
    if w.cur < w.end {
      RangeLive(b, live, t, w.cur);
      BlocksOrdered(start, w.end - 1);
    } else {
      assert Last(w) == Block(start);
    }
  }

  lemma {:induction false} LookupAwaited(b: Blocks.State, x: BlockIndex.State, t: ThreadId, l: Lookup)
    requires Blocks.Reached(b) && MapsAgree(b.entry, x.live) && t < |b.work|
    requires Reads(b.work[t], l) && ShapeOk(b.work[t], l)
    ensures BlockIndex.Awaited(x, l.reader, Current(b.work[t]), Last(b.work[t]))
    ensures Current(b.work[t]) <= Last(b.work[t]) && (!b.work[t].at.Recycle? ==> Current(b.work[t]) in x.live)
  {
    var w := b.work[t];
    Blocks.WorkBounds(b, t);
    match w.at
    case Find => RangeLive(b, x.live, t, w.cur);
    case Move(_, start) => RangeLive(b, x.live, t, start);
    case Release(_, start) => ReleasedLive(b, x.live, t, start);
    case Recycle(_) => RangeLive(b, x.live, t, w.cur);
  }

  // ---------------------------------------------------------------------------------------------
  // Lookups in progress survive the steps of the producer and of the other consumers

  lemma {:induction false} StaysOnItsWay(c: State, op: BlockIndex.Op, b': Blocks.State, x': BlockIndex.State,
                                         u: ThreadId)
    requires Inv(c) && BlockIndex.Enabled(c.x, op) && x' == BlockIndex.Apply(c.x, op)
    requires Blocks.Reached(b') && MapsAgree(b'.entry, x'.live)
    requires u < |c.b.work| == |b'.work| && b'.work[u] == c.b.work[u]
    ensures LookupOk(b'.work[u], c.lookups[u], x')
  {
    assert LookupOk(c.b.work[u], c.lookups[u], c.x);
    var w, l := c.b.work[u], c.lookups[u];
    if Reads(w, l) {
      LookupAwaited(c.b, c.x, u, l);
      LookupAwaited(b', x', u, l);
      BlockIndex.ApplyKeepsReader(c.x, op, l.reader, Current(w), Last(w));
    }
  }

  /** A store of the producer. */
  lemma {:induction false} LookupsStay(c: State, op: BlockIndex.Op, b': Blocks.State, x': BlockIndex.State)
    requires Inv(c) && BlockIndex.Enabled(c.x, op) && x' == BlockIndex.Apply(c.x, op)
    requires Blocks.Reached(b') && MapsAgree(b'.entry, x'.live) && b'.work == c.b.work
    ensures LookupsOk(b'.work, c.lookups, x')
  {
    forall u | 0 <= u < |b'.work|
      ensures LookupOk(b'.work[u], c.lookups[u], x')
    {
      StaysOnItsWay(c, op, b', x', u);
    }
  }

  // ---------------------------------------------------------------------------------------------
  // The producer's steps

  /** A step of the producer, in the index, in Blocks or in both. */
  lemma {:induction false} ProducerMoves(c: State, op: BlockIndex.Op, c': State)
    requires Inv(c) && BlockIndex.Enabled(c.x, op) && c'.x == BlockIndex.Apply(c.x, op) && c'.x.headers != []
    requires Blocks.Reached(c'.b) && c'.b.work == c.b.work && c'.lookups == c.lookups
    requires MapsAgree(c'.b.entry, c'.x.live) && ProducerAgrees(c')
    ensures Inv(c')
  {
    BlockIndex.ApplyOk(c.x, op);
    LookupsStay(c, op, c'.b, c'.x);
  }

  /** What the index operations do to the fields that matter here. */
  lemma {:induction false} IndexShape(x: BlockIndex.State, op: BlockIndex.Op)
    requires BlockIndex.Enabled(x, op) && x.headers != []
    ensures var x' := BlockIndex.Apply(x, op);
      && x'.headers != []
      && (op.Grow? ==> x'.live == x.live && x'.stage == x.stage && x'.next == x.next)
      && (op.StoreKey? ==> x'.live == x.live && x'.stage.Keyed? && x'.next == x.next)
      && (op.StoreTail? ==> x'.live == x.live && x'.stage.Taken? && x'.next == x.next + 1)
      && (op.StoreValue? ==> x'.live == x.live[x.next - 1 := op.block] && x'.stage.Quiet? && x'.next == x.next)
      && (op.RewindTail? ==> x'.live == x.live && x'.stage.Unwound? && x'.next == x.next - 1)
      && (op.ClearValue? ==> x'.live == x.live && x'.stage.Quiet? && x'.next == x.next)
      && (op.Release? ==> x'.live == x.live - {op.k} && x'.stage == x.stage && x'.next == x.next)
  {
  }

  lemma {:induction false} IndexStores(c: State, e: Event)
    requires Inv(c) && WellFormed(c) && Enabled(c, e) && (e.GrowIndex? || e.StoreKey? || e.ClearValue?)
    ensures Inv(Apply(c, e))
  {
    var op := if e.GrowIndex? then BlockIndex.Grow(e.garbage)
              else if e.StoreKey? then BlockIndex.StoreKey else BlockIndex.ClearValue;
    IndexShape(c.x, op);
    ProducerMoves(c, op, Apply(c, e));
  }

  /** A step of Blocks that concerns neither the index nor a lookup. */
  lemma {:induction false} BlocksOnly(c: State, e: Blocks.Event, c': State)
    requires Inv(c) && Blocks.WellFormed(c.b) && Blocks.Enabled(c.b, e)
    requires c' == c.(b := Blocks.Apply(c.b, e)) && c'.b.work == c.b.work && c'.b.entry == c.b.entry
    requires ProducerAgrees(c')
    ensures Inv(c')
  {
    Blocks.ReachedStep(c.b, e);
  }

  /** The tail store ends the insertion, and the producer goes on to ask for a block. */
  lemma {:induction false} TailStoreStep(c: State)
    requires Inv(c) && WellFormed(c) && Enabled(c, StoreTail)
    ensures Inv(Apply(c, StoreTail))
  {
    Blocks.ReachedStep(c.b, Blocks.BeginEnqueue(c.entering.value));
    IndexShape(c.x, BlockIndex.StoreTail);
    ProducerMoves(c, BlockIndex.StoreTail, Apply(c, StoreTail));
  }

  lemma {:induction false} BeginEnqueueStep(c: State, x: Element)
    requires Inv(c) && WellFormed(c) && Enabled(c, BeginEnqueue(x))
    ensures Inv(Apply(c, BeginEnqueue(x)))
  {
    if Blocks.Offset(c.b.tickets.tail) != 0 {
      BlocksOnly(c, Blocks.BeginEnqueue(x), Apply(c, BeginEnqueue(x)));
    }
  }

  /** The new block gets its entry, in the index and in the map. */
  lemma {:induction false} EntryAgrees(entry: map<nat, BlockId>, live: map<int, BlockIndex.BlockId>, tail: nat,
                                       b: BlockId)
    requires MapsAgree(entry, live) && Blocks.Offset(tail) == 0 && tail !in entry
    ensures MapsAgree(entry[tail := b], live[Block(tail) := b])
  {
    BlockOf(tail);
    forall base | base in entry
      ensures HasBlock(live[Block(tail) := b], base, entry[base])
    {
      assert HasBlock(live, base, entry[base]);
      BlockOf(base);
    }
    forall k | k in live
      ensures HasBase(entry[tail := b], k)
    {
      assert HasBase(entry, k);
    }
  }

  lemma {:induction false} LinkStep(c: State, choice: Option<BlockId>)
    requires Inv(c) && WellFormed(c) && Enabled(c, Produce(choice)) && c.b.producer.Link?
    ensures Inv(Apply(c, Produce(choice)))
  {
    var b := c.b.producer.block;
    Blocks.ProducerAligned(c.b);
    Blocks.ReachedStep(c.b, Blocks.Produce(choice));
    IndexShape(c.x, BlockIndex.StoreValue(b));
    EntryAgrees(c.b.entry, c.x.live, c.b.tickets.tail, b);
    ProducerMoves(c, BlockIndex.StoreValue(b), Apply(c, Produce(choice)));
  }

  lemma {:induction false} RewindStep(c: State)
    requires Inv(c) && WellFormed(c) && Enabled(c, Produce(None)) && c.b.producer.Requisition?
    ensures Inv(Apply(c, Produce(None)))
  {
    Blocks.ProducerAligned(c.b);
    Blocks.ReachedStep(c.b, Blocks.Produce(None));
    IndexShape(c.x, BlockIndex.RewindTail);
    ProducerMoves(c, BlockIndex.RewindTail, Apply(c, Produce(None)));
  }

  lemma {:induction false} NextTail(tail: nat, p: Blocks.Producer)
    requires p.StoreTail?
    ensures NextBlock(tail + 1, Blocks.Ready) == NextBlock(tail, p)
  {
    BlockOf(tail);
    BlockOf(tail + 1);
  }

  /** A producer step that touches neither the index nor the map. */
  lemma {:induction false} InnerProduceStep(c: State, choice: Option<BlockId>)
    requires Inv(c) && WellFormed(c) && Enabled(c, Produce(choice)) && !c.b.producer.Link?
    requires c.b.producer.Requisition? ==> choice.Some?
    ensures Inv(Apply(c, Produce(choice)))
  {
    if c.b.producer.StoreTail? {
      NextTail(c.b.tickets.tail, c.b.producer);
    }
    BlocksOnly(c, Blocks.Produce(choice), Apply(c, Produce(choice)));
  }

  lemma {:induction false} ProduceStep(c: State, choice: Option<BlockId>)
    requires Inv(c) && WellFormed(c) && Enabled(c, Produce(choice))
    ensures Inv(Apply(c, Produce(choice)))
  {
    if c.b.producer.Link? {
      LinkStep(c, choice);
    } else if c.b.producer.Requisition? && choice.None? {
      RewindStep(c);
    } else {
      InnerProduceStep(c, choice);
    }
  }

  // ---------------------------------------------------------------------------------------------
  // The consumers' steps

  /** A step of consumer t outside the index. */
  lemma {:induction false} ConsumerMoves(c: State, t: ThreadId, c': State)
    requires Inv(c) && Blocks.Reached(c'.b) && t < |c.b.work| == |c'.b.work| && c'.x == c.x
    requires c'.b.entry == c.b.entry && c'.b.producer == c.b.producer && c'.b.tickets.tail == c.b.tickets.tail
      && c'.entering == c.entering
    requires |c'.lookups| == |c.lookups|
    requires forall u :: 0 <= u < |c.b.work| && u != t ==> c'.b.work[u] == c.b.work[u] && c'.lookups[u] == c.lookups[u]
    requires LookupOk(c'.b.work[t], c'.lookups[t], c.x)
    ensures Inv(c')
  {
    forall u | 0 <= u < |c'.b.work|
      ensures LookupOk(c'.b.work[u], c'.lookups[u], c'.x)
    {
      assert u != t ==> LookupOk(c.b.work[u], c.lookups[u], c.x);
    }
  }

  /** Before it has its indices a consumer looks nothing up. */
  lemma {:induction false} TicketStep(c: State, t: ThreadId)
    requires Inv(c) && WellFormed(c) && Enabled(c, Consume(t)) && !c.b.tickets.pcs[t].Holding?
    ensures Inv(Apply(c, Consume(t)))
  {
    Blocks.ReachedStep(c.b, Blocks.Consume(t));
    Blocks.TicketStepFrame(c.b, t);
    ConsumerMoves(c, t, Apply(c, Consume(t)));
  }

  lemma {:induction false} LookupOf(c: State, t: ThreadId)
    requires Inv(c) && t < |c.b.work|
    ensures t < |c.lookups| && LookupOk(c.b.work[t], c.lookups[t], c.x)
  {
  }

  /** The loads of a lookup, up to the slot. */
  lemma {:induction false} LoadStep(c: State, t: ThreadId)
    requires Inv(c) && WellFormed(c) && t < |c.b.work| && c.b.work[t].Working? && c.b.work[t].at.Find?
    requires c.lookups[t].Reading? ==> !c.lookups[t].reader.HaveSlot?
    ensures Inv(LookupStep(c, t))
  {
    var w := c.b.work[t];
    LookupOf(c, t);
    Blocks.WorkBounds(c.b, t);
    RangeLive(c.b, c.x.live, t, w.cur);
    match c.lookups[t]
    case NoHeader => BlockIndex.ReaderStarts(c.x, Block(w.cur), Last(w));
    case Reading(HaveHeader(h)) => BlockIndex.ReaderLoadsTail(c.x, h, Block(w.cur), Last(w));
    case Reading(HaveTail(h, tail)) => BlockIndex.ReaderLoadsKey(c.x, h, tail, Block(w.cur), Last(w));
    ConsumerMoves(c, t, LookupStep(c, t));
  }

  /** The lookup ends at the block that the map names. */
  lemma {:induction false} SlotHoldsBlock(c: State, t: ThreadId)
    requires Inv(c) && t < |c.b.work| && c.b.work[t].Working? && c.b.work[t].at.Find?
    requires c.lookups[t].Reading? && c.lookups[t].reader.HaveSlot?
    ensures Blocks.Base(c.b.work[t].cur) in c.b.entry
    ensures var r, base := c.lookups[t].reader, Blocks.Base(c.b.work[t].cur);
      && r.header < |c.x.headers| && r.slot < |c.x.headers[r.header].index|
      && var entry := c.x.headers[r.header].index[r.slot];
         entry < |c.x.keys| == |c.x.values| && c.x.keys[entry] == base && c.x.values[entry] == Some(c.b.entry[base])
  {
    var w, r := c.b.work[t], c.lookups[t].reader;
    LookupOf(c, t);
    Blocks.WorkBounds(c.b, t);
    Blocks.PendingLinked(c.b, t, w.cur);
    EntryLive(c.b.entry, c.x.live, w.cur);
    BlockOf(w.cur);
    BlockIndex.SlotFinds(c.x, r.header, r.slot, Block(w.cur), Last(w));
  }

  lemma {:induction false} ValueStep(c: State, t: ThreadId)
    requires Inv(c) && WellFormed(c) && Enabled(c, Consume(t)) && c.b.tickets.pcs[t].Holding? && c.b.work[t].at.Find?
    requires c.lookups[t].Reading? && c.lookups[t].reader.HaveSlot?
    ensures LookupStep(c, t) == c.(b := Blocks.Apply(c.b, Blocks.Consume(t)))
    ensures Inv(LookupStep(c, t))
  {
    SlotHoldsBlock(c, t);
    LookupOf(c, t);
    Blocks.ReachedStep(c.b, Blocks.Consume(t));
    ConsumerMoves(c, t, LookupStep(c, t));
  }

  /** A consumer that leaves its block and has another one goes on to the slot behind. */
  lemma {:induction false} NextBlockFollows(w: Blocks.Work)
    requires w.Working? && w.cur < w.end && (w.at.Move? || w.at.Recycle?)
    requires w.at.Move? ==> w.at.start < w.cur && AtEnd(w.cur, w.end, w.at.start)
    requires w.at.Recycle? ==> 0 < w.cur && Block(w.cur - 1) + 1 == Block(w.cur)
    ensures Block(w.cur) == Current(w) + 1 && Current(w) < Last(w)
  {
    if w.at.Move? {
      AfterBlock(w.at.start, w.cur, w.end);
    }
    BlocksOrdered(w.cur, w.end - 1);
  }

  lemma {:induction false} NextLookupFinds(c: State, w: Blocks.Work, l: Lookup, w': Blocks.Work)
    requires BlockIndex.Ok(c.x) && w.Working? && LookupOk(w, l, c.x) && w.cur < w.end
    requires Blocks.LeavesBlock(w, w') && (w.at.Move? ==> w.at.start < w.cur)
    ensures LookupOk(w', NextLookup(c, w', l), c.x)
  {
    NextBlockFollows(w);
    BlockIndex.ReaderMovesOn(c.x, l.reader.header, l.reader.slot, Current(w), Last(w));
  }

  /** The consumer stays in its block, leaves it, or returns. */
  lemma {:induction false} NextLookupOk(c: State, w: Blocks.Work, l: Lookup, w': Blocks.Work)
    requires BlockIndex.Ok(c.x) && w.Working? && LookupOk(w, l, c.x) && w.cur <= w.end
    requires Blocks.StaysInBlock(w, w') || Blocks.LeavesBlock(w, w')
    requires w.at.Move? ==> w.at.start < w.end
    ensures LookupOk(w', NextLookup(c, w', l), c.x)
  {
    if Blocks.LeavesBlock(w, w') && w.cur < w.end {
      if w.at.Move? {
        BlockOf(w.at.start);
      }
      NextLookupFinds(c, w, l, w');
    }
  }

  lemma {:induction false} MoveStep(c: State, t: ThreadId)
    requires Inv(c) && WellFormed(c) && Enabled(c, Consume(t)) && c.b.tickets.pcs[t].Holding?
    requires c.b.work[t].at.Move? || c.b.work[t].at.Recycle?
    ensures Inv(WorkStep(c, t))
  {
    LookupOf(c, t);
    Blocks.ReachedStep(c.b, Blocks.Consume(t));
    Blocks.Unfaulted(Blocks.WorkStep(c.b, t));
    Blocks.WorkBounds(c.b, t);
    Blocks.WorkStepFrame(c.b, t);
    NextLookupOk(c, c.b.work[t], c.lookups[t], Blocks.WorkStep(c.b, t).work[t]);
    ConsumerMoves(c, t, WorkStep(c, t));
  }

  lemma {:induction false} EntryRemovedAgrees(entry: map<nat, BlockId>, live: map<int, BlockIndex.BlockId>, start: nat)
    requires MapsAgree(entry, live)
    ensures MapsAgree(entry - {Blocks.Base(start)}, live - {Block(start)})
  {
    var base, k := Blocks.Base(start), Block(start);
    BlockOf(start);
    forall b | b in entry && b != base
      ensures HasBlock(live - {k}, b, (entry - {base})[b])
    {
      assert HasBlock(live, b, entry[b]);
      BlockOf(b);
    }
    forall j | j in live && j != k
      ensures HasBase(entry - {base}, j)
    {
      assert HasBase(entry, j);
    }
  }

  /** The entry in the slot that the consumer still holds is the one to clear. */
  lemma {:induction false} ReleasesEntry(c: State, t: ThreadId)
    requires Inv(c) && WellFormed(c) && Enabled(c, Consume(t)) && c.b.tickets.pcs[t].Holding? && c.b.work[t].at.Release?
    ensures var k := Block(c.b.work[t].at.start);
      && BlockIndex.Enabled(c.x, BlockIndex.Release(k))
      && WorkStep(c, t) == c.(b := Blocks.Apply(c.b, Blocks.Consume(t)), x := BlockIndex.Released(c.x, k))
  {
    var w, r := c.b.work[t], c.lookups[t].reader;
    LookupOf(c, t);
    LookupAwaited(c.b, c.x, t, c.lookups[t]);
    BlockIndex.SlotFinds(c.x, r.header, r.slot, Block(w.at.start), Last(w));
  }

  /** The consumer that cleared the entry keeps its slot for the next block. */
  lemma {:induction false} ReleaserStays(c: State, t: ThreadId, b': Blocks.State, x': BlockIndex.State)
    requires Inv(c) && t < |c.b.work| == |b'.work| && c.b.work[t].Working? && c.b.work[t].at.Release?
    requires BlockIndex.Enabled(c.x, BlockIndex.Release(Block(c.b.work[t].at.start)))
    requires x' == BlockIndex.Released(c.x, Block(c.b.work[t].at.start))
    requires Blocks.Reached(b') && MapsAgree(b'.entry, x'.live)
    requires b'.work[t] == c.b.work[t].(at := Blocks.Recycle(c.b.work[t].at.block))
    ensures LookupOk(b'.work[t], c.lookups[t], x')
  {
    var w, w', l := c.b.work[t], b'.work[t], c.lookups[t];
    var op := BlockIndex.Release(Block(w.at.start));
    LookupOf(c, t);
    Blocks.WorkBounds(c.b, t);
    AfterBlock(w.at.start, w.cur, w.end);
    if w.cur < w.end {
      LookupAwaited(c.b, c.x, t, l);
      LookupAwaited(b', x', t, l);
      BlockIndex.ApplyKeepsReader(c.x, op, l.reader, Current(w), Last(w));
    }
  }

  lemma {:induction false} ReleaseStep(c: State, t: ThreadId)
    requires Inv(c) && WellFormed(c) && Enabled(c, Consume(t)) && c.b.tickets.pcs[t].Holding? && c.b.work[t].at.Release?
    ensures Inv(WorkStep(c, t))
  {
    var k, c' := Block(c.b.work[t].at.start), WorkStep(c, t);
    var op := BlockIndex.Release(k);
    ReleasesEntry(c, t);
    Blocks.ReachedStep(c.b, Blocks.Consume(t));
    BlockIndex.ApplyOk(c.x, op);
    IndexShape(c.x, op);
    Blocks.ReleaseFrame(c.b, t);
    EntryRemovedAgrees(c.b.entry, c.x.live, c.b.work[t].at.start);
    forall u | 0 <= u < |c'.b.work|
      ensures LookupOk(c'.b.work[u], c'.lookups[u], c'.x)
    {
      if u == t {
        ReleaserStays(c, t, c'.b, c'.x);
      } else {
        StaysOnItsWay(c, op, c'.b, c'.x, u);
      }
    }
  }

  lemma {:induction false} ConsumeStep(c: State, t: ThreadId)
    requires Inv(c) && WellFormed(c) && Enabled(c, Consume(t))
    ensures Inv(Apply(c, Consume(t)))
  {
    if !c.b.tickets.pcs[t].Holding? {
      TicketStep(c, t);
    } else if c.b.work[t].at.Release? {
      ReleaseStep(c, t);
    } else if !c.b.work[t].at.Find? {
      MoveStep(c, t);
    } else if c.lookups[t].Reading? && c.lookups[t].reader.HaveSlot? {
      ValueStep(c, t);
    } else {
      LoadStep(c, t);
    }
  }

  /** Every step keeps the state one that Blocks, with its map for an index, can reach too. */
  lemma {:induction false} StepKeepsInv(c: State, e: Event)
    requires Inv(c) && WellFormed(c) && Enabled(c, e)
    ensures Inv(Apply(c, e)) && WellFormed(Apply(c, e))
  {
    match e {
      case BeginEnqueue(x) => BeginEnqueueStep(c, x);
      case StoreTail => TailStoreStep(c);
      case FailEnqueue =>
      case Produce(choice) => ProduceStep(c, choice);
      case BeginDequeue(t, max) => BlocksOnly(c, Blocks.BeginDequeue(t, max), Apply(c, e));
      case Consume(t) => ConsumeStep(c, t);
      case _ => IndexStores(c, e);
    }
    InvWellFormed(Apply(c, e));
  }

  // ---------------------------------------------------------------------------------------------
  // What holds in every state of every run

  /** The index after the first call of new_block_index, in the constructor. */
  predicate Init(c: State) {
    && Blocks.Init(c.b)
    && BlockIndex.Ok(c.x) && c.x.headers != [] && c.x.live == map[] && c.x.next == 0 && c.x.stage.Quiet?
    && c.entering.None? && |c.lookups| == |c.b.work| && forall t :: 0 <= t < |c.lookups| ==> c.lookups[t].NoHeader?
  }

  lemma {:induction false} InitialIndex(initial: nat, garbage: seq<Option<BlockIndex.BlockId>>)
    requires initial > 1 && PowerOfTwo(initial) && |garbage| == initial
    ensures BlockIndex.Enabled(BlockIndex.Empty(initial), BlockIndex.Grow(garbage))
    ensures var x := BlockIndex.Grown(BlockIndex.Empty(initial), garbage);
      BlockIndex.Ok(x) && x.headers != [] && x.live == map[] && x.next == 0 && x.stage.Quiet?
  {
    BlockIndex.GrownOk(BlockIndex.Empty(initial), garbage);
  }

  predicate IsRun(run: seq<State>, events: seq<Event>) {
    && |run| == |events| + 1
    && Init(run[0])
    && forall i :: 0 <= i < |events| ==> Happens(run, events, i)
  }

  /** Step number i of a run. */
  predicate Happens(run: seq<State>, events: seq<Event>, i: nat) {
    && i < |events| && i + 1 < |run|
    && WellFormed(run[i]) && Enabled(run[i], events[i]) && run[i + 1] == Apply(run[i], events[i])
  }

  lemma {:induction false} InitInv(c: State)
    requires Init(c)
    ensures Inv(c)
  {
    Blocks.ReachedInit(c.b);
  }

  lemma {:induction false} RunInv(run: seq<State>, events: seq<Event>, i: nat)
    requires IsRun(run, events) && i < |run|
    ensures Inv(run[i])
  {
    if i == 0 {
      InitInv(run[0]);
    } else {
      RunInv(run, events, i - 1);
      assert Happens(run, events, i - 1);
      StepKeepsInv(run[i - 1], events[i - 1]);
    }
  }

  /**
   Refinement: whatever the interleaving, the index behaves like the map.  Every state of a run is, apart from the
   index and the lookups in progress, one that a run of Blocks reaches, and what Blocks proves of its runs holds.
   */
  lemma {:induction false} Refines(run: seq<State>, events: seq<Event>, i: nat)
    requires IsRun(run, events) && i < |run|
    ensures Blocks.Reached(run[i].b) && !run[i].b.fault
    ensures MapsAgree(run[i].b.entry, run[i].x.live)
  {
    RunInv(run, events, i);
    Blocks.Unfaulted(run[i].b);
  }

  /**
   No lookup fails, for the first block of a dequeue and for every further one: the slot a consumer has computed holds
   the entry with the base of its block as its key and that block as its value.
   */
  lemma {:induction false} LookupFinds(run: seq<State>, events: seq<Event>, i: nat, t: ThreadId)
    requires IsRun(run, events) && i < |run| && t < |run[i].b.work| && t < |run[i].lookups|
    requires run[i].b.work[t].Working? && run[i].b.work[t].at.Find?
    requires run[i].lookups[t].Reading? && run[i].lookups[t].reader.HaveSlot?
    ensures Blocks.Base(run[i].b.work[t].cur) in run[i].b.entry
    ensures var c, r, base := run[i], run[i].lookups[t].reader, Blocks.Base(run[i].b.work[t].cur);
      && r.header < |c.x.headers| && r.slot < |c.x.headers[r.header].index|
      && var entry := c.x.headers[r.header].index[r.slot];
         entry < |c.x.keys| == |c.x.values| && c.x.keys[entry] == base && c.x.values[entry] == Some(c.b.entry[base])
  {
    RunInv(run, events, i);
    SlotHoldsBlock(run[i], t);
  }

  // ---------------------------------------------------------------------------------------------
  // What the calls do

  /** What enqueue was last called with, in the first k events. */
  function Argument(events: seq<Event>, k: nat): Option<Element>
    requires k <= |events|
  {
    if k == 0 then None
    else if events[k - 1].BeginEnqueue? then Some(events[k - 1].element) else Argument(events, k - 1)
  }

  /** The arguments of the enqueue calls of the first k events that have advanced the tail, in their order. */
  function Enqueued(run: seq<State>, events: seq<Event>, k: nat): seq<Element>
    requires k <= |events| && |run| == |events| + 1
  {
    if k == 0 then []
    else
      var before := Enqueued(run, events, k - 1);
      if run[k].b.tickets.tail != run[k - 1].b.tickets.tail && Argument(events, k - 1).Some? then
        before + [Argument(events, k - 1).value]
      else before
  }

  /** The element that the producer is about to enqueue. */
  function Carried(c: State): Option<Element> {
    if c.entering.Some? then c.entering else Blocks.Carried(c.b.producer)
  }

  /** The producer is inside enqueue. */
  predicate Busy(c: State) { c.entering.Some? || !c.b.producer.Ready? || c.x.stage.Unwound? }

  /** The step at which enqueue turns out to fail: the index is full, or there is no block. */
  predicate Fails(c: State, e: Event) {
    e.FailEnqueue? || (e == Produce(None) && c.b.producer.Requisition?)
  }

  predicate Unchanged(c: State, c': State) { c'.b.log == c.b.log && c'.b.tickets.tail == c.b.tickets.tail }

  /** What a step means for the element that the producer carries. */
  predicate Produces(c: State, e: Event, c': State) {
    match e
    case BeginEnqueue(x) => Carried(c') == Some(x) && Unchanged(c, c')
    case FailEnqueue => Carried(c') == None && Unchanged(c, c')
    case Produce(_) =>
      && (Fails(c, e) ==> Carried(c') == None && Unchanged(c, c'))
      && (!Fails(c, e) ==>
          if Carried(c').Some? then Carried(c') == Carried(c) && Unchanged(c, c')
          else Carried(c).Some? && c'.b.log == c.b.log + [Carried(c).value]
               && c'.b.tickets.tail == c.b.tickets.tail + 1)
    case _ => Carried(c') == Carried(c) && Unchanged(c, c')
  }

  /** While it looks its block up, a consumer moves nothing. */
  lemma {:induction false} LookupWorks(c: State, t: ThreadId)
    requires WellFormed(c) && t < |c.lookups| && t < |c.b.work| && c.b.work[t].Working?
    ensures Blocks.WorksOn(c.b, t, LookupStep(c, t).b) && LookupStep(c, t).entering == c.entering
  {
  }

  lemma {:induction false} ReleaseWorks(c: State, t: ThreadId)
    requires WellFormed(c) && Enabled(c, Consume(t)) && c.b.tickets.pcs[t].Holding? && c.b.work[t].at.Release?
    ensures var c' := ReleaseEntry(c, t, c.b.work[t].at.start);
      Blocks.WorksOn(c.b, t, c'.b) && c'.entering == c.entering
  {
    Blocks.WorkStepWorks(c.b, t);
  }

  lemma {:induction false} ConsumeWorks(c: State, t: ThreadId)
    requires WellFormed(c) && Enabled(c, Consume(t)) && c.b.tickets.pcs[t].Holding? && t < |c.lookups|
    ensures Blocks.WorksOn(c.b, t, WorkStep(c, t).b) && WorkStep(c, t).entering == c.entering
  {
    if c.b.work[t].at.Find? {
      LookupWorks(c, t);
    } else if c.b.work[t].at.Release? {
      ReleaseWorks(c, t);
    } else {
      Blocks.WorkStepWorks(c.b, t);
    }
  }

  lemma {:induction false} ConsumeProduces(c: State, t: ThreadId)
    requires WellFormed(c) && Enabled(c, Consume(t))
    ensures Produces(c, Consume(t), Apply(c, Consume(t)))
  {
    if c.b.tickets.pcs[t].Holding? {
      ConsumeWorks(c, t);
    } else {
      Blocks.TicketStepProduces(c.b, t);
    }
  }

  lemma {:induction false} StepProduces(c: State, e: Event)
    requires Inv(c) && WellFormed(c) && Enabled(c, e)
    ensures Produces(c, e, Apply(c, e))
  {
    match e
    case BeginEnqueue(x) => Blocks.StepProduces(c.b, Blocks.BeginEnqueue(x));
    case StoreTail => Blocks.StepProduces(c.b, Blocks.BeginEnqueue(c.entering.value));
    case Produce(choice) => Blocks.StepProduces(c.b, Blocks.Produce(choice));
    case Consume(t) => ConsumeProduces(c, t);
    case _ =>
  }

  /** The log is what enqueue was called with, and the producer carries what it was called with last. */
  predicate LogOk(run: seq<State>, events: seq<Event>, k: nat)
    requires k <= |events| && |run| == |events| + 1
  {
    && run[k].b.log == Enqueued(run, events, k)
    && (Carried(run[k]).Some? ==> Argument(events, k) == Carried(run[k]))
  }

  lemma {:induction false} LogNext(run: seq<State>, events: seq<Event>, k: nat)
    requires k < |events| && |run| == |events| + 1 && Produces(run[k], events[k], run[k + 1])
    requires LogOk(run, events, k)
    ensures LogOk(run, events, k + 1)
  {
  }

  lemma {:induction false} LogAtStart(run: seq<State>, events: seq<Event>)
    requires IsRun(run, events)
    ensures LogOk(run, events, 0)
  {
  }

  lemma {:induction false} StepOfRun(run: seq<State>, events: seq<Event>, k: nat)
    requires IsRun(run, events) && k < |events|
    ensures Inv(run[k]) && WellFormed(run[k]) && Enabled(run[k], events[k]) && run[k + 1] == Apply(run[k], events[k])
    ensures Inv(run[k + 1]) && Produces(run[k], events[k], run[k + 1])
  {
    RunInv(run, events, k);
    RunInv(run, events, k + 1);
    assert Happens(run, events, k);
    StepProduces(run[k], events[k]);
  }

  lemma {:induction false} StepProducesInRun(run: seq<State>, events: seq<Event>, k: nat)
    requires IsRun(run, events) && k < |events|
    ensures Produces(run[k], events[k], run[k + 1])
  {
    StepOfRun(run, events, k);
  }

  lemma {:induction false} LogAlways(run: seq<State>, events: seq<Event>, k: nat)
    requires IsRun(run, events) && k < |run|
    ensures LogOk(run, events, k)
  {
    if k == 0 {
      LogAtStart(run, events);
    } else {
      LogAlways(run, events, k - 1);
      StepProducesInRun(run, events, k - 1);
      LogNext(run, events, k - 1);
    }
  }

  /** enqueue is called at event i and has not returned in state j. */
  predicate Enqueuing(run: seq<State>, events: seq<Event>, x: Element, i: nat, j: nat) {
    && i < |events| && i < j < |run| && events[i] == BeginEnqueue(x)
    && forall k :: i < k <= j ==> Busy(run[k])
  }

  /** The call of event i has met an index without room, or no block. */
  predicate HasFailed(run: seq<State>, events: seq<Event>, i: nat, j: nat) {
    exists k :: i < k < j && FailsAt(run, events, k)
  }

  predicate FailsAt(run: seq<State>, events: seq<Event>, k: nat) {
    k < |run| && k < |events| && Fails(run[k], events[k])
  }

  /** The state of a call in progress: it still carries its argument, or it has failed and is tidying up. */
  predicate CallOk(run: seq<State>, events: seq<Event>, x: Element, i: nat, j: nat)
    requires i < |run| && j < |run|
  {
    && run[j].b.log == run[i].b.log
    && if HasFailed(run, events, i, j) then Carried(run[j]) == None else Carried(run[j]) == Some(x)
  }

  /** A step of a call in progress. */
  predicate CallsOn(c: State, e: Event, c': State) {
    if Carried(c).Some? then
      if Fails(c, e) then Carried(c') == None && c'.b.log == c.b.log
      else if Busy(c') then Carried(c') == Carried(c) && c'.b.log == c.b.log
      else c'.b.log == c.b.log + [Carried(c).value]
    else !Fails(c, e) && Carried(c') == None && c'.b.log == c.b.log
  }

  lemma {:induction false} StepCallsOn(c: State, e: Event)
    requires Inv(c) && WellFormed(c) && Enabled(c, e) && Busy(c) && Produces(c, e, Apply(c, e))
    ensures CallsOn(c, e, Apply(c, e))
  {
    var c' := Apply(c, e);
    match e
    case BeginEnqueue(_) =>
    case StoreTail =>
    case Produce(choice) =>
      if Carried(c').None? && !Fails(c, e) {
        assert c'.x == c.x;
      }
    case Consume(t) =>
      if c.b.tickets.pcs[t].Holding? {
        ConsumeStage(c, t);
      }
    case _ =>
  }

  lemma {:induction false} ConsumeStage(c: State, t: ThreadId)
    requires WellFormed(c) && Enabled(c, Consume(t)) && c.b.tickets.pcs[t].Holding? && t < |c.lookups|
    ensures WorkStep(c, t).x.stage == c.x.stage
  {
  }

  lemma {:induction false} FailedNext(run: seq<State>, events: seq<Event>, i: nat, j: nat)
    requires i < j < |events| && j < |run|
    ensures HasFailed(run, events, i, j + 1) <==> HasFailed(run, events, i, j) || Fails(run[j], events[j])
  {
    if HasFailed(run, events, i, j) {
      var k :| i < k < j && FailsAt(run, events, k);
    }
    if Fails(run[j], events[j]) {
      assert FailsAt(run, events, j);
    }
  }

  lemma {:induction false} FirstCall(run: seq<State>, events: seq<Event>, x: Element, i: nat)
    requires i < |events| && |run| == |events| + 1 && events[i] == BeginEnqueue(x)
    requires Produces(run[i], events[i], run[i + 1])
    ensures CallOk(run, events, x, i, i + 1)
  {
  }

  lemma {:induction false} NextCall(run: seq<State>, events: seq<Event>, x: Element, i: nat, j: nat)
    requires i < j < |events| && |run| == |events| + 1 && CallsOn(run[j], events[j], run[j + 1])
    requires CallOk(run, events, x, i, j)
    ensures Busy(run[j + 1]) ==> CallOk(run, events, x, i, j + 1)
    ensures !Busy(run[j + 1]) ==>
              run[j + 1].b.log == if HasFailed(run, events, i, j + 1) then run[i].b.log else run[i].b.log + [x]
  {
    FailedNext(run, events, i, j);
  }

  lemma {:induction false} CallStep(run: seq<State>, events: seq<Event>, j: nat)
    requires IsRun(run, events) && j < |events| && Busy(run[j])
    ensures CallsOn(run[j], events[j], run[j + 1])
  {
    StepOfRun(run, events, j);
    StepCallsOn(run[j], events[j]);
  }

  lemma {:induction false} StillEnqueuing(run: seq<State>, events: seq<Event>, x: Element, i: nat, j: nat)
    requires IsRun(run, events) && Enqueuing(run, events, x, i, j)
    ensures CallOk(run, events, x, i, j)
  {
    if j == i + 1 {
      StepOfRun(run, events, i);
      FirstCall(run, events, x, i);
    } else {
      StillEnqueuing(run, events, x, i, j - 1);
      CallStep(run, events, j - 1);
      NextCall(run, events, x, i, j - 1);
    }
  }

  /**
   What enqueue answers, with the real index: it appends its argument and nothing else, unless the index had no room
   and was not enlarged, or no block was found; then it appends nothing.
   */
  lemma {:induction false} EnqueueAnswers(run: seq<State>, events: seq<Event>, x: Element, i: nat, j: nat)
    requires IsRun(run, events) && Enqueuing(run, events, x, i, j) && j < |events| && !Busy(run[j + 1])
    ensures run[j + 1].b.log
      == if HasFailed(run, events, i, j + 1) then run[i].b.log else run[i].b.log + [x]
  {
    StillEnqueuing(run, events, x, i, j);
    CallStep(run, events, j);
    NextCall(run, events, x, i, j);
  }

  lemma {:induction false} GoesOnInStep(c: State, e: Event, t: ThreadId, first: nat, count: nat)
    requires Inv(c) && WellFormed(c) && Enabled(c, e) && Inv(Apply(c, e)) && Blocks.HasMoved(c.b, t, first, count)
    ensures Blocks.GoesOn(c.b, Apply(c, e).b, t)
  {
    var c' := Apply(c, e);
    Blocks.Unfaulted(c'.b);
    StepConsumes(c, e, t);
    if c'.b.work[t].Working? {
      Blocks.NotPastEnd(c'.b, t);
    }
  }

  lemma {:induction false} ObtainsIndices(run: seq<State>, events: seq<Event>, t: ThreadId, first: nat, count: nat,
                                          i: nat)
    requires IsRun(run, events) && Consuming(run, events, t, first, count, i, i + 1)
    ensures Blocks.HasMoved(run[i + 1].b, t, first, count)
  {
    StepOfRun(run, events, i);
    Blocks.Obtains(run[i].b, t);
  }

  lemma {:induction false} GoesOnInRun(run: seq<State>, events: seq<Event>, t: ThreadId, first: nat, count: nat, j: nat)
    requires IsRun(run, events) && j < |events| && Blocks.HasMoved(run[j].b, t, first, count)
    ensures Blocks.GoesOn(run[j].b, run[j + 1].b, t)
  {
    StepOfRun(run, events, j);
    GoesOnInStep(run[j], events[j], t, first, count);
  }

  lemma {:induction false} StepConsumes(c: State, e: Event, t: ThreadId)
    requires Inv(c) && WellFormed(c) && Enabled(c, e) && t < |c.b.work| && c.b.tickets.pcs[t].Holding?
    ensures var b' := Apply(c, e).b;
      && t < |b'.work| && (forall k :: k in c.b.moved ==> k in b'.moved)
      && (e != Consume(t) ==> b'.work[t] == c.b.work[t])
      && (e == Consume(t) && !b'.fault ==> Blocks.Consumes(c.b.work[t], b'.work[t], b'.moved))
  {
    match e
    case BeginEnqueue(x) => Blocks.StepConsumes(c.b, Blocks.BeginEnqueue(x), t);
    case StoreTail => Blocks.StepConsumes(c.b, Blocks.BeginEnqueue(c.entering.value), t);
    case Produce(choice) => Blocks.StepConsumes(c.b, Blocks.Produce(choice), t);
    case BeginDequeue(u, max) => Blocks.StepConsumes(c.b, Blocks.BeginDequeue(u, max), t);
    case Consume(u) =>
      if c.b.tickets.pcs[u].Holding? {
        ConsumeWorks(c, u);
      } else {
        Blocks.TicketStepProduces(c.b, u);
      }
    case _ =>
  }

  /** At event i thread t obtains the indices first .. first + count - 1, and in state j it has not returned. */
  predicate Consuming(run: seq<State>, events: seq<Event>, t: ThreadId, first: nat, count: nat, i: nat, j: nat) {
    && i < |events| && i < j < |run| && t < |run[i].b.work| == |run[i].b.tickets.pcs| && events[i] == Consume(t)
    && !run[i].b.tickets.pcs[t].Holding?
    && t < |run[i + 1].b.tickets.pcs| && run[i + 1].b.tickets.pcs[t] == Tickets.Holding(first, count)
    && forall k :: i < k <= j ==> t < |run[k].b.work| == |run[k].b.tickets.pcs| && run[k].b.work[t].Working?
  }

  lemma {:induction false} StillConsuming(run: seq<State>, events: seq<Event>, t: ThreadId, first: nat, count: nat,
                                          i: nat, j: nat)
    requires IsRun(run, events) && Consuming(run, events, t, first, count, i, j)
    ensures Blocks.HasMoved(run[j].b, t, first, count)
  {
    if j == i + 1 {
      ObtainsIndices(run, events, t, first, count, i);
    } else {
      StillConsuming(run, events, t, first, count, i, j - 1);
      GoesOnInRun(run, events, t, first, count, j - 1);
      Blocks.MovesFurther(run[j - 1].b, run[j].b, t, first, count);
    }
  }

  lemma {:induction false} AllMoved(run: seq<State>, events: seq<Event>, t: ThreadId, first: nat, count: nat,
                                    i: nat, j: nat)
    requires IsRun(run, events) && Consuming(run, events, t, first, count, i, j)
    requires j < |events| && t < |run[j + 1].b.work| && run[j + 1].b.work[t].NoWork?
    ensures Blocks.MovedOut(run[j + 1].b.moved, first, first + count)
  {
    StillConsuming(run, events, t, first, count, i, j);
    GoesOnInRun(run, events, t, first, count, j);
    Blocks.MovesFurther(run[j].b, run[j + 1].b, t, first, count);
  }

  lemma {:induction false} ObtainsFresh(run: seq<State>, events: seq<Event>, t: ThreadId, first: nat, count: nat,
                                        i: nat, j: nat, k: nat)
    requires IsRun(run, events) && Consuming(run, events, t, first, count, i, j) && first <= k < first + count
    ensures k !in run[i + 1].b.moved
  {
    StepOfRun(run, events, i);
    Blocks.Obtains(run[i].b, t);
    Blocks.FindsUnmoved(run[i + 1].b, t, k);
  }

  /**
   What dequeue and dequeue_bulk deliver, with the real index: when a consumer returns, all elements that its tickets
   gave it have been moved out, none of them was before, and each is what enqueue was called with for that index.
   */
  lemma {:induction false} DequeueDelivers(run: seq<State>, events: seq<Event>, t: ThreadId, first: nat, count: nat,
                                           i: nat, j: nat, k: nat)
    requires IsRun(run, events) && Consuming(run, events, t, first, count, i, j) && first <= k < first + count
    requires j < |events| && t < |run[j + 1].b.work| && run[j + 1].b.work[t].NoWork?
    ensures k !in run[i + 1].b.moved && k in run[j + 1].b.moved
    ensures k < |Enqueued(run, events, j + 1)| && run[j + 1].b.moved[k] == Enqueued(run, events, j + 1)[k]
  {
    AllMoved(run, events, t, first, count, i, j);
    Blocks.MovedAt(run[j + 1].b.moved, first, first + count, k);
    ConsumedIsEnqueued(run, events, j + 1, k);
    ObtainsFresh(run, events, t, first, count, i, j, k);
  }

  /** With the real index too, what is moved out at an index is what was enqueued at that index. */
  lemma {:induction false} ConsumedIsEnqueued(run: seq<State>, events: seq<Event>, i: nat, k: nat)
    requires IsRun(run, events) && i < |run| && k in run[i].b.moved
    ensures k < |Enqueued(run, events, i)| && run[i].b.moved[k] == Enqueued(run, events, i)[k]
  {
    RunInv(run, events, i);
    LogAlways(run, events, i);
    Blocks.MovedIsLogged(run[i].b, k);
  }
}
