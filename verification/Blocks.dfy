/**
 Block lifetime in the vendored concurrent queue (include/data_structure/concurrentqueue.h,
 ImplicitProducer::enqueue, dequeue, dequeue_bulk, and Block::set_empty / set_many_empty).

 One producer writes elements into blocks of BLOCK_SIZE slots; consumers that hold a range of indices (see
 Tickets) look the block up through the block index, move the elements out one by one, add to the block's
 counter, and the one that fills the counter clears the index entry and gives the block back.  As in Tickets
 each atomic access, and each element moved, is one step.  An access the source must never make (a missing
 index entry, a slot without an element, a counter overflow, a block given back twice, an index consumed
 twice, a slot constructed twice) sets `fault`.
 */
module Blocks {
  import opened Common
  import Tickets

  type ThreadId = Tickets.ThreadId
  type BlockId = nat
  type Element(!new, ==)

  const BLOCK_SIZE: nat := 32

  /** The index of the first slot of the block that holds index i. */
  function Base(i: nat): nat { i - i % BLOCK_SIZE }

  function Offset(i: nat): nat { i % BLOCK_SIZE }

  /**
   What a consumer does between headIndex.fetch_add and its return.  It holds the indices below `end`; `cur`
   is the next one to move out.
   */
  datatype Work = NoWork | Working(cur: nat, end: nat, at: Place)

  datatype Place =
    | Find                                     // look the block of cur up in the block index
    | Move(block: BlockId, start: nat)         // start .. cur - 1 of this block are moved out
    | Release(block: BlockId, start: nat)      // the counter is full: clear the index entry
    | Recycle(block: BlockId)                  // give the block back

  datatype Producer =
    | Ready
    | Requisition(element: Element)
    | Reset(element: Element, block: BlockId)
    | Link(element: Element, block: BlockId)
    | Construct(element: Element)
    | StoreTail(element: Element)

  datatype State = State(
    tickets: Tickets.State,
    work: seq<Work>,
    producer: Producer,
    tailBlock: BlockId,
    entry: map<nat, BlockId>,                 // the block index: entries whose value is not null, by base
    counter: seq<nat>,                        // elementsCompletelyDequeued
    slots: map<(BlockId, nat), Element>,      // the constructed elements
    pool: set<BlockId>,                       // blocks that are free
    log: seq<Element>,                        // history: all elements enqueued, in order
    moved: map<nat, Element>,                 // history: what was moved out at each index
    fault: bool)

  datatype Event =
    | BeginEnqueue(element: Element)
    | Produce(choice: Option<BlockId>)        // choice: which free block a requisition finds, if it finds one
    | BeginDequeue(thread: ThreadId, max: nat)
    | Consume(thread: ThreadId)

  predicate WellFormed(s: State) {
    && |s.work| == |s.tickets.pcs|
    && (forall b :: b in s.entry ==> s.entry[b] < |s.counter|)
    && (forall b :: b in s.pool ==> b < |s.counter|)
    && (forall t :: 0 <= t < |s.work| ==>
        && (s.work[t].NoWork? <==> !s.tickets.pcs[t].Holding?)
        && (s.work[t].Working? && s.work[t].at.Move? ==>
            s.work[t].at.block < |s.counter| && s.work[t].at.start <= s.work[t].cur))
    && (s.producer.Reset? || s.producer.Link? ==> s.producer.block < |s.counter|)
  }

  predicate Enabled(s: State, e: Event) {
    match e
    case BeginEnqueue(_) => s.producer.Ready?
    case Produce(choice) => !s.producer.Ready? && (s.producer.Requisition? && choice.Some? ==> choice.value in s.pool)
    case BeginDequeue(t, max) => Tickets.Enabled(s.tickets, Tickets.BeginDequeue(t, max))
    case Consume(t) => t < |s.tickets.pcs| && !s.tickets.pcs[t].Idle?
  }

  function Apply(s: State, e: Event): (s': State)
    requires WellFormed(s) && Enabled(s, e)
  {
    match e
    case BeginEnqueue(x) =>
      s.(producer := if Offset(s.tickets.tail) == 0 then Requisition(x) else Construct(x))
    case Produce(choice) => ProducerStep(s, choice)
    case BeginDequeue(t, max) =>
      s.(tickets := Tickets.Apply(s.tickets, Tickets.BeginDequeue(t, max)))
    case Consume(t) =>
      if s.tickets.pcs[t].Holding? then WorkStep(s, t) else TicketStep(s, t)
  }

  function ProducerStep(s: State, choice: Option<BlockId>): State
    requires WellFormed(s) && Enabled(s, Produce(choice))
  {
    var tail := s.tickets.tail;
    match s.producer
    case Requisition(x) =>
      if choice.None? then s.(producer := Ready)          // no block: the index is rewound, enqueue fails
      else s.(pool := s.pool - {choice.value}, producer := Reset(x, choice.value))
    case Reset(x, b) => s.(counter := s.counter[b := 0], producer := Link(x, b))
    case Link(x, b) => s.(entry := s.entry[tail := b], tailBlock := b, producer := Construct(x))
    case Construct(x) =>
      var slot := (s.tailBlock, Offset(tail));
      s.(slots := s.slots[slot := x], producer := StoreTail(x), fault := s.fault || slot in s.slots)
    case StoreTail(x) =>
      s.(tickets := Tickets.Apply(s.tickets, Tickets.Enqueued(1)), log := s.log + [x], producer := Ready)
  }

  /** A step before the consumer has its indices. */
  function TicketStep(s: State, t: ThreadId): State
    requires WellFormed(s) && Enabled(s, Consume(t)) && !s.tickets.pcs[t].Holding?
  {
    var tickets := Tickets.Apply(s.tickets, Tickets.Advance(t));
    s.(tickets := tickets,
       work := s.work[t := if tickets.pcs[t].Holding?
                           then Working(tickets.pcs[t].first, tickets.pcs[t].first + tickets.pcs[t].count, Find)
                           else NoWork])
  }

  /** The consumer is through with its indices below cur: on to the next block, or return. */
  function Continue(s: State, t: ThreadId, cur: nat, end: nat): State
    requires WellFormed(s) && t < |s.work| && s.tickets.pcs[t].Holding?
  {
    s.(tickets := if cur == end then Tickets.Apply(s.tickets, Tickets.Finish(t)) else s.tickets,
       work := s.work[t := NextWork(cur, end)])
  }

  function NextWork(cur: nat, end: nat): Work {
    if cur == end then NoWork else Working(cur, end, Find)
  }

  function WorkStep(s: State, t: ThreadId): State
    requires WellFormed(s) && Enabled(s, Consume(t)) && s.tickets.pcs[t].Holding?
  {
    var Working(cur, end, at) := s.work[t];
    match at
    case Find =>
      if Base(cur) in s.entry then s.(work := s.work[t := Working(cur, end, Move(s.entry[Base(cur)], cur))])
      else s.(fault := true)
    case Move(b, start) =>
      if cur < Min(end, Base(start) + BLOCK_SIZE) then MoveOut(s, t, b, start, cur, end)
      else SetManyEmpty(s, t, b, start, cur, end)
    case Release(b, start) =>
      s.(entry := s.entry - {Base(start)}, work := s.work[t := Working(cur, end, Recycle(b))])
    case Recycle(b) =>
      Continue(s, t, cur, end).(pool := s.pool + {b}, fault := s.fault || b in s.pool)
  }

  function MoveOut(s: State, t: ThreadId, b: BlockId, start: nat, cur: nat, end: nat): State
    requires WellFormed(s) && t < |s.work|
  {
    var slot := (b, Offset(cur));
    if slot in s.slots && cur !in s.moved then
      s.(moved := s.moved[cur := s.slots[slot]], slots := s.slots - {slot},
         work := s.work[t := Working(cur + 1, end, Move(b, start))])
    else s.(fault := true)
  }

  /** Block::set_many_empty, and what its caller does with the answer. */
  function SetManyEmpty(s: State, t: ThreadId, b: BlockId, start: nat, cur: nat, end: nat): State
    requires WellFormed(s) && t < |s.work| && s.tickets.pcs[t].Holding? && b < |s.counter| && start <= cur
  {
    var count := s.counter[b] + (cur - start);
    var s1 := s.(counter := s.counter[b := count], fault := s.fault || count > BLOCK_SIZE);
    if count == BLOCK_SIZE then s1.(work := s.work[t := Working(cur, end, Release(b, start))])
    else Continue(s1, t, cur, end)
  }

  // ---------------------------------------------------------------------------------------------
  // The invariant

  /** What is happening to a block. */
  datatype Phase =
    | Pooled
    | Prepared                                  // the producer has it and has not linked it yet
    | Live(base: nat)                           // in the block index, some slot still to be consumed
    | Closing(base: nat, thread: ThreadId)      // all slots consumed, the thread is about to unlink it
    | Retired(thread: ThreadId)                 // the thread is about to give it back

  /** Proof-only view of a run: who took each index, which indices have been added to a counter, block phases. */
  datatype View = View(owner: seq<ThreadId>, done: seq<bool>, phase: seq<Phase>)

  /** How many of the indices lo .. hi - 1 are done. */
  function CountDone(done: seq<bool>, lo: nat, hi: nat): nat
    decreases hi
  {
    if hi <= lo then 0
    else CountDone(done, lo, hi - 1) + if hi - 1 < |done| && done[hi - 1] then 1 else 0
  }

  function BlockDone(done: seq<bool>, base: nat): nat { CountDone(done, base, base + BLOCK_SIZE) }

  /** The first index of the thread that it has not added to a counter yet. */
  function Pending(w: Work): nat {
    if w.NoWork? then 0 else if w.at.Move? then w.at.start else w.cur
  }

  function Cur(w: Work): nat { if w.NoWork? then 0 else w.cur }

  function End(w: Work): nat { if w.NoWork? then 0 else w.end }

  /** A consumer works on exactly the indices its tickets gave it. */
  predicate LinkOk(pcs: seq<Tickets.PC>, work: seq<Work>) {
    && |work| == |pcs|
    && forall t :: 0 <= t < |pcs| ==>
         if work[t].NoWork? then !pcs[t].Holding? else pcs[t].Holding? && work[t].end == pcs[t].first + pcs[t].count
  }

  /** The indices lo .. hi - 1 were taken by thread t. */
  predicate Took(owner: seq<ThreadId>, t: ThreadId, lo: nat, hi: nat) {
    hi <= |owner| && forall i :: lo <= i < hi ==> owner[i] == t
  }

  predicate IsPending(w: Work, i: nat) { Pending(w) <= i < End(w) }

  predicate IsUnmoved(w: Work, i: nat) { Cur(w) <= i < End(w) }

  /** Index i is done exactly when the thread that took it no longer has to add it to a counter. */
  predicate DoneOk(work: seq<Work>, owner: seq<ThreadId>, done: seq<bool>) {
    && |owner| == |done|
    && (forall i :: 0 <= i < |owner| ==> owner[i] < |work|)
    && (forall i :: 0 <= i < |owner| ==> (done[i] <==> !IsPending(work[owner[i]], i)))
    && (forall t :: 0 <= t < |work| ==> Took(owner, t, Pending(work[t]), End(work[t])))
  }

  /** Index i has been moved out exactly when the thread that took it is past i; what was moved is what was enqueued. */
  predicate MovedOk(work: seq<Work>, owner: seq<ThreadId>, moved: map<nat, Element>, log: seq<Element>) {
    && |owner| <= |log|
    && (forall i :: 0 <= i < |owner| ==> owner[i] < |work|)
    && (forall i :: 0 <= i < |owner| ==> (i in moved <==> !IsUnmoved(work[owner[i]], i)))
    && (forall i :: i in moved ==> i < |owner| && moved[i] == log[i])
  }

  predicate WorkOk(w: Work, t: ThreadId, entry: map<nat, BlockId>, phase: seq<Phase>) {
    w.Working? ==>
      match w.at
      case Find => w.cur < w.end
      case Move(b, start) =>
        && start <= w.cur <= Min(w.end, Base(start) + BLOCK_SIZE) && start < w.end
        && Base(start) in entry && entry[Base(start)] == b < |phase|
      case Release(b, start) =>
        && start < w.cur <= Min(w.end, Base(start) + BLOCK_SIZE)
        && b < |phase| && phase[b] == Closing(Base(start), t)
      case Recycle(b) => w.cur <= w.end && b < |phase| && phase[b] == Retired(t)
  }

  predicate WorksOk(work: seq<Work>, entry: map<nat, BlockId>, phase: seq<Phase>) {
    forall t :: 0 <= t < |work| ==> WorkOk(work[t], t, entry, phase)
  }

  /** The counter of a linked block is the number of its indices that are done; each phase has its one actor. */
  predicate BlockOk(b: BlockId, phase: Phase, count: nat, entry: map<nat, BlockId>, done: seq<bool>) {
    match phase
    case Live(base) =>
      && base in entry && entry[base] == b
      && count == BlockDone(done, base) < BLOCK_SIZE
    case Closing(base, t) =>
      && base in entry && entry[base] == b
      && count == BlockDone(done, base) == BLOCK_SIZE
    case _ => true
  }

  predicate BlocksOk(entry: map<nat, BlockId>, counter: seq<nat>, done: seq<bool>, phase: seq<Phase>) {
    |phase| == |counter| && forall b :: 0 <= b < |phase| ==> BlockOk(b, phase[b], counter[b], entry, done)
  }

  predicate PoolOk(pool: set<BlockId>, phase: seq<Phase>) {
    && (forall b :: b in pool ==> b < |phase|)
    && (forall b :: 0 <= b < |phase| ==> (b in pool <==> phase[b].Pooled?))
  }

  /** A phase that names a thread or the producer is backed by it. */
  predicate BackedBy(p: Phase, b: BlockId, work: seq<Work>, producer: Producer) {
    match p
    case Prepared => (producer.Reset? || producer.Link?) && producer.block == b
    case Closing(_, t) => t < |work| && work[t].Working? && work[t].at.Release? && work[t].at.block == b
    case Retired(t) => t < |work| && work[t].Working? && work[t].at == Recycle(b)
    case _ => true
  }

  predicate ActorsOk(phase: seq<Phase>, work: seq<Work>, producer: Producer) {
    forall b :: 0 <= b < |phase| ==> BackedBy(phase[b], b, work, producer)
  }

  predicate At(p: Phase, base: nat) { (p.Live? || p.Closing?) && p.base == base }

  /** `linked`: the producer has linked the block that starts at the tail. */
  ghost predicate EntriesOk(entry: map<nat, BlockId>, phase: seq<Phase>, done: seq<bool>, tail: nat, linked: bool) {
    && (forall base :: base in entry ==>
        && Offset(base) == 0 && (base < tail || (base == tail && linked))
        && entry[base] < |phase| && At(phase[entry[base]], base))
    && (forall base: nat {:trigger BlockDone(done, base)} ::
        Offset(base) == 0 && (base < tail || (base == tail && linked)) ==>
        base in entry || BlockDone(done, base) == BLOCK_SIZE)
  }

  predicate Linked(p: Producer) { p.Construct? || p.StoreTail? }

  predicate ProducerOk(s: State, phase: seq<Phase>) {
    var tail, p := s.tickets.tail, s.producer;
    && (p.Requisition? || p.Reset? || p.Link? ==> Offset(tail) == 0)
    && (p.Reset? || p.Link? ==> p.block < |phase| == |s.counter| && phase[p.block] == Prepared)
    && (p.Link? ==> s.counter[p.block] == 0)
    && (Offset(tail) != 0 || Linked(p) ==> Base(tail) in s.entry && s.entry[Base(tail)] == s.tailBlock)
  }

  /** The elements constructed so far, including one whose tail store is still to come. */
  function Constructed(log: seq<Element>, p: Producer): seq<Element> {
    if p.StoreTail? then log + [p.element] else log
  }

  /** The slots hold exactly the elements that are constructed and not moved out, each at its own index. */
  predicate SlotHolds(slots: map<(BlockId, nat), Element>, entry: map<nat, BlockId>, i: nat, x: Element) {
    Base(i) in entry && (entry[Base(i)], Offset(i)) in slots && slots[(entry[Base(i)], Offset(i))] == x
  }

  ghost predicate SlotsOk(slots: map<(BlockId, nat), Element>, entry: map<nat, BlockId>, phase: seq<Phase>,
                          moved: map<nat, Element>, elements: seq<Element>) {
    && (forall i {:trigger elements[i]} :: 0 <= i < |elements| && i !in moved ==>
         SlotHolds(slots, entry, i, elements[i]))
    && (forall b, o :: (b, o) in slots ==> SlotNeeded(phase, moved, |elements|, b, o))
  }

  predicate SlotNeeded(phase: seq<Phase>, moved: map<nat, Element>, size: nat, b: BlockId, o: nat) {
    && b < |phase| && (phase[b].Live? || phase[b].Closing?)
    && o < BLOCK_SIZE && phase[b].base + o < size && phase[b].base + o !in moved
  }

  ghost predicate Inv(s: State, v: View) {
    && Tickets.Sound(s.tickets)
    && s.tickets.tail == |s.log| && s.tickets.head == |v.owner|
    && LinkOk(s.tickets.pcs, s.work)
    && DoneOk(s.work, v.owner, v.done)
    && MovedOk(s.work, v.owner, s.moved, s.log)
    && WorksOk(s.work, s.entry, v.phase)
    && BlocksOk(s.entry, s.counter, v.done, v.phase)
    && PoolOk(s.pool, v.phase)
    && ActorsOk(v.phase, s.work, s.producer)
    && EntriesOk(s.entry, v.phase, v.done, s.tickets.tail, Linked(s.producer))
    && ProducerOk(s, v.phase)
    && SlotsOk(s.slots, s.entry, v.phase, s.moved, Constructed(s.log, s.producer))
    && !s.fault
  }

  lemma {:induction false} InvWellFormed(s: State, v: View)
    requires Inv(s, v)
    ensures WellFormed(s)
  {
    forall t | 0 <= t < |s.work|
      ensures s.work[t].Working? && s.work[t].at.Move? ==>
                s.work[t].at.block < |s.counter| && s.work[t].at.start <= s.work[t].cur
    {
      assert WorkOk(s.work[t], t, s.entry, v.phase);
    }
  }

  // ---------------------------------------------------------------------------------------------
  // Counting

  lemma {:induction false} CountSame(a: seq<bool>, b: seq<bool>, lo: nat, hi: nat)
    requires forall i :: lo <= i < hi ==> (i < |a| && a[i]) == (i < |b| && b[i])
    ensures CountDone(a, lo, hi) == CountDone(b, lo, hi)
    decreases hi
  {
    if lo < hi {
      CountSame(a, b, lo, hi - 1);
    }
  }

  lemma {:induction false} CountBound(done: seq<bool>, lo: nat, hi: nat)
    requires lo <= hi
    ensures CountDone(done, lo, hi) <= hi - lo
    decreases hi
  {
    if lo < hi {
      CountBound(done, lo, hi - 1);
    }
  }

  /** A full count leaves no index out. */
  lemma {:induction false} CountFull(done: seq<bool>, lo: nat, hi: nat, i: nat)
    requires lo <= i < hi && CountDone(done, lo, hi) == hi - lo
    ensures i < |done| && done[i]
    decreases hi
  {
    CountBound(done, lo, hi - 1);
    if i < hi - 1 {
      CountFull(done, lo, hi - 1, i);
    }
  }

  /** Marking the undone indices from .. to - 1 adds their number. */
  lemma {:induction false} CountMarked(a: seq<bool>, b: seq<bool>, lo: nat, hi: nat, from: nat, to: nat)
    requires lo <= from <= to <= hi && to <= |a| == |b|
    requires forall i :: from <= i < to ==> !a[i] && b[i]
    requires forall i :: 0 <= i < |a| && !(from <= i < to) ==> a[i] == b[i]
    ensures CountDone(b, lo, hi) == CountDone(a, lo, hi) + (to - from)
    decreases hi
  {
    if to < hi {
      CountMarked(a, b, lo, hi - 1, from, to);
    } else if from < to {
      CountSame(b, b[hi - 1 := false], lo, hi - 1);
      CountMarked(a, b[hi - 1 := false], lo, hi - 1, from, to - 1);
    } else {
      CountSame(a, b, lo, hi);
    }
  }

  // ---------------------------------------------------------------------------------------------
  // Every step keeps the invariant

  /** A step inside the ticket protocol that hands out no indices. */
  lemma {:induction false} QuietTicketStep(s: State, v: View, s': State)
    requires Inv(s, v) && s' == s.(tickets := s'.tickets)
    requires Tickets.Sound(s'.tickets) && s'.tickets.tail == s.tickets.tail && s'.tickets.head == s.tickets.head
    requires LinkOk(s'.tickets.pcs, s'.work)
    ensures Inv(s', v)
  {
    assert ProducerOk(s', v.phase);
  }

  /** headIndex.fetch_add: the thread now owns the next n indices. */
  lemma {:induction false} TakeIndicesStep(s: State, v: View, t: ThreadId, n: nat, s': State) returns (v': View)
    requires Inv(s, v) && t < |s.work| && s.work[t].NoWork? && n > 0
    requires s' == s.(tickets := s'.tickets, work := s.work[t := Working(|v.owner|, |v.owner| + n, Find)])
    requires Tickets.Sound(s'.tickets) && s'.tickets.tail == s.tickets.tail
    requires s'.tickets.head == s.tickets.head + n <= s.tickets.tail
    requires LinkOk(s'.tickets.pcs, s'.work)
    ensures Inv(s', v')
  {
    v' := TakeIndicesView(s, v, t, n, s'.work);
    assert ProducerOk(s', v.phase);
    Assemble(s', v');
  }

  lemma {:induction false} TakeIndicesView(s: State, v: View, t: ThreadId, n: nat, work': seq<Work>)
    returns (v': View)
    requires DoneOk(s.work, v.owner, v.done) && MovedOk(s.work, v.owner, s.moved, s.log)
    requires WorksOk(s.work, s.entry, v.phase) && ActorsOk(v.phase, s.work, s.producer)
    requires BlocksOk(s.entry, s.counter, v.done, v.phase)
    requires EntriesOk(s.entry, v.phase, v.done, s.tickets.tail, Linked(s.producer))
    requires t < |s.work| && s.work[t].NoWork? && n > 0 && |v.owner| + n <= |s.log|
    requires work' == s.work[t := Working(|v.owner|, |v.owner| + n, Find)]
    ensures |v'.owner| == |v.owner| + n && v'.phase == v.phase
    ensures DoneOk(work', v'.owner, v'.done) && MovedOk(work', v'.owner, s.moved, s.log)
    ensures WorksOk(work', s.entry, v'.phase) && ActorsOk(v'.phase, work', s.producer)
    ensures BlocksOk(s.entry, s.counter, v'.done, v'.phase)
    ensures EntriesOk(s.entry, v'.phase, v'.done, s.tickets.tail, Linked(s.producer))
  {
    v' := v.(owner := v.owner + Repeat(t, n), done := v.done + Repeat(false, n));
    CountsUnchanged(s.entry, s.counter, v.done, v.phase, v'.done, s.tickets.tail, Linked(s.producer));
    WorkOn(s.work, t, work'[t], s.entry, v.phase, s.producer);
    MovedExtends(s.work, v.owner, s.moved, s.log, t, n, work', v'.owner);
    DoneExtends(s.work, v.owner, v.done, t, n, work', v'.owner, v'.done);
  }

  lemma {:induction false} Assemble(s: State, v: View)
    requires Tickets.Sound(s.tickets)
    requires s.tickets.tail == |s.log| && s.tickets.head == |v.owner|
    requires LinkOk(s.tickets.pcs, s.work)
    requires DoneOk(s.work, v.owner, v.done)
    requires MovedOk(s.work, v.owner, s.moved, s.log)
    requires WorksOk(s.work, s.entry, v.phase)
    requires BlocksOk(s.entry, s.counter, v.done, v.phase)
    requires PoolOk(s.pool, v.phase)
    requires ActorsOk(v.phase, s.work, s.producer)
    requires EntriesOk(s.entry, v.phase, v.done, s.tickets.tail, Linked(s.producer))
    requires ProducerOk(s, v.phase)
    requires SlotsOk(s.slots, s.entry, v.phase, s.moved, Constructed(s.log, s.producer))
    requires !s.fault
    ensures Inv(s, v)
  {
  }

  /** What thread t does next leaves the other threads' blocks alone. */
  lemma {:induction false} WorkOn(work: seq<Work>, t: ThreadId, w: Work, entry: map<nat, BlockId>, phase: seq<Phase>,
        producer: Producer)
    requires t < |work| && WorksOk(work, entry, phase) && ActorsOk(phase, work, producer)
    requires work[t].NoWork? || work[t].at.Find? || work[t].at.Move?
    requires WorkOk(w, t, entry, phase)
    ensures WorksOk(work[t := w], entry, phase) && ActorsOk(phase, work[t := w], producer)
  {
    var work' := work[t := w];
    forall u | 0 <= u < |work'|
      ensures WorkOk(work'[u], u, entry, phase)
    {
      assert u != t ==> WorkOk(work[u], u, entry, phase);
    }
    forall b | 0 <= b < |phase|
      ensures BackedBy(phase[b], b, work', producer)
    {
      assert BackedBy(phase[b], b, work, producer);
    }
  }

  /** The same when thread t also moves block b to its next phase. */
  lemma {:induction false} WorkOnBlock(work: seq<Work>, t: ThreadId, w: Work, entry: map<nat, BlockId>,
        phase: seq<Phase>,
                    entry': map<nat, BlockId>, b: BlockId, p: Phase, producer: Producer)
    requires t < |work| && b < |phase| && WorksOk(work, entry, phase) && ActorsOk(phase, work, producer)
    requires work[t].Working? && (work[t].at.Move? || work[t].at.Release? || work[t].at.Recycle?)
    requires work[t].at.block == b
    requires phase[b].Live? || ((phase[b].Closing? || phase[b].Retired?) && phase[b].thread == t)
    requires WorkOk(w, t, entry', phase[b := p]) && BackedBy(p, b, work[t := w], producer)
    requires entry' == entry ||
             forall u :: 0 <= u < |work| && u != t && work[u].Working? && work[u].at.Move? ==>
               Base(work[u].at.start) in entry' && entry'[Base(work[u].at.start)] == work[u].at.block
    ensures WorksOk(work[t := w], entry', phase[b := p]) && ActorsOk(phase[b := p], work[t := w], producer)
  {
    var work', phase' := work[t := w], phase[b := p];
    forall u | 0 <= u < |work'|
      ensures WorkOk(work'[u], u, entry', phase')
    {
      assert u != t ==> WorkOk(work[u], u, entry, phase);
    }
    forall c | 0 <= c < |phase'|
      ensures BackedBy(phase'[c], c, work', producer)
    {
      assert BackedBy(phase[c], c, work, producer);
    }
  }

  lemma {:induction false} DoneExtends(work: seq<Work>, owner: seq<ThreadId>, done: seq<bool>, t: ThreadId, n: nat,
                    work': seq<Work>, owner': seq<ThreadId>, done': seq<bool>)
    requires DoneOk(work, owner, done) && t < |work| && work[t].NoWork?
    requires work' == work[t := Working(|owner|, |owner| + n, Find)]
    requires owner' == owner + Repeat(t, n) && done' == done + Repeat(false, n)
    ensures DoneOk(work', owner', done')
  {
  }

  lemma {:induction false} MovedExtends(work: seq<Work>, owner: seq<ThreadId>, moved: map<nat, Element>,
        log: seq<Element>, t: ThreadId, n: nat,
                     work': seq<Work>, owner': seq<ThreadId>)
    requires MovedOk(work, owner, moved, log) && t < |work| && work[t].NoWork? && |owner| + n <= |log|
    requires work' == work[t := Working(|owner|, |owner| + n, Find)] && owner' == owner + Repeat(t, n)
    ensures MovedOk(work', owner', moved, log)
  {
  }

  lemma {:induction false} InBlock(i: nat, base: nat)
    requires Offset(base) == 0 && base <= i < base + BLOCK_SIZE
    ensures Base(i) == base && Offset(i) == i - base
  {
  }

  /** The thread goes on with its indices cur .. end - 1, or has none left. */
  predicate MovesOn(w: Work, cur: nat, end: nat) {
    if w.NoWork? then cur == end else w.cur == cur && w.end == end
  }

  lemma {:induction false} DoneSame(work: seq<Work>, owner: seq<ThreadId>, done: seq<bool>, t: ThreadId,
        work': seq<Work>)
    requires DoneOk(work, owner, done) && t < |work|
    requires |work'| == |work| && Pending(work'[t]) == Pending(work[t]) && End(work'[t]) == End(work[t])
    requires forall u :: 0 <= u < |work| && u != t ==> work'[u] == work[u]
    ensures DoneOk(work', owner, done)
  {
  }

  lemma {:induction false} MovedSame(work: seq<Work>, owner: seq<ThreadId>, moved: map<nat, Element>,
        log: seq<Element>, t: ThreadId, work': seq<Work>)
    requires MovedOk(work, owner, moved, log) && t < |work|
    requires |work'| == |work| && work[t].Working? && MovesOn(work'[t], work[t].cur, work[t].end)
    requires forall u :: 0 <= u < |work| && u != t ==> work'[u] == work[u]
    ensures MovedOk(work', owner, moved, log)
  {
  }

  lemma {:induction false} PendingOwner(work: seq<Work>, owner: seq<ThreadId>, done: seq<bool>, t: ThreadId, i: nat)
    requires DoneOk(work, owner, done) && t < |work| && IsPending(work[t], i)
    ensures i < |owner| == |done| && owner[i] == t && !done[i]
  {
    assert Took(owner, t, Pending(work[t]), End(work[t]));
    assert owner[i] == t;
  }

  lemma {:induction false} BlockFull(done: seq<bool>, base: nat, i: nat)
    requires BlockDone(done, base) == BLOCK_SIZE && base <= i < base + BLOCK_SIZE
    ensures i < |done| && done[i]
  {
    CountFull(done, base, base + BLOCK_SIZE, i);
  }

  /** A block with an index that is not done yet is linked and live. */
  lemma {:induction false} NotDoneIsLinked(entry: map<nat, BlockId>, counter: seq<nat>, done: seq<bool>,
                                           phase: seq<Phase>, tail: nat, linked: bool, i: nat)
    requires BlocksOk(entry, counter, done, phase) && EntriesOk(entry, phase, done, tail, linked)
    requires i < |done| <= tail && !done[i]
    ensures Base(i) in entry && entry[Base(i)] < |phase| && phase[entry[Base(i)]] == Live(Base(i))
  {
    InBaseBlock(i);
    if BlockDone(done, Base(i)) == BLOCK_SIZE {
      BlockFull(done, Base(i), i);
    }
    var b := entry[Base(i)];
    assert BlockOk(b, phase[b], counter[b], entry, done);
  }

  /** An index that is still pending belongs to a linked block. */
  lemma {:induction false} PendingIsLinked(s: State, v: View, t: ThreadId, i: nat)
    requires DoneOk(s.work, v.owner, v.done) && BlocksOk(s.entry, s.counter, v.done, v.phase)
    requires EntriesOk(s.entry, v.phase, v.done, s.tickets.tail, Linked(s.producer)) && |v.owner| <= s.tickets.tail
    requires t < |s.work| && IsPending(s.work[t], i)
    ensures i < |v.owner| && v.owner[i] == t && !v.done[i] && Base(i) in s.entry
    ensures v.phase[s.entry[Base(i)]] == Live(Base(i))
    ensures forall u :: 0 <= u < |s.work| && IsPending(s.work[u], i) ==> u == t
  {
    PendingOwner(s.work, v.owner, v.done, t, i);
    NotDoneIsLinked(s.entry, s.counter, v.done, v.phase, s.tickets.tail, Linked(s.producer), i);
    forall u | 0 <= u < |s.work| && IsPending(s.work[u], i)
      ensures u == t
    {
      PendingOwner(s.work, v.owner, v.done, u, i);
    }
  }

  lemma {:induction false} FindStep(s: State, v: View, t: ThreadId)
    requires Inv(s, v) && WellFormed(s) && t < |s.work| && s.work[t].Working? && s.work[t].at.Find?
    ensures Inv(WorkStep(s, t), v)
  {
    var Working(cur, end, _) := s.work[t];
    FindThreads(s, v, t);
    var s' := WorkStep(s, t);
    assert ProducerOk(s', v.phase);
    Assemble(s', v);
  }

  lemma {:induction false} FindThreads(s: State, v: View, t: ThreadId)
    requires DoneOk(s.work, v.owner, v.done) && MovedOk(s.work, v.owner, s.moved, s.log)
    requires WorksOk(s.work, s.entry, v.phase) && ActorsOk(v.phase, s.work, s.producer)
    requires BlocksOk(s.entry, s.counter, v.done, v.phase) && |v.owner| <= s.tickets.tail
    requires EntriesOk(s.entry, v.phase, v.done, s.tickets.tail, Linked(s.producer))
    requires t < |s.work| && s.work[t].Working? && s.work[t].at.Find?
    ensures Base(s.work[t].cur) in s.entry
    ensures var work' := s.work[t := s.work[t].(at := Move(s.entry[Base(s.work[t].cur)], s.work[t].cur))];
      && DoneOk(work', v.owner, v.done) && MovedOk(work', v.owner, s.moved, s.log)
      && WorksOk(work', s.entry, v.phase) && ActorsOk(v.phase, work', s.producer)
  {
    assert WorkOk(s.work[t], t, s.entry, v.phase);
    var cur := s.work[t].cur;
    PendingIsLinked(s, v, t, cur);
    InBaseBlock(cur);
    var work' := s.work[t := s.work[t].(at := Move(s.entry[Base(cur)], cur))];
    WorkOn(s.work, t, work'[t], s.entry, v.phase, s.producer);
    DoneSame(s.work, v.owner, v.done, t, work');
    MovedSame(s.work, v.owner, s.moved, s.log, t, work');
  }

  lemma {:induction false} MoveOutStep(s: State, v: View, t: ThreadId, cur: nat, end: nat, b: BlockId, start: nat,
        x: Element, s': State)
    requires Inv(s, v) && t < |s.work| && s.work[t] == Working(cur, end, Move(b, start))
    requires cur < Min(end, Base(start) + BLOCK_SIZE)
    requires cur < |s.log| && s.log[cur] == x
    requires s' == s.(moved := s.moved[cur := x], slots := s.slots - {(b, Offset(cur))},
                      work := s.work[t := Working(cur + 1, end, Move(b, start))])
    ensures Inv(s', v)
  {
    MoveOutThreads(s, v, t, cur, end, b, start, x);
    MoveOutSlots(s, v, b, cur, x);
    assert ProducerOk(s', v.phase);
    Assemble(s', v);
  }

  lemma {:induction false} MoveOutThreads(s: State, v: View, t: ThreadId, cur: nat, end: nat, b: BlockId, start: nat,
                                          x: Element)
    requires DoneOk(s.work, v.owner, v.done) && MovedOk(s.work, v.owner, s.moved, s.log)
    requires WorksOk(s.work, s.entry, v.phase) && ActorsOk(v.phase, s.work, s.producer)
    requires BlocksOk(s.entry, s.counter, v.done, v.phase) && |v.owner| <= s.tickets.tail
    requires EntriesOk(s.entry, v.phase, v.done, s.tickets.tail, Linked(s.producer))
    requires t < |s.work| && s.work[t] == Working(cur, end, Move(b, start))
    requires cur < Min(end, Base(start) + BLOCK_SIZE) && cur < |s.log| && s.log[cur] == x
    ensures var work' := s.work[t := Working(cur + 1, end, Move(b, start))];
      && DoneOk(work', v.owner, v.done) && MovedOk(work', v.owner, s.moved[cur := x], s.log)
      && WorksOk(work', s.entry, v.phase) && ActorsOk(v.phase, work', s.producer)
    ensures Base(cur) in s.entry && s.entry[Base(cur)] == b < |v.phase| && v.phase[b] == Live(Base(cur))
  {
    assert WorkOk(s.work[t], t, s.entry, v.phase);
    PendingIsLinked(s, v, t, cur);
    InBlock(cur, Base(start));
    var work' := s.work[t := Working(cur + 1, end, Move(b, start))];
    WorkOn(s.work, t, work'[t], s.entry, v.phase, s.producer);
    DoneSame(s.work, v.owner, v.done, t, work');
    MovedOne(s.work, v.owner, s.moved, s.log, t, cur, x, work');
  }

  lemma {:induction false} MoveOutSlots(s: State, v: View, b: BlockId, cur: nat, x: Element)
    requires BlocksOk(s.entry, s.counter, v.done, v.phase)
    requires EntriesOk(s.entry, v.phase, v.done, s.tickets.tail, Linked(s.producer))
    requires SlotsOk(s.slots, s.entry, v.phase, s.moved, Constructed(s.log, s.producer))
    requires Base(cur) in s.entry && s.entry[Base(cur)] == b < |v.phase| && v.phase[b] == Live(Base(cur))
    ensures SlotsOk(s.slots - {(b, Offset(cur))}, s.entry, v.phase, s.moved[cur := x],
                    Constructed(s.log, s.producer))
  {
    PhasesLinked(s, v);
    SlotTaken(s.slots, s.entry, v.phase, s.moved, Constructed(s.log, s.producer), b, cur, x);
  }

  /** What a consumer is about to move out is there, was not moved before, and is what was enqueued at that index. */
  lemma {:induction false} ElementIsThere(s: State, v: View, t: ThreadId)
    requires Inv(s, v) && t < |s.work| && s.work[t].Working? && s.work[t].at.Move?
    requires s.work[t].cur < Min(s.work[t].end, Base(s.work[t].at.start) + BLOCK_SIZE)
    ensures var cur := s.work[t].cur;
            && cur < |s.log| && cur !in s.moved
            && (s.work[t].at.block, Offset(cur)) in s.slots
            && s.slots[(s.work[t].at.block, Offset(cur))] == s.log[cur]
  {
    var cur := s.work[t].cur;
    assert WorkOk(s.work[t], t, s.entry, v.phase);
    PendingIsLinked(s, v, t, cur);
    InBlock(cur, Base(s.work[t].at.start));
    assert IsUnmoved(s.work[t], cur);
    var elements := Constructed(s.log, s.producer);
    assert SlotHolds(s.slots, s.entry, cur, elements[cur]);
  }

  ghost predicate BlocksLinked(entry: map<nat, BlockId>, phase: seq<Phase>) {
    && (forall base :: base in entry ==> entry[base] < |phase| && At(phase[entry[base]], base))
    && (forall b :: 0 <= b < |phase| && (phase[b].Live? || phase[b].Closing?) ==>
        Offset(phase[b].base) == 0 && phase[b].base in entry && entry[phase[b].base] == b)
  }

  lemma {:induction false} PhasesLinked(s: State, v: View)
    requires BlocksOk(s.entry, s.counter, v.done, v.phase)
    requires EntriesOk(s.entry, v.phase, v.done, s.tickets.tail, Linked(s.producer))
    ensures BlocksLinked(s.entry, v.phase)
  {
    forall b | 0 <= b < |v.phase| && (v.phase[b].Live? || v.phase[b].Closing?)
      ensures Offset(v.phase[b].base) == 0 && v.phase[b].base in s.entry && s.entry[v.phase[b].base] == b
    {
      assert BlockOk(b, v.phase[b], s.counter[b], s.entry, v.done);
    }
  }

  lemma {:induction false} MovedOne(work: seq<Work>, owner: seq<ThreadId>, moved: map<nat, Element>,
        log: seq<Element>, t: ThreadId, cur: nat, x: Element, work': seq<Work>)
    requires MovedOk(work, owner, moved, log) && t < |work| && work[t].Working? && work[t].cur == cur
    requires cur < |owner| && owner[cur] == t && x == log[cur]
    requires |work'| == |work| && work'[t].Working? && work'[t].cur == cur + 1 && work'[t].end == work[t].end
    requires forall u :: 0 <= u < |work| && u != t ==> work'[u] == work[u]
    ensures MovedOk(work', owner, moved[cur := x], log)
  {
  }

  lemma {:induction false} SlotTaken(slots: map<(BlockId, nat), Element>, entry: map<nat, BlockId>, phase: seq<Phase>,
                  moved: map<nat, Element>, elements: seq<Element>, b: BlockId, i: nat, x: Element)
    requires SlotsOk(slots, entry, phase, moved, elements)
    requires Base(i) in entry && entry[Base(i)] == b < |phase| && phase[b] == Live(Base(i))
    requires BlocksLinked(entry, phase)
    ensures SlotsOk(slots - {(b, Offset(i))}, entry, phase, moved[i := x], elements)
  {
    forall j | 0 <= j < |elements| && j !in moved && j != i
      ensures SlotHolds(slots - {(b, Offset(i))}, entry, j, elements[j])
    {
      assert SlotHolds(slots, entry, j, elements[j]);
      OtherSlot(entry, phase, b, i, j);
    }
    forall c, o | (c, o) in slots && (c, o) != (b, Offset(i))
      ensures SlotNeeded(phase, moved[i := x], |elements|, c, o)
    {
      assert SlotNeeded(phase, moved, |elements|, c, o);
      OtherIndex(entry, phase, b, i, c, o);
    }
  }

  /** Different indices have different slots. */
  lemma {:induction false} OtherSlot(entry: map<nat, BlockId>, phase: seq<Phase>, b: BlockId, i: nat, j: nat)
    requires BlocksLinked(entry, phase) && Base(i) in entry && entry[Base(i)] == b && Base(j) in entry && i != j
    ensures (entry[Base(j)], Offset(j)) != (b, Offset(i))
  {
    assert At(phase[entry[Base(j)]], Base(j)) && At(phase[b], Base(i));
  }

  lemma {:induction false} OtherIndex(entry: map<nat, BlockId>, phase: seq<Phase>, b: BlockId, i: nat, c: BlockId,
                                      o: nat)
    requires BlocksLinked(entry, phase) && b < |phase| && phase[b] == Live(Base(i))
    requires c < |phase| && (phase[c].Live? || phase[c].Closing?) && o < BLOCK_SIZE && (c, o) != (b, Offset(i))
    ensures phase[c].base + o != i
  {
    if phase[c].base + o == i {
      InBlock(i, phase[c].base);
    }
  }

  /** The indices from .. to - 1 become done. */
  function Mark(done: seq<bool>, from: nat, to: nat): (r: seq<bool>)
    ensures |r| == |done| && forall i :: 0 <= i < |done| ==> r[i] == (done[i] || from <= i < to)
  {
    seq(|done|, i requires 0 <= i < |done| => done[i] || from <= i < to)
  }

  lemma {:induction false} DoneMarked(work: seq<Work>, owner: seq<ThreadId>, done: seq<bool>, t: ThreadId, cur: nat,
        work': seq<Work>)
    requires DoneOk(work, owner, done) && t < |work| && work[t].Working?
    requires Pending(work[t]) <= cur <= End(work[t]) && |work'| == |work|
    requires MovesOn(work'[t], cur, work[t].end) && Pending(work'[t]) == Cur(work'[t])
    requires forall u :: 0 <= u < |work| && u != t ==> work'[u] == work[u]
    ensures DoneOk(work', owner, Mark(done, Pending(work[t]), cur))
  {
    assert Took(owner, t, Pending(work[t]), End(work[t]));
    forall u | 0 <= u < |work'|
      ensures Took(owner, u, Pending(work'[u]), End(work'[u]))
    {
      assert Took(owner, u, Pending(work[u]), End(work[u]));
    }
    var done' := Mark(done, Pending(work[t]), cur);
    forall i | 0 <= i < |owner|
      ensures done'[i] <==> !IsPending(work'[owner[i]], i)
    {
      assert done[i] <==> !IsPending(work[owner[i]], i);
    }
  }

  lemma {:induction false} PendingNotDone(work: seq<Work>, owner: seq<ThreadId>, done: seq<bool>, t: ThreadId)
    requires DoneOk(work, owner, done) && t < |work|
    ensures End(work[t]) <= |done|
    ensures forall i :: Pending(work[t]) <= i < End(work[t]) ==> !done[i]
  {
    assert Took(owner, t, Pending(work[t]), End(work[t]));
    forall i | Pending(work[t]) <= i < End(work[t])
      ensures !done[i]
    {
      assert done[i] <==> !IsPending(work[owner[i]], i);
    }
  }

  /** Adding the indices start .. cur - 1 of one linked block to its counter keeps counters and done indices in step. */
  lemma {:induction false} CounterAdded(entry: map<nat, BlockId>, counter: seq<nat>, done: seq<bool>,
        phase: seq<Phase>, tail: nat, linked: bool,
                     b: BlockId, start: nat, cur: nat, t: ThreadId, counter': seq<nat>, phase': seq<Phase>)
    requires BlocksOk(entry, counter, done, phase) && EntriesOk(entry, phase, done, tail, linked)
    requires b < |phase| && phase[b] == Live(Base(start))
    requires start < cur <= Base(start) + BLOCK_SIZE && cur <= |done|
    requires forall i :: start <= i < cur ==> !done[i]
    requires counter' == counter[b := counter[b] + (cur - start)]
    requires phase' == if counter'[b] == BLOCK_SIZE then phase[b := Closing(Base(start), t)] else phase
    ensures counter'[b] <= BLOCK_SIZE
    ensures BlocksOk(entry, counter', Mark(done, start, cur), phase')
    ensures EntriesOk(entry, phase', Mark(done, start, cur), tail, linked)
  {
    var done' := Mark(done, start, cur);
    var base := Base(start);
    assert BlockOk(b, phase[b], counter[b], entry, done);
    CountMarked(done, done', base, base + BLOCK_SIZE, start, cur);
    CountBound(done', base, base + BLOCK_SIZE);
    forall other: nat {:trigger BlockDone(done', other)} | Offset(other) == 0 && other != base
      ensures BlockDone(done', other) == BlockDone(done, other)
    {
      MarkedElsewhere(done, start, cur, other);
    }
    forall c | 0 <= c < |phase'|
      ensures BlockOk(c, phase'[c], counter'[c], entry, done')
    {
      assert BlockOk(c, phase[c], counter[c], entry, done);
    }
  }

  /** Marking indices of one block leaves the counts of the others alone. */
  lemma {:induction false} MarkedElsewhere(done: seq<bool>, start: nat, cur: nat, other: nat)
    requires start < cur <= Base(start) + BLOCK_SIZE && Offset(other) == 0 && other != Base(start)
      && Offset(Base(start)) == 0
    ensures BlockDone(Mark(done, start, cur), other) == BlockDone(done, other)
  {
    OtherBlock(Base(start), other);
    CountSame(Mark(done, start, cur), done, other, other + BLOCK_SIZE);
  }

  lemma {:induction false} OtherBlock(base: nat, other: nat)
    requires Offset(base) == 0 && Offset(other) == 0 && base != other
    ensures other + BLOCK_SIZE <= base || base + BLOCK_SIZE <= other
  {
  }

  lemma {:induction false} SlotsKept(slots: map<(BlockId, nat), Element>, entry: map<nat, BlockId>, phase: seq<Phase>,
                  moved: map<nat, Element>, elements: seq<Element>, b: BlockId, t: ThreadId)
    requires SlotsOk(slots, entry, phase, moved, elements) && b < |phase| && phase[b].Live?
    ensures SlotsOk(slots, entry, phase[b := Closing(phase[b].base, t)], moved, elements)
  {
  }

  /** The block a thread moves elements out of is live. */
  lemma {:induction false} LiveBlock(s: State, v: View, t: ThreadId, cur: nat, end: nat, b: BlockId, start: nat)
    requires DoneOk(s.work, v.owner, v.done) && WorksOk(s.work, s.entry, v.phase)
      && BlocksOk(s.entry, s.counter, v.done, v.phase)
    requires EntriesOk(s.entry, v.phase, v.done, s.tickets.tail, Linked(s.producer)) && |v.owner| <= s.tickets.tail
    requires t < |s.work| && s.work[t] == Working(cur, end, Move(b, start))
    requires cur >= Min(end, Base(start) + BLOCK_SIZE)
    ensures start < cur <= Base(start) + BLOCK_SIZE && cur <= end && b < |v.phase| && v.phase[b] == Live(Base(start))
  {
    assert WorkOk(s.work[t], t, s.entry, v.phase);
    PendingIsLinked(s, v, t, start);
  }

  /** Thread t adds the elements start .. cur - 1 of block b to its counter. */
  lemma {:induction false} CountedElements(s: State, v: View, t: ThreadId, cur: nat, end: nat, b: BlockId,
        start: nat, count: nat,
                        work': seq<Work>, phase': seq<Phase>)
    requires DoneOk(s.work, v.owner, v.done) && MovedOk(s.work, v.owner, s.moved, s.log)
    requires WorksOk(s.work, s.entry, v.phase) && BlocksOk(s.entry, s.counter, v.done, v.phase)
    requires EntriesOk(s.entry, v.phase, v.done, s.tickets.tail, Linked(s.producer)) && |v.owner| <= s.tickets.tail
    requires t < |s.work| && s.work[t] == Working(cur, end, Move(b, start))
    requires cur >= Min(end, Base(start) + BLOCK_SIZE)
    requires b < |s.counter| && start <= cur && count == s.counter[b] + (cur - start)
    requires |work'| == |s.work| && MovesOn(work'[t], cur, end) && Pending(work'[t]) == Cur(work'[t])
    requires forall u :: 0 <= u < |s.work| && u != t ==> work'[u] == s.work[u]
    requires phase' == if count == BLOCK_SIZE then v.phase[b := Closing(Base(start), t)] else v.phase
    ensures start < cur <= Base(start) + BLOCK_SIZE && v.phase[b] == Live(Base(start)) && count <= BLOCK_SIZE
    ensures DoneOk(work', v.owner, Mark(v.done, start, cur))
    ensures MovedOk(work', v.owner, s.moved, s.log)
    ensures BlocksOk(s.entry, s.counter[b := count], Mark(v.done, start, cur), phase')
    ensures EntriesOk(s.entry, phase', Mark(v.done, start, cur), s.tickets.tail, Linked(s.producer))
  {
    LiveBlock(s, v, t, cur, end, b, start);
    PendingNotDone(s.work, v.owner, v.done, t);
    CounterAdded(s.entry, s.counter, v.done, v.phase, s.tickets.tail, Linked(s.producer),
                 b, start, cur, t, s.counter[b := count], phase');
    DoneMarked(s.work, v.owner, v.done, t, cur, work');
    MovedSame(s.work, v.owner, s.moved, s.log, t, work');
  }

  lemma {:induction false} FillActor(s: State, v: View, t: ThreadId, cur: nat, end: nat, b: BlockId, start: nat)
    requires WorksOk(s.work, s.entry, v.phase) && ActorsOk(v.phase, s.work, s.producer)
    requires t < |s.work| && s.work[t] == Working(cur, end, Move(b, start)) && b < |v.phase|
      && v.phase[b] == Live(Base(start))
    requires start < cur <= Min(end, Base(start) + BLOCK_SIZE)
    ensures
      var work', phase' := s.work[t := Working(cur, end, Release(b, start))], v.phase[b := Closing(Base(start), t)];
      WorksOk(work', s.entry, phase') && ActorsOk(phase', work', s.producer)
  {
    WorkOnBlock(s.work, t, Working(cur, end, Release(b, start)), s.entry, v.phase, s.entry, b,
                Closing(Base(start), t), s.producer);
  }

  /** set_many_empty fills the counter: this thread alone goes on to release the block. */
  lemma {:induction false} FillStep(s: State, v: View, t: ThreadId, cur: nat, end: nat, b: BlockId, start: nat,
        s': State) returns (v': View)
    requires Inv(s, v) && t < |s.work| && s.work[t] == Working(cur, end, Move(b, start))
    requires cur >= Min(end, Base(start) + BLOCK_SIZE) && start <= cur
    requires b < |s.counter| && s.counter[b] + (cur - start) == BLOCK_SIZE
    requires s' == s.(counter := s.counter[b := BLOCK_SIZE], work := s.work[t := Working(cur, end, Release(b, start))])
    requires LinkOk(s'.tickets.pcs, s'.work)
    ensures Inv(s', v')
  {
    var p := Closing(Base(start), t);
    CountedElements(s, v, t, cur, end, b, start, BLOCK_SIZE, s'.work, v.phase[b := p]);
    WorkOk_Move(s, v, t);
    FillActor(s, v, t, cur, end, b, start);
    SlotsKept(s.slots, s.entry, v.phase, s.moved, Constructed(s.log, s.producer), b, t);
    v' := v.(done := Mark(v.done, start, cur), phase := v.phase[b := p]);
    ProducerElsewhere(s, v.phase, s', b, p);
    Assemble(s', v');
  }

  /** A linked block and its counter are none of the producer's business. */
  lemma {:induction false} ProducerElsewhere(s: State, phase: seq<Phase>, s': State, b: BlockId, p: Phase)
    requires ProducerOk(s, phase) && b < |phase| == |s.counter| && phase[b].Live?
    requires s'.tickets.tail == s.tickets.tail && s'.producer == s.producer && s'.entry == s.entry
      && s'.tailBlock == s.tailBlock
    requires |s'.counter| == |s.counter| && forall c :: 0 <= c < |s.counter| && c != b ==> s'.counter[c] == s.counter[c]
    ensures ProducerOk(s', phase[b := p])
  {
  }

  lemma {:induction false} WorkOk_Move(s: State, v: View, t: ThreadId)
    requires WorksOk(s.work, s.entry, v.phase) && t < |s.work| && s.work[t].Working? && s.work[t].at.Move?
    ensures s.work[t].cur <= s.work[t].end && Base(s.work[t].at.start) in s.entry
    ensures s.work[t].at.block == s.entry[Base(s.work[t].at.start)] < |v.phase|
  {
    assert WorkOk(s.work[t], t, s.entry, v.phase);
  }

  /** set_many_empty leaves elements in the block: the thread goes on. */
  lemma {:induction false} CountStep(s: State, v: View, t: ThreadId, cur: nat, end: nat, b: BlockId, start: nat,
        count: nat, s': State)
    returns (v': View)
    requires Inv(s, v) && t < |s.work| && s.work[t] == Working(cur, end, Move(b, start))
    requires cur >= Min(end, Base(start) + BLOCK_SIZE) && start <= cur
    requires b < |s.counter| && count == s.counter[b] + (cur - start) != BLOCK_SIZE
    requires s' == s.(tickets := s'.tickets, counter := s.counter[b := count], fault := s.fault || count > BLOCK_SIZE,
                      work := s.work[t := NextWork(cur, end)])
    requires Tickets.Sound(s'.tickets) && s'.tickets.tail == s.tickets.tail && s'.tickets.head == s.tickets.head
    requires LinkOk(s'.tickets.pcs, s'.work)
    ensures Inv(s', v')
  {
    CountedElements(s, v, t, cur, end, b, start, count, s'.work, v.phase);
    WorkOk_Move(s, v, t);
    WorkOn(s.work, t, s'.work[t], s.entry, v.phase, s.producer);
    v' := v.(done := Mark(v.done, start, cur));
    assert ProducerOk(s', v'.phase);
    Assemble(s', v');
  }

  predicate Gone(done: seq<bool>, moved: map<nat, Element>, i: nat) { i < |done| && done[i] && i in moved }

  /** Every index of the block at this base is moved out and counted. */
  ghost predicate Emptied(done: seq<bool>, moved: map<nat, Element>, base: nat) {
    forall i :: base <= i < base + BLOCK_SIZE ==> Gone(done, moved, i)
  }

  lemma {:induction false} EmptiedAt(done: seq<bool>, moved: map<nat, Element>, base: nat, i: nat)
    requires Emptied(done, moved, base) && base <= i < base + BLOCK_SIZE
    ensures i < |done| && done[i] && i in moved
  {
    assert Gone(done, moved, i);
  }

  /** A block whose counter is full holds no element any more, and every index in it is below the tail. */
  lemma {:induction false} FullBlock(s: State, v: View, b: BlockId)
    requires DoneOk(s.work, v.owner, v.done) && MovedOk(s.work, v.owner, s.moved, s.log)
    requires WorksOk(s.work, s.entry, v.phase) && BlocksOk(s.entry, s.counter, v.done, v.phase)
    requires b < |v.phase| && v.phase[b].Closing?
    ensures Emptied(v.done, s.moved, v.phase[b].base)
  {
    var base := v.phase[b].base;
    assert BlockOk(b, v.phase[b], s.counter[b], s.entry, v.done);
    forall i | base <= i < base + BLOCK_SIZE
      ensures Gone(v.done, s.moved, i)
    {
      BlockFull(v.done, base, i);
      var u := v.owner[i];
      assert WorkOk(s.work[u], u, s.entry, v.phase);
      assert !IsPending(s.work[u], i) && !IsUnmoved(s.work[u], i);
    }
  }

  lemma {:induction false} EntryRemoved(entry: map<nat, BlockId>, counter: seq<nat>, done: seq<bool>,
        phase: seq<Phase>, tail: nat, linked: bool,
                     b: BlockId, t: ThreadId)
    requires BlocksOk(entry, counter, done, phase) && EntriesOk(entry, phase, done, tail, linked)
    requires b < |phase| && phase[b].Closing?
    ensures BlocksOk(entry - {phase[b].base}, counter, done, phase[b := Retired(t)])
    ensures EntriesOk(entry - {phase[b].base}, phase[b := Retired(t)], done, tail, linked)
  {
    var base := phase[b].base;
    assert BlockOk(b, phase[b], counter[b], entry, done);
    forall c | 0 <= c < |phase| && c != b
      ensures BlockOk(c, phase[c], counter[c], entry - {base}, done)
    {
      assert BlockOk(c, phase[c], counter[c], entry, done);
    }
  }

  lemma {:induction false} InBaseBlock(i: nat)
    ensures Base(i) <= i < Base(i) + BLOCK_SIZE
  {
  }

  lemma {:induction false} NoSlotOf(slots: map<(BlockId, nat), Element>, entry: map<nat, BlockId>, phase: seq<Phase>,
                  moved: map<nat, Element>, elements: seq<Element>, b: BlockId, done: seq<bool>)
    requires SlotsOk(slots, entry, phase, moved, elements) && b < |phase| && phase[b].Closing?
    requires Emptied(done, moved, phase[b].base)
    ensures forall o :: (b, o) !in slots
  {
    forall o | (b, o) in slots
      ensures false
    {
      EmptiedAt(done, moved, phase[b].base, phase[b].base + o);
    }
  }

  lemma {:induction false} SlotsOfOthers(slots: map<(BlockId, nat), Element>, entry: map<nat, BlockId>,
        phase: seq<Phase>,
                      moved: map<nat, Element>, elements: seq<Element>, b: BlockId, p: Phase, done: seq<bool>)
    requires SlotsOk(slots, entry, phase, moved, elements) && b < |phase| && phase[b].Closing?
    requires Offset(phase[b].base) == 0
    requires Emptied(done, moved, phase[b].base) && (p.Pooled? || p.Retired?)
    ensures SlotsOk(slots, entry - {phase[b].base}, phase[b := p], moved, elements)
  {
    forall i | 0 <= i < |elements| && i !in moved
      ensures SlotHolds(slots, entry - {phase[b].base}, i, elements[i])
    {
      assert SlotHolds(slots, entry, i, elements[i]);
      if Base(i) == phase[b].base {
        InBaseBlock(i);
        EmptiedAt(done, moved, phase[b].base, i);
      }
    }
    NoSlotOf(slots, entry, phase, moved, elements, b, done);
  }

  /** entry->value.store(nullptr) by the thread that filled the counter. */
  lemma {:induction false} ReleaseStep(s: State, v: View, t: ThreadId, cur: nat, end: nat, b: BlockId, start: nat,
        s': State) returns (v': View)
    requires Inv(s, v) && t < |s.work| && s.work[t] == Working(cur, end, Release(b, start))
    requires s' == s.(entry := s.entry - {Base(start)}, work := s.work[t := Working(cur, end, Recycle(b))])
    requires LinkOk(s'.tickets.pcs, s'.work)
    ensures Inv(s', v')
  {
    assert WorkOk(s.work[t], t, s.entry, v.phase);
    FullBlock(s, v, b);
    ReleaseStorage(s, v, t, b, s'.entry);
    ReleaseThreads(s, v, t, cur, end, b, start);
    v' := v.(phase := v.phase[b := Retired(t)]);
    assert ProducerOk(s', v'.phase);
    Assemble(s', v');
  }

  lemma {:induction false} ReleaseThreads(s: State, v: View, t: ThreadId, cur: nat, end: nat, b: BlockId, start: nat)
    requires DoneOk(s.work, v.owner, v.done) && MovedOk(s.work, v.owner, s.moved, s.log)
    requires WorksOk(s.work, s.entry, v.phase) && ActorsOk(v.phase, s.work, s.producer)
    requires t < |s.work| && s.work[t] == Working(cur, end, Release(b, start))
    requires b < |v.phase| && v.phase[b] == Closing(Base(start), t) && cur <= end
    requires Emptied(v.done, s.moved, v.phase[b].base)
    ensures var work', phase' := s.work[t := Working(cur, end, Recycle(b))], v.phase[b := Retired(t)];
      && DoneOk(work', v.owner, v.done) && MovedOk(work', v.owner, s.moved, s.log)
      && WorksOk(work', s.entry - {Base(start)}, phase') && ActorsOk(phase', work', s.producer)
  {
    var work' := s.work[t := Working(cur, end, Recycle(b))];
    OthersElsewhere(s, v, t, b);
    WorkOnBlock(s.work, t, work'[t], s.entry, v.phase, s.entry - {Base(start)}, b, Retired(t), s.producer);
    DoneSame(s.work, v.owner, v.done, t, work');
    MovedSame(s.work, v.owner, s.moved, s.log, t, work');
  }

  lemma {:induction false} ReleaseStorage(s: State, v: View, t: ThreadId, b: BlockId, entry': map<nat, BlockId>)
    requires BlocksOk(s.entry, s.counter, v.done, v.phase) && PoolOk(s.pool, v.phase) && ProducerOk(s, v.phase)
    requires EntriesOk(s.entry, v.phase, v.done, s.tickets.tail, Linked(s.producer))
    requires SlotsOk(s.slots, s.entry, v.phase, s.moved, Constructed(s.log, s.producer))
    requires b < |v.phase| && v.phase[b].Closing? && |v.done| <= s.tickets.tail
    requires Emptied(v.done, s.moved, v.phase[b].base)
    requires entry' == s.entry - {v.phase[b].base}
    ensures BlocksOk(entry', s.counter, v.done, v.phase[b := Retired(t)])
    ensures EntriesOk(entry', v.phase[b := Retired(t)], v.done, s.tickets.tail, Linked(s.producer))
    ensures SlotsOk(s.slots, entry', v.phase[b := Retired(t)], s.moved, Constructed(s.log, s.producer))
    ensures PoolOk(s.pool, v.phase[b := Retired(t)])
    ensures ProducerOk(s.(entry := entry'), v.phase[b := Retired(t)])
  {
    PhasesLinked(s, v);
    EntryRemoved(s.entry, s.counter, v.done, v.phase, s.tickets.tail, Linked(s.producer), b, t);
    SlotsOfOthers(s.slots, s.entry, v.phase, s.moved, Constructed(s.log, s.producer), b, Retired(t), v.done);
    TailElsewhere(s, v, b);
  }

  /** No other thread is at work in a block whose counter is full. */
  lemma {:induction false} OthersElsewhere(s: State, v: View, t: ThreadId, b: BlockId)
    requires DoneOk(s.work, v.owner, v.done) && WorksOk(s.work, s.entry, v.phase)
    requires b < |v.phase| && v.phase[b].Closing?
    requires Emptied(v.done, s.moved, v.phase[b].base)
    ensures forall u :: 0 <= u < |s.work| && u != t && s.work[u].Working? && s.work[u].at.Move? ==>
              Base(s.work[u].at.start) in s.entry - {v.phase[b].base} &&
              (s.entry - {v.phase[b].base})[Base(s.work[u].at.start)] == s.work[u].at.block
  {
    forall u | 0 <= u < |s.work| && u != t && s.work[u].Working? && s.work[u].at.Move?
      ensures Base(s.work[u].at.start) in s.entry - {v.phase[b].base} &&
              (s.entry - {v.phase[b].base})[Base(s.work[u].at.start)] == s.work[u].at.block
    {
      assert WorkOk(s.work[u], u, s.entry, v.phase);
      PendingNotDone(s.work, v.owner, v.done, u);
      var start := s.work[u].at.start;
      if Base(start) == v.phase[b].base {
        EmptiedAt(v.done, s.moved, v.phase[b].base, start);
      }
    }
  }

  lemma {:induction false} TailElsewhere(s: State, v: View, b: BlockId)
    requires b < |v.phase| && v.phase[b].Closing? && |v.done| <= s.tickets.tail
    requires Emptied(v.done, s.moved, v.phase[b].base)
    ensures Base(s.tickets.tail) != v.phase[b].base
  {
    EmptiedAt(v.done, s.moved, v.phase[b].base, v.phase[b].base + BLOCK_SIZE - 1);
  }

  lemma {:induction false} Unlinked(entry: map<nat, BlockId>, counter: seq<nat>, done: seq<bool>, phase: seq<Phase>,
        tail: nat, linked: bool,
                 b: BlockId, p: Phase, counter': seq<nat>)
    requires BlocksOk(entry, counter, done, phase) && EntriesOk(entry, phase, done, tail, linked)
    requires b < |phase| && !phase[b].Live? && !phase[b].Closing? && !p.Live? && !p.Closing?
    requires |counter'| == |counter| && forall c :: 0 <= c < |counter| && c != b ==> counter'[c] == counter[c]
    ensures BlocksOk(entry, counter', done, phase[b := p]) && EntriesOk(entry, phase[b := p], done, tail, linked)
  {
    forall c | 0 <= c < |phase| && c != b
      ensures BlockOk(c, phase[c], counter[c], entry, done)
    {
    }
  }

  /** add_block_to_free_list by the thread that released the block. */
  lemma {:induction false} RecycleStep(s: State, v: View, t: ThreadId, cur: nat, end: nat, b: BlockId,
        s': State) returns (v': View)
    requires Inv(s, v) && t < |s.work| && s.work[t] == Working(cur, end, Recycle(b))
    requires s' == s.(tickets := s'.tickets, pool := s.pool + {b}, work := s.work[t := NextWork(cur, end)])
    requires Tickets.Sound(s'.tickets) && s'.tickets.tail == s.tickets.tail && s'.tickets.head == s.tickets.head
    requires LinkOk(s'.tickets.pcs, s'.work)
    ensures b < |s.counter| && b !in s.pool && Inv(s', v')
  {
    RecycledIsRetired(s, v, t, b);
    v' := v.(phase := v.phase[b := Pooled]);
    RecycleStorage(s, v, b, s'.pool);
    RecycleThreads(s, v, t, cur, end, b, s'.work);
    assert ProducerOk(s', v'.phase);
    Assemble(s', v');
  }

  lemma {:induction false} RecycledIsRetired(s: State, v: View, t: ThreadId, b: BlockId)
    requires WorksOk(s.work, s.entry, v.phase) && PoolOk(s.pool, v.phase)
    requires t < |s.work| && s.work[t].Working? && s.work[t].at == Recycle(b)
    ensures b < |v.phase| && v.phase[b] == Retired(t) && b !in s.pool && s.work[t].cur <= s.work[t].end
  {
    assert WorkOk(s.work[t], t, s.entry, v.phase);
  }

  lemma {:induction false} RecycleThreads(s: State, v: View, t: ThreadId, cur: nat, end: nat, b: BlockId,
                                          work': seq<Work>)
    requires DoneOk(s.work, v.owner, v.done) && MovedOk(s.work, v.owner, s.moved, s.log)
    requires WorksOk(s.work, s.entry, v.phase) && ActorsOk(v.phase, s.work, s.producer)
    requires t < |s.work| && s.work[t] == Working(cur, end, Recycle(b)) && cur <= end
    requires b < |v.phase| && v.phase[b] == Retired(t) && work' == s.work[t := NextWork(cur, end)]
    ensures DoneOk(work', v.owner, v.done) && MovedOk(work', v.owner, s.moved, s.log)
    ensures WorksOk(work', s.entry, v.phase[b := Pooled]) && ActorsOk(v.phase[b := Pooled], work', s.producer)
  {
    DoneMovesOn(s.work, v.owner, v.done, t, work');
    MovedSame(s.work, v.owner, s.moved, s.log, t, work');
    WorkOnBlock(s.work, t, work'[t], s.entry, v.phase, s.entry, b, Pooled, s.producer);
  }

  lemma {:induction false} RecycleStorage(s: State, v: View, b: BlockId, pool': set<BlockId>)
    requires BlocksOk(s.entry, s.counter, v.done, v.phase) && PoolOk(s.pool, v.phase)
    requires EntriesOk(s.entry, v.phase, v.done, s.tickets.tail, Linked(s.producer))
    requires SlotsOk(s.slots, s.entry, v.phase, s.moved, Constructed(s.log, s.producer))
    requires b < |v.phase| && v.phase[b].Retired? && pool' == s.pool + {b}
    ensures BlocksOk(s.entry, s.counter, v.done, v.phase[b := Pooled]) && PoolOk(pool', v.phase[b := Pooled])
    ensures EntriesOk(s.entry, v.phase[b := Pooled], v.done, s.tickets.tail, Linked(s.producer))
    ensures SlotsOk(s.slots, s.entry, v.phase[b := Pooled], s.moved, Constructed(s.log, s.producer))
  {
    Unlinked(s.entry, s.counter, v.done, v.phase, s.tickets.tail, Linked(s.producer), b, Pooled, s.counter);
    SlotsUnlinked(s.slots, s.entry, v.phase, s.moved, Constructed(s.log, s.producer), b, Pooled);
  }

  lemma {:induction false} SlotsUnlinked(slots: map<(BlockId, nat), Element>, entry: map<nat, BlockId>,
        phase: seq<Phase>,
                      moved: map<nat, Element>, elements: seq<Element>, b: BlockId, p: Phase)
    requires SlotsOk(slots, entry, phase, moved, elements) && b < |phase| && !phase[b].Live? && !phase[b].Closing?
    ensures SlotsOk(slots, entry, phase[b := p], moved, elements)
  {
  }

  lemma {:induction false} DoneMovesOn(work: seq<Work>, owner: seq<ThreadId>, done: seq<bool>, t: ThreadId,
        work': seq<Work>)
    requires DoneOk(work, owner, done) && t < |work| && work[t].Working? && Pending(work[t]) == work[t].cur
    requires |work'| == |work| && MovesOn(work'[t], work[t].cur, work[t].end) && Pending(work'[t]) == Cur(work'[t])
    requires forall u :: 0 <= u < |work| && u != t ==> work'[u] == work[u]
    ensures DoneOk(work', owner, done)
  {
    forall u | 0 <= u < |work'|
      ensures Took(owner, u, Pending(work'[u]), End(work'[u]))
    {
      assert Took(owner, u, Pending(work[u]), End(work[u]));
    }
  }

  /** Nothing about blocks changes when the done indices stay the same. */
  lemma {:induction false} CountsUnchanged(entry: map<nat, BlockId>, counter: seq<nat>, done: seq<bool>,
        phase: seq<Phase>,
                        done': seq<bool>, tail: nat, linked: bool)
    requires BlocksOk(entry, counter, done, phase) && EntriesOk(entry, phase, done, tail, linked)
    requires forall i: nat :: (i < |done| && done[i]) <==> (i < |done'| && done'[i])
    ensures BlocksOk(entry, counter, done', phase) && EntriesOk(entry, phase, done', tail, linked)
  {
    forall base: nat
      ensures BlockDone(done', base) == BlockDone(done, base)
    {
      CountSame(done', done, base, base + BLOCK_SIZE);
    }
    forall b | 0 <= b < |phase|
      ensures BlockOk(b, phase[b], counter[b], entry, done')
    {
      assert BlockOk(b, phase[b], counter[b], entry, done);
    }
  }

  // ---------------------------------------------------------------------------------------------
  // The producer's steps

  lemma {:induction false} BeginEnqueueStep(s: State, v: View, x: Element)
    requires Inv(s, v) && s.producer.Ready?
    ensures Inv(s.(producer := if Offset(s.tickets.tail) == 0 then Requisition(x) else Construct(x)), v)
  {
    var p := if Offset(s.tickets.tail) == 0 then Requisition(x) else Construct(x);
    var s' := s.(producer := p);
    assert ActorsOk(v.phase, s.work, p) by {
      forall b | 0 <= b < |v.phase|
        ensures BackedBy(v.phase[b], b, s.work, p)
      {
        assert BackedBy(v.phase[b], b, s.work, s.producer);
      }
    }
    assert EntriesOk(s.entry, v.phase, v.done, s.tickets.tail, Linked(p));
    assert ProducerOk(s', v.phase);
    assert Constructed(s.log, p) == Constructed(s.log, s.producer);
    Assemble(s', v);
  }

  /** The producer changes the phase of the one block it is busy with. */
  lemma {:induction false} ActorsProducer(phase: seq<Phase>, work: seq<Work>, producer: Producer, b: BlockId,
        p: Phase, producer': Producer)
    requires ActorsOk(phase, work, producer) && b < |phase| && (phase[b].Pooled? || phase[b].Prepared?)
    requires (producer.Reset? || producer.Link?) ==> producer.block == b
    requires BackedBy(p, b, work, producer')
    ensures ActorsOk(phase[b := p], work, producer')
  {
    var phase' := phase[b := p];
    forall c | 0 <= c < |phase'|
      ensures BackedBy(phase'[c], c, work, producer')
    {
      assert BackedBy(phase[c], c, work, producer);
    }
  }

  lemma {:induction false} WorksProducer(work: seq<Work>, entry: map<nat, BlockId>, phase: seq<Phase>, b: BlockId,
        p: Phase, entry': map<nat, BlockId>)
    requires WorksOk(work, entry, phase) && b < |phase| && (phase[b].Pooled? || phase[b].Prepared?)
    requires Extends(entry, entry')
    ensures WorksOk(work, entry', phase[b := p])
  {
    forall t | 0 <= t < |work|
      ensures WorkOk(work[t], t, entry', phase[b := p])
    {
      assert WorkOk(work[t], t, entry, phase);
    }
  }

  lemma {:induction false} RequisitionStep(s: State, v: View, b: BlockId, s': State) returns (v': View)
    requires Inv(s, v) && s.producer.Requisition? && b in s.pool
    requires s' == s.(pool := s.pool - {b}, producer := Reset(s.producer.element, b))
    ensures Inv(s', v')
  {
    Unlinked(s.entry, s.counter, v.done, v.phase, s.tickets.tail, Linked(s.producer), b, Prepared, s.counter);
    SlotsUnlinked(s.slots, s.entry, v.phase, s.moved, Constructed(s.log, s.producer), b, Prepared);
    ActorsProducer(v.phase, s.work, s.producer, b, Prepared, s'.producer);
    WorksProducer(s.work, s.entry, v.phase, b, Prepared, s.entry);
    v' := v.(phase := v.phase[b := Prepared]);
    assert ProducerOk(s', v'.phase);
    Assemble(s', v');
  }

  /** The free list and the allocator yield no block: the enqueue fails. */
  lemma {:induction false} NoBlockStep(s: State, v: View)
    requires Inv(s, v) && s.producer.Requisition?
    ensures Inv(s.(producer := Ready), v)
  {
    var s' := s.(producer := Ready);
    assert ActorsOk(v.phase, s.work, Ready) by {
      forall b | 0 <= b < |v.phase|
        ensures BackedBy(v.phase[b], b, s.work, Ready)
      {
        assert BackedBy(v.phase[b], b, s.work, s.producer);
      }
    }
    assert ProducerOk(s', v.phase);
    Assemble(s', v);
  }

  lemma {:induction false} ResetStep(s: State, v: View, b: BlockId, s': State)
    requires Inv(s, v) && s.producer.Reset? && s.producer.block == b && b < |s.counter|
    requires s' == s.(counter := s.counter[b := 0], producer := Link(s.producer.element, b))
    ensures Inv(s', v)
  {
    assert v.phase[b := Prepared] == v.phase;
    Unlinked(s.entry, s.counter, v.done, v.phase, s.tickets.tail, Linked(s.producer), b, Prepared, s'.counter);
    ActorsProducer(v.phase, s.work, s.producer, b, Prepared, s'.producer);
    assert ProducerOk(s', v.phase);
    Assemble(s', v);
  }

  lemma {:induction false} CountNone(done: seq<bool>, lo: nat, hi: nat)
    requires |done| <= lo
    ensures CountDone(done, lo, hi) == 0
    decreases hi
  {
    if lo < hi {
      CountNone(done, lo, hi - 1);
    }
  }

  lemma {:induction false} EntryAdded(entry: map<nat, BlockId>, counter: seq<nat>, done: seq<bool>,
        phase: seq<Phase>, tail: nat, b: BlockId)
    requires BlocksOk(entry, counter, done, phase) && EntriesOk(entry, phase, done, tail, false)
    requires b < |phase| && phase[b].Prepared? && counter[b] == 0 && Offset(tail) == 0 && |done| <= tail
    ensures BlocksOk(entry[tail := b], counter, done, phase[b := Live(tail)])
    ensures EntriesOk(entry[tail := b], phase[b := Live(tail)], done, tail, true)
  {
    CountNone(done, tail, tail + BLOCK_SIZE);
    forall c | 0 <= c < |phase| && c != b
      ensures BlockOk(c, phase[c], counter[c], entry[tail := b], done)
    {
      assert BlockOk(c, phase[c], counter[c], entry, done);
    }
  }

  /** Every entry is still there. */
  predicate Extends(entry: map<nat, BlockId>, entry': map<nat, BlockId>) {
    forall base :: base in entry ==> base in entry' && entry'[base] == entry[base]
  }

  lemma {:induction false} HoldsInLarger(slots: map<(BlockId, nat), Element>, entry: map<nat, BlockId>,
                                         entry': map<nat, BlockId>, i: nat, x: Element)
    requires SlotHolds(slots, entry, i, x) && Extends(entry, entry')
    ensures SlotHolds(slots, entry', i, x)
  {
  }

  lemma {:induction false} NeededStill(phase: seq<Phase>, moved: map<nat, Element>, size: nat, b: BlockId, o: nat,
                                       phase': seq<Phase>)
    requires SlotNeeded(phase, moved, size, b, o)
    requires |phase'| == |phase| && (phase[b].Live? || phase[b].Closing? ==> phase'[b] == phase[b])
    ensures SlotNeeded(phase', moved, size, b, o)
  {
  }

  lemma {:induction false} SlotsEntryAdded(slots: map<(BlockId, nat), Element>, entry: map<nat, BlockId>,
                                           phase: seq<Phase>, moved: map<nat, Element>, elements: seq<Element>,
                                           entry': map<nat, BlockId>, phase': seq<Phase>)
    requires SlotsOk(slots, entry, phase, moved, elements) && Extends(entry, entry') && |phase'| == |phase|
    requires forall c :: 0 <= c < |phase| && (phase[c].Live? || phase[c].Closing?) ==> phase'[c] == phase[c]
    ensures SlotsOk(slots, entry', phase', moved, elements)
  {
    forall i | 0 <= i < |elements| && i !in moved
      ensures SlotHolds(slots, entry', i, elements[i])
    {
      HoldsInLarger(slots, entry, entry', i, elements[i]);
    }
    forall c, o | (c, o) in slots
      ensures SlotNeeded(phase', moved, |elements|, c, o)
    {
      NeededStill(phase, moved, |elements|, c, o, phase');
    }
  }

  lemma {:induction false} LinkStep(s: State, v: View, b: BlockId, s': State) returns (v': View)
    requires Inv(s, v) && s.producer.Link? && s.producer.block == b
    requires s' == s.(entry := s.entry[s.tickets.tail := b], tailBlock := b, producer := Construct(s.producer.element))
    ensures Inv(s', v')
  {
    var tail := s.tickets.tail;
    EntryAdded(s.entry, s.counter, v.done, v.phase, tail, b);
    SlotsEntryAdded(s.slots, s.entry, v.phase, s.moved, Constructed(s.log, s.producer), s'.entry,
                    v.phase[b := Live(tail)]);
    ActorsProducer(v.phase, s.work, s.producer, b, Live(tail), s'.producer);
    WorksProducer(s.work, s.entry, v.phase, b, Live(tail), s'.entry);
    v' := v.(phase := v.phase[b := Live(tail)]);
    assert Base(tail) == tail;
    assert ProducerOk(s', v'.phase);
    Assemble(s', v');
  }

  lemma {:induction false} SlotAdded(slots: map<(BlockId, nat), Element>, entry: map<nat, BlockId>, phase: seq<Phase>,
                  moved: map<nat, Element>, elements: seq<Element>, x: Element, elements': seq<Element>)
    requires SlotsOk(slots, entry, phase, moved, elements) && BlocksLinked(entry, phase)
    requires |elements| !in moved && Base(|elements|) in entry
    requires elements' == elements + [x]
    ensures (entry[Base(|elements|)], Offset(|elements|)) !in slots
    ensures SlotsOk(slots[(entry[Base(|elements|)], Offset(|elements|)) := x], entry, phase, moved, elements')
  {
    var tail := |elements|;
    var b := entry[Base(tail)];
    assert At(phase[b], Base(tail));
    var slots' := slots[(b, Offset(tail)) := x];
    forall i | 0 <= i < |elements'| && i !in moved
      ensures SlotHolds(slots', entry, i, elements'[i])
    {
      if i < tail {
        assert SlotHolds(slots, entry, i, elements[i]);
      }
    }
  }

  lemma {:induction false} ConstructStep(s: State, v: View, x: Element, s': State)
    requires Inv(s, v) && s.producer == Construct(x)
    requires s' == s.(slots := s.slots[(s.tailBlock, Offset(s.tickets.tail)) := x], producer := StoreTail(x),
                      fault := s.fault || (s.tailBlock, Offset(s.tickets.tail)) in s.slots)
    ensures Inv(s', v)
  {
    PhasesLinked(s, v);
    SlotAdded(s.slots, s.entry, v.phase, s.moved, s.log, x, s.log + [x]);
    assert ActorsOk(v.phase, s.work, s'.producer) by {
      forall b | 0 <= b < |v.phase|
        ensures BackedBy(v.phase[b], b, s.work, s'.producer)
      {
        assert BackedBy(v.phase[b], b, s.work, s.producer);
      }
    }
    assert ProducerOk(s', v.phase);
    Assemble(s', v);
  }

  lemma {:induction false} EntriesTailMoves(entry: map<nat, BlockId>, phase: seq<Phase>, done: seq<bool>, tail: nat)
    requires EntriesOk(entry, phase, done, tail, true)
    ensures EntriesOk(entry, phase, done, tail + 1, false)
  {
  }

  lemma {:induction false} ProducerDone(s: State, s': State, phase: seq<Phase>)
    requires ProducerOk(s, phase) && s.producer.StoreTail? && s'.producer == Ready
    requires s'.tickets.tail == s.tickets.tail + 1 && s'.entry == s.entry && s'.tailBlock == s.tailBlock
    ensures ProducerOk(s', phase)
  {
    NextIndex(s.tickets.tail);
  }

  lemma {:induction false} ActorsWithoutProducer(phase: seq<Phase>, work: seq<Work>, producer: Producer)
    requires ActorsOk(phase, work, producer) && producer.StoreTail?
    ensures ActorsOk(phase, work, Ready)
  {
    forall b | 0 <= b < |phase|
      ensures BackedBy(phase[b], b, work, Ready)
    {
      assert BackedBy(phase[b], b, work, producer);
    }
  }

  lemma {:induction false} LogGrows(work: seq<Work>, owner: seq<ThreadId>, moved: map<nat, Element>,
        log: seq<Element>, x: Element)
    requires MovedOk(work, owner, moved, log)
    ensures MovedOk(work, owner, moved, log + [x])
  {
  }

  lemma {:induction false} StoreTailStep(s: State, v: View, x: Element, s': State)
    requires Inv(s, v) && s.producer == StoreTail(x)
    requires s' == s.(tickets := s.tickets.(tail := s.tickets.tail + 1), log := s.log + [x], producer := Ready)
    ensures Inv(s', v)
  {
    Tickets.SoundStep(s.tickets, Tickets.Enqueued(1));
    TailStored(s, v, x, s');
    Assemble(s', v);
  }

  lemma {:induction false} TailStored(s: State, v: View, x: Element, s': State)
    requires EntriesOk(s.entry, v.phase, v.done, s.tickets.tail, true) && ActorsOk(v.phase, s.work, s.producer)
    requires ProducerOk(s, v.phase) && s.producer == StoreTail(x) && MovedOk(s.work, v.owner, s.moved, s.log)
    requires SlotsOk(s.slots, s.entry, v.phase, s.moved, Constructed(s.log, s.producer))
    requires s' == s.(tickets := s.tickets.(tail := s.tickets.tail + 1), log := s.log + [x], producer := Ready)
    ensures EntriesOk(s'.entry, v.phase, v.done, s'.tickets.tail, Linked(s'.producer))
    ensures ActorsOk(v.phase, s'.work, s'.producer) && ProducerOk(s', v.phase)
    ensures MovedOk(s'.work, v.owner, s'.moved, s'.log)
    ensures SlotsOk(s'.slots, s'.entry, v.phase, s'.moved, Constructed(s'.log, s'.producer))
  {
    LogGrows(s.work, v.owner, s.moved, s.log, x);
    EntriesTailMoves(s.entry, v.phase, v.done, s.tickets.tail);
    ActorsWithoutProducer(v.phase, s.work, s.producer);
    ProducerDone(s, s', v.phase);
  }

  lemma {:induction false} NextIndex(i: nat)
    ensures Offset(i + 1) != 0 ==> Base(i + 1) == Base(i)
  {
  }

  // ---------------------------------------------------------------------------------------------
  // All steps together

  /** Some view explains the state: what every reachable state satisfies. */
  ghost predicate Sound(s: State) {
    exists v :: Inv(s, v)
  }

  lemma {:induction false} Explained(s: State, v: View)
    requires Inv(s, v)
    ensures Sound(s)
  {
  }

  lemma {:induction false} ProducerStepSound(s: State, v: View, choice: Option<BlockId>)
    requires Inv(s, v) && WellFormed(s) && Enabled(s, Produce(choice))
    ensures Sound(ProducerStep(s, choice))
  {
    var s' := ProducerStep(s, choice);
    match s.producer
    case Requisition(_) =>
      if choice.None? {
        NoBlockStep(s, v);
      } else {
        var v' := RequisitionStep(s, v, choice.value, s');
      }
    case Reset(_, b) => ResetStep(s, v, b, s');
    case Link(_, b) => var v' := LinkStep(s, v, b, s');
    case Construct(x) => ConstructStep(s, v, x, s');
    case StoreTail(x) => StoreTailStep(s, v, x, s');
  }

  /** What headIndex.fetch_add does. */
  lemma {:induction false} TakeHeadShape(s: State, t: ThreadId)
    requires Tickets.Sound(s.tickets) && LinkOk(s.tickets.pcs, s.work) && WellFormed(s)
    requires t < |s.work| && s.tickets.pcs[t].TakeHead?
    ensures var s', n := TicketStep(s, t), s.tickets.pcs[t].actual;
            && s' == s.(tickets := s'.tickets, work := s.work[t := Working(s.tickets.head, s.tickets.head + n, Find)])
            && Tickets.Sound(s'.tickets) && s'.tickets.tail == s.tickets.tail
            && s'.tickets.head == s.tickets.head + n <= s.tickets.tail && n > 0
            && LinkOk(s'.tickets.pcs, s'.work)
  {
    Tickets.SoundStep(s.tickets, Tickets.Advance(t));
    Tickets.SoundBounds(s.tickets, t);
  }

  /** What the other ticket steps do. */
  lemma {:induction false} OtherTicketShape(s: State, t: ThreadId)
    requires Tickets.Sound(s.tickets) && LinkOk(s.tickets.pcs, s.work) && WellFormed(s)
    requires Enabled(s, Consume(t)) && !s.tickets.pcs[t].Holding? && !s.tickets.pcs[t].TakeHead?
    ensures var s' := TicketStep(s, t);
            && s' == s.(tickets := s'.tickets)
            && Tickets.Sound(s'.tickets) && s'.tickets.tail == s.tickets.tail && s'.tickets.head == s.tickets.head
            && LinkOk(s'.tickets.pcs, s'.work)
  {
    Tickets.SoundStep(s.tickets, Tickets.Advance(t));
    Tickets.StepFrame(s.tickets, t);
    assert s.work[t := NoWork] == s.work;
  }

  lemma {:induction false} TicketStepSound(s: State, v: View, t: ThreadId)
    requires Inv(s, v) && WellFormed(s) && Enabled(s, Consume(t)) && !s.tickets.pcs[t].Holding?
    ensures Sound(TicketStep(s, t))
  {
    var s' := TicketStep(s, t);
    if s.tickets.pcs[t].TakeHead? {
      TakeHeadShape(s, t);
      var v' := TakeIndicesStep(s, v, t, s.tickets.pcs[t].actual, s');
      Explained(s', v');
    } else {
      OtherTicketShape(s, t);
      QuietTicketStep(s, v, s');
      Explained(s', v);
    }
  }

  /** Going on to the next block or returning, as far as the tickets are concerned. */
  lemma {:induction false} ContinueTickets(s: State, t: ThreadId, cur: nat, end: nat)
    requires Tickets.Sound(s.tickets) && LinkOk(s.tickets.pcs, s.work) && WellFormed(s)
    requires t < |s.work| && s.work[t].Working? && s.work[t].end == end
    ensures var s' := Continue(s, t, cur, end);
            && s' == s.(tickets := s'.tickets, work := s.work[t := NextWork(cur, end)])
            && Tickets.Sound(s'.tickets) && s'.tickets.tail == s.tickets.tail && s'.tickets.head == s.tickets.head
            && LinkOk(s'.tickets.pcs, s'.work)
  {
    Tickets.SoundStep(s.tickets, Tickets.Finish(t));
  }

  lemma {:induction false} MoveOutSound(s: State, v: View, t: ThreadId, cur: nat, end: nat, b: BlockId, start: nat)
    requires Inv(s, v) && WellFormed(s) && t < |s.work| && s.work[t] == Working(cur, end, Move(b, start))
    requires cur < Min(end, Base(start) + BLOCK_SIZE)
    ensures Sound(MoveOut(s, t, b, start, cur, end))
  {
    ElementIsThere(s, v, t);
    MoveOutStep(s, v, t, cur, end, b, start, s.log[cur], MoveOut(s, t, b, start, cur, end));
  }

  lemma {:induction false} RecycleSound(s: State, v: View, t: ThreadId, cur: nat, end: nat, b: BlockId)
    requires Inv(s, v) && WellFormed(s) && t < |s.work| && s.work[t] == Working(cur, end, Recycle(b))
      && s.tickets.pcs[t].Holding?
    ensures Sound(Continue(s, t, cur, end).(pool := s.pool + {b}, fault := s.fault || b in s.pool))
  {
    ContinueTickets(s, t, cur, end);
    RecycledIsRetired(s, v, t, b);
    var v' := RecycleStep(s, v, t, cur, end, b,
                          Continue(s, t, cur, end).(pool := s.pool + {b}, fault := s.fault || b in s.pool));
  }

  lemma {:induction false} ReleaseSound(s: State, v: View, t: ThreadId, cur: nat, end: nat, b: BlockId, start: nat)
    requires Inv(s, v) && WellFormed(s) && t < |s.work| && s.work[t] == Working(cur, end, Release(b, start))
    ensures Sound(s.(entry := s.entry - {Base(start)}, work := s.work[t := Working(cur, end, Recycle(b))]))
  {
    var s' := s.(entry := s.entry - {Base(start)}, work := s.work[t := Working(cur, end, Recycle(b))]);
    var v' := ReleaseStep(s, v, t, cur, end, b, start, s');
    Explained(s', v');
  }

  /** The cases of a work step. */
  lemma {:induction false} WorkStepCases(s: State, t: ThreadId)
    requires WellFormed(s) && Enabled(s, Consume(t)) && s.tickets.pcs[t].Holding?
    ensures var w := s.work[t];
      match w.at
      case Find => true
      case Move(b, start) =>
        WorkStep(s, t) == if w.cur < Min(w.end, Base(start) + BLOCK_SIZE) then MoveOut(s, t, b, start, w.cur, w.end)
                          else SetManyEmpty(s, t, b, start, w.cur, w.end)
      case Release(b, start) =>
        WorkStep(s, t)
          == s.(entry := s.entry - {Base(start)}, work := s.work[t := Working(w.cur, w.end, Recycle(b))])
      case Recycle(b) =>
        WorkStep(s, t) == Continue(s, t, w.cur, w.end).(pool := s.pool + {b}, fault := s.fault || b in s.pool)
  {
  }

  lemma {:induction false} WorkStepSound(s: State, v: View, t: ThreadId)
    requires Inv(s, v) && WellFormed(s) && Enabled(s, Consume(t)) && s.tickets.pcs[t].Holding?
    ensures Sound(WorkStep(s, t))
  {
    WorkStepCases(s, t);
    var Working(cur, end, at) := s.work[t];
    match at
    case Find =>
      FindStep(s, v, t);
      Explained(WorkStep(s, t), v);
    case Move(b, start) =>
      if cur < Min(end, Base(start) + BLOCK_SIZE) {
        MoveOutSound(s, v, t, cur, end, b, start);
      } else {
        SetManyEmptySound(s, v, t, cur, end, b, start);
      }
    case Release(b, start) => ReleaseSound(s, v, t, cur, end, b, start);
    case Recycle(b) => RecycleSound(s, v, t, cur, end, b);
  }

  /** What set_many_empty does when it does not fill the counter. */
  lemma {:induction false} CountShape(s: State, t: ThreadId, cur: nat, end: nat, b: BlockId, start: nat, count: nat,
        s': State)
    requires Tickets.Sound(s.tickets) && LinkOk(s.tickets.pcs, s.work) && WellFormed(s)
    requires t < |s.work| && s.work[t] == Working(cur, end, Move(b, start))
    requires count == s.counter[b] + (cur - start) != BLOCK_SIZE && s' == SetManyEmpty(s, t, b, start, cur, end)
    ensures s' == s.(tickets := s'.tickets, counter := s.counter[b := count], fault := s.fault || count > BLOCK_SIZE,
                     work := s.work[t := NextWork(cur, end)])
    ensures Tickets.Sound(s'.tickets) && s'.tickets.tail == s.tickets.tail && s'.tickets.head == s.tickets.head
    ensures LinkOk(s'.tickets.pcs, s'.work)
  {
    ContinueTickets(s.(counter := s.counter[b := count], fault := s.fault || count > BLOCK_SIZE), t, cur, end);
  }

  /** What set_many_empty does when it fills the counter. */
  lemma {:induction false} FillShape(s: State, t: ThreadId, cur: nat, end: nat, b: BlockId, start: nat)
    requires LinkOk(s.tickets.pcs, s.work) && WellFormed(s)
    requires t < |s.work| && s.work[t] == Working(cur, end, Move(b, start))
    requires s.counter[b] + (cur - start) == BLOCK_SIZE
    ensures var s' := SetManyEmpty(s, t, b, start, cur, end);
            && s' == s.(counter := s.counter[b := BLOCK_SIZE],
                        work := s.work[t := Working(cur, end, Release(b, start))])
            && LinkOk(s'.tickets.pcs, s'.work)
  {
  }

  lemma {:induction false} SetManyEmptySound(s: State, v: View, t: ThreadId, cur: nat, end: nat, b: BlockId, start: nat)
    requires Inv(s, v) && WellFormed(s) && Enabled(s, Consume(t)) && s.work[t] == Working(cur, end, Move(b, start))
    requires cur >= Min(end, Base(start) + BLOCK_SIZE) && s.tickets.pcs[t].Holding?
    ensures Sound(SetManyEmpty(s, t, b, start, cur, end))
  {
    var s' := SetManyEmpty(s, t, b, start, cur, end);
    var count := s.counter[b] + (cur - start);
    if count == BLOCK_SIZE {
      FillShape(s, t, cur, end, b, start);
      var v' := FillStep(s, v, t, cur, end, b, start, s');
    } else {
      CountShape(s, t, cur, end, b, start, count, s');
      var v' := CountStep(s, v, t, cur, end, b, start, count, s');
    }
  }

  lemma {:induction false} BeginDequeueSound(s: State, v: View, t: ThreadId, max: nat)
    requires Inv(s, v) && Enabled(s, BeginDequeue(t, max)) && WellFormed(s)
    ensures Sound(Apply(s, BeginDequeue(t, max)))
  {
    Tickets.SoundStep(s.tickets, Tickets.BeginDequeue(t, max));
    QuietTicketStep(s, v, Apply(s, BeginDequeue(t, max)));
  }

  lemma {:induction false} SoundWellFormed(s: State)
    requires Sound(s)
    ensures WellFormed(s)
  {
    var v :| Inv(s, v);
    InvWellFormed(s, v);
  }

  lemma {:induction false} StepSound(s: State, e: Event)
    requires Sound(s) && WellFormed(s) && Enabled(s, e)
    ensures Sound(Apply(s, e)) && WellFormed(Apply(s, e))
  {
    var v :| Inv(s, v);
    match e {
      case BeginEnqueue(x) => BeginEnqueueStep(s, v, x);
      case Produce(choice) => ProducerStepSound(s, v, choice);
      case BeginDequeue(t, max) => BeginDequeueSound(s, v, t, max);
      case Consume(t) =>
        if s.tickets.pcs[t].Holding? {
          WorkStepSound(s, v, t);
        } else {
          TicketStepSound(s, v, t);
        }
    }
    SoundWellFormed(Apply(s, e));
  }

  // ---------------------------------------------------------------------------------------------
  // What holds in every state of every run

  predicate Init(s: State) {
    && Tickets.Init(s.tickets)
    && |s.work| == |s.tickets.pcs| && (forall t :: 0 <= t < |s.work| ==> s.work[t].NoWork?)
    && s.producer.Ready? && s.entry == map[] && s.slots == map[] && s.log == [] && s.moved == map[] && !s.fault
    && (forall b :: b in s.pool ==> b < |s.counter|) && (forall b :: 0 <= b < |s.counter| ==> b in s.pool)
  }

  predicate IsRun(run: seq<State>, events: seq<Event>) {
    && |run| == |events| + 1
    && Init(run[0])
    && forall i :: 0 <= i < |events| ==> Happens(run, events, i)
  }

  /** Step number i of a run. */
  predicate Happens(run: seq<State>, events: seq<Event>, i: nat) {
    && i < |events| && i + 1 < |run|
    && WellFormed(run[i]) && Enabled(run[i], events[i]) && run[i + 1] == Apply(run[i], events[i])
  }

  lemma {:induction false} InitInv(s: State) returns (v: View)
    requires Init(s)
    ensures Inv(s, v)
  {
    v := View([], [], Repeat(Pooled, |s.counter|));
    Tickets.SoundInit(s.tickets);
    assert ProducerOk(s, v.phase);
    Assemble(s, v);
  }

  ghost predicate InvAt(run: seq<State>, k: nat, v: View) { k < |run| && Inv(run[k], v) }

  lemma {:induction false} InvNext(run: seq<State>, events: seq<Event>, k: nat, v: View) returns (v': View)
    requires IsRun(run, events) && 0 < k < |run| && InvAt(run, k - 1, v)
    ensures InvAt(run, k, v')
  {
    assert Happens(run, events, k - 1);
    StepSound(run[k - 1], events[k - 1]);
    v' :| Inv(run[k], v');
  }

  lemma {:induction false} InvFirst(run: seq<State>, events: seq<Event>) returns (v: View)
    requires IsRun(run, events)
    ensures InvAt(run, 0, v)
  {
    v := InitInv(run[0]);
  }

  lemma {:induction false} InvAlways(run: seq<State>, events: seq<Event>, i: nat) returns (v: View)
    requires IsRun(run, events) && i < |run|
    ensures InvAt(run, i, v)
  {
    if i == 0 {
      v := InvFirst(run, events);
    } else {
      var v0 := InvAlways(run, events, i - 1);
      v := InvNext(run, events, i, v0);
    }
  }

  lemma {:induction false} RunInv(run: seq<State>, events: seq<Event>, i: nat) returns (v: View)
    requires IsRun(run, events) && i < |run|
    ensures Inv(run[i], v)
  {
    v := InvAlways(run, events, i);
  }

  lemma {:induction false} RunSound(run: seq<State>, events: seq<Event>, i: nat)
    requires IsRun(run, events) && i < |run|
    ensures Sound(run[i])
  {
    var v := RunInv(run, events, i);
  }

  predicate EndsIn(run: seq<State>, events: seq<Event>, s: State) { IsRun(run, events) && run[|events|] == s }

  /** Some run leads to the state. */
  ghost predicate Reached(s: State) {
    exists run, events :: EndsIn(run, events, s)
  }

  lemma {:induction false} ReachedSound(s: State)
    requires Reached(s)
    ensures Sound(s) && WellFormed(s)
  {
    var run, events :| EndsIn(run, events, s);
    RunSound(run, events, |events|);
    SoundWellFormed(s);
  }

  lemma {:induction false} ReachedStep(s: State, e: Event)
    requires Reached(s) && WellFormed(s) && Enabled(s, e)
    ensures Reached(Apply(s, e))
  {
    var run, events :| EndsIn(run, events, s);
    var run', events' := run + [Apply(s, e)], events + [e];
    forall i | 0 <= i < |events'|
      ensures Happens(run', events', i)
    {
      assert i < |events| ==> Happens(run, events, i);
    }
    assert EndsIn(run', events', Apply(s, e));
  }

  lemma {:induction false} ReachedInit(s: State)
    requires Init(s)
    ensures Reached(s)
  {
    assert EndsIn([s], [], s);
  }

  /** What a consumer still has to count is in a block of the index. */
  lemma {:induction false} PendingLinked(s: State, t: ThreadId, i: nat)
    requires Reached(s) && t < |s.work| && IsPending(s.work[t], i)
    ensures Base(i) in s.entry
  {
    ReachedSound(s);
    var v :| Inv(s, v);
    PendingIsLinked(s, v, t, i);
  }

  /** Where a consumer stands in its block, and that a block about to be released is still in the index. */
  lemma {:induction false} WorkBounds(s: State, t: ThreadId)
    requires Reached(s) && t < |s.work| && s.work[t].Working?
    ensures var w := s.work[t];
      match w.at
      case Find => w.cur < w.end
      case Move(_, start) => start <= w.cur <= Min(w.end, Base(start) + BLOCK_SIZE) && start < w.end
      case Release(_, start) => start < w.cur <= Min(w.end, Base(start) + BLOCK_SIZE) && Base(start) in s.entry
      case Recycle(_) => w.cur <= w.end
  {
    ReachedSound(s);
    var v :| Inv(s, v);
    assert WorkOk(s.work[t], t, s.entry, v.phase);
    if s.work[t].at.Release? {
      var b := s.work[t].at.block;
      assert BlockOk(b, v.phase[b], s.counter[b], s.entry, v.done);
    }
  }

  /** While the producer is busy with a new block, that block is not in the index. */
  lemma {:induction false} ProducerAligned(s: State)
    requires Reached(s) && (s.producer.Requisition? || s.producer.Reset? || s.producer.Link?)
    ensures Offset(s.tickets.tail) == 0 && s.tickets.tail !in s.entry
  {
    ReachedSound(s);
    var v :| Inv(s, v);
  }

  // ---------------------------------------------------------------------------------------------
  // What the steps of a consumer leave alone

  lemma {:induction false} TicketStepFrame(s: State, t: ThreadId)
    requires WellFormed(s) && Enabled(s, Consume(t)) && !s.tickets.pcs[t].Holding?
    ensures var s' := TicketStep(s, t);
      && s' == s.(tickets := s'.tickets, work := s.work[t := s'.work[t]]) && |s'.work| == |s.work|
      && s'.tickets.tail == s.tickets.tail && (s'.work[t].Working? ==> s'.work[t].at.Find?)
  {
  }

  /** The consumer moves an element out, or fills the counter at the end of its block. */
  predicate StaysInBlock(w: Work, w': Work) {
    && w.Working? && w.at.Move? && w'.Working? && w'.end == w.end
    && if w'.at.Release? then w'.at.start == w.at.start && w'.cur == w.cur == Min(w.end, Base(w.at.start) + BLOCK_SIZE)
       else w'.at == w.at
  }

  /** The consumer is through with its block. */
  predicate LeavesBlock(w: Work, w': Work) {
    && w.Working? && (w.at.Move? || w.at.Recycle?) && w' == NextWork(w.cur, w.end)
    && (w.at.Move? ==> w.cur == Min(w.end, Base(w.at.start) + BLOCK_SIZE))
  }

  lemma {:induction false} ContinueFrame(s: State, t: ThreadId, cur: nat, end: nat)
    requires WellFormed(s) && t < |s.work| && s.tickets.pcs[t].Holding?
    ensures var s' := Continue(s, t, cur, end);
      && s' == s.(tickets := s'.tickets, work := s.work[t := NextWork(cur, end)])
      && s'.tickets.tail == s.tickets.tail
  {
  }

  lemma {:induction false} SetManyEmptyFrame(s: State, t: ThreadId, b: BlockId, start: nat, cur: nat, end: nat)
    requires WellFormed(s) && t < |s.work| && s.tickets.pcs[t].Holding? && b < |s.counter| && start <= cur
    ensures var s' := SetManyEmpty(s, t, b, start, cur, end);
      && |s'.work| == |s.work| && s'.work == s.work[t := s'.work[t]]
      && s'.entry == s.entry && s'.producer == s.producer && s'.tickets.tail == s.tickets.tail
      && (s'.work[t] == NextWork(cur, end) || s'.work[t] == Working(cur, end, Release(b, start)))
  {
    var count := s.counter[b] + (cur - start);
    ContinueFrame(s.(counter := s.counter[b := count], fault := s.fault || count > BLOCK_SIZE), t, cur, end);
  }

  lemma {:induction false} WorkStepFrame(s: State, t: ThreadId)
    requires WellFormed(s) && Enabled(s, Consume(t)) && s.tickets.pcs[t].Holding? && !WorkStep(s, t).fault
    requires s.work[t].at.Move? || s.work[t].at.Recycle?
    requires s.work[t].at.Move? ==> s.work[t].cur <= Min(s.work[t].end, Base(s.work[t].at.start) + BLOCK_SIZE)
    ensures var s' := WorkStep(s, t);
      && |s'.work| == |s.work| && s'.work == s.work[t := s'.work[t]]
      && s'.entry == s.entry && s'.producer == s.producer && s'.tickets.tail == s.tickets.tail
      && (StaysInBlock(s.work[t], s'.work[t]) || LeavesBlock(s.work[t], s'.work[t]))
  {
    WorkStepCases(s, t);
    var Working(cur, end, at) := s.work[t];
    match at
    case Move(b, start) =>
      if cur == Min(end, Base(start) + BLOCK_SIZE) {
        SetManyEmptyFrame(s, t, b, start, cur, end);
      }
    case Recycle(_) => ContinueFrame(s, t, cur, end);
  }

  lemma {:induction false} ReleaseFrame(s: State, t: ThreadId)
    requires WellFormed(s) && Enabled(s, Consume(t)) && s.tickets.pcs[t].Holding? && s.work[t].at.Release?
    ensures var s', w := WorkStep(s, t), s.work[t];
      s' == s.(entry := s.entry - {Base(w.at.start)}, work := s.work[t := w.(at := Recycle(w.at.block))])
  {
    WorkStepCases(s, t);
  }

  lemma {:induction false} Unfaulted(s: State)
    requires Reached(s)
    ensures !s.fault
  {
    ReachedSound(s);
    var v :| Inv(s, v);
  }

  /**
   No run makes an access that sets `fault`: every lookup finds the block, every element moved out is there and
   was not moved out before, counters never exceed the block size, no block is given back twice, and no slot is
   constructed over a live element.
   */
  lemma {:induction false} NoFault(run: seq<State>, events: seq<Event>, i: nat)
    requires IsRun(run, events) && i < |run|
    ensures !run[i].fault
  {
    var v := RunInv(run, events, i);
  }

  /** What enqueue was last called with, in the first k events. */
  function Argument(events: seq<Event>, k: nat): Option<Element>
    requires k <= |events|
  {
    if k == 0 then None
    else if events[k - 1].BeginEnqueue? then Some(events[k - 1].element) else Argument(events, k - 1)
  }

  /** The arguments of the enqueue calls of the first k events that have advanced the tail, in their order. */
  function Enqueued(run: seq<State>, events: seq<Event>, k: nat): seq<Element>
    requires k <= |events| && |run| == |events| + 1
  {
    if k == 0 then []
    else
      var before := Enqueued(run, events, k - 1);
      if run[k].tickets.tail != run[k - 1].tickets.tail && Argument(events, k - 1).Some? then
        before + [Argument(events, k - 1).value]
      else before
  }

  /** The element that the producer is about to enqueue. */
  function Carried(p: Producer): Option<Element> { if p.Ready? then None else Some(p.element) }

  /** How far the producer is from returning. */
  function Distance(p: Producer): nat {
    match p
    case Ready => 0
    case StoreTail(_) => 1
    case Construct(_) => 2
    case Link(_, _) => 3
    case Reset(_, _) => 4
    case Requisition(_) => 5
  }

  /** What a step means for the producer: it keeps its element, and the tail store appends that element to the log. */
  predicate Produces(s: State, e: Event, s': State) {
    match e
    case BeginEnqueue(x) => Carried(s'.producer) == Some(x) && s'.log == s.log && s'.tickets.tail == s.tickets.tail
    case Produce(choice) =>
      && Distance(s'.producer) < Distance(s.producer)
      && (!s'.producer.Ready? ==>
          Carried(s'.producer) == Carried(s.producer) && s'.log == s.log && s'.tickets.tail == s.tickets.tail)
      && (s'.producer.Ready? ==>
          if s.producer.Requisition? && choice.None? then s'.log == s.log && s'.tickets.tail == s.tickets.tail
          else s'.log == s.log + [s.producer.element] && s'.tickets.tail == s.tickets.tail + 1)
    case _ => s'.producer == s.producer && s'.log == s.log && s'.tickets.tail == s.tickets.tail
  }

  /** What a step means for a consumer at work: it goes on to the next index only by moving the element out. */
  predicate Consumes(w: Work, w': Work, moved: map<nat, Element>) {
    w.Working? && if w'.NoWork? then w.cur == w.end
                  else w'.end == w.end && (w'.cur == w.cur || (w'.cur == w.cur + 1 && w.cur in moved))
  }

  /** A work step of thread t: it concerns neither the producer nor the other consumers, and takes nothing back. */
  predicate WorksOn(s: State, t: ThreadId, s': State) {
    && s'.producer == s.producer && s'.log == s.log && s'.tickets.tail == s.tickets.tail
    && t < |s.work| == |s'.work| && s'.work == s.work[t := s'.work[t]]
    && (forall k :: k in s.moved ==> k in s'.moved)
    && (!s'.fault ==> Consumes(s.work[t], s'.work[t], s'.moved))
  }

  lemma {:induction false} MoveOutWorks(s: State, t: ThreadId, b: BlockId, start: nat, cur: nat, end: nat)
    requires WellFormed(s) && t < |s.work| && s.work[t].Working? && s.work[t].cur == cur && s.work[t].end == end
    ensures WorksOn(s, t, MoveOut(s, t, b, start, cur, end))
  {
  }

  lemma {:induction false} SetManyEmptyWorks(s: State, t: ThreadId, b: BlockId, start: nat, cur: nat, end: nat)
    requires WellFormed(s) && t < |s.work| && s.work[t].Working? && s.work[t].cur == cur && s.work[t].end == end
    requires s.tickets.pcs[t].Holding? && b < |s.counter| && start <= cur
    ensures WorksOn(s, t, SetManyEmpty(s, t, b, start, cur, end))
  {
    var count := s.counter[b] + (cur - start);
    ContinueFrame(s.(counter := s.counter[b := count], fault := s.fault || count > BLOCK_SIZE), t, cur, end);
  }

  lemma {:induction false} WorkStepWorks(s: State, t: ThreadId)
    requires WellFormed(s) && Enabled(s, Consume(t)) && s.tickets.pcs[t].Holding?
    ensures WorksOn(s, t, WorkStep(s, t))
  {
    WorkStepCases(s, t);
    var Working(cur, end, at) := s.work[t];
    match at
    case Find =>
    case Move(b, start) =>
      if cur < Min(end, Base(start) + BLOCK_SIZE) {
        MoveOutWorks(s, t, b, start, cur, end);
      } else {
        SetManyEmptyWorks(s, t, b, start, cur, end);
      }
    case Release(_, _) =>
    case Recycle(_) => ContinueFrame(s, t, cur, end);
  }

  lemma {:induction false} TicketStepProduces(s: State, t: ThreadId)
    requires WellFormed(s) && Enabled(s, Consume(t)) && !s.tickets.pcs[t].Holding?
    ensures var s' := TicketStep(s, t);
      && s'.producer == s.producer && s'.log == s.log && s'.tickets.tail == s.tickets.tail && s'.moved == s.moved
      && |s'.work| == |s.work| && forall u :: 0 <= u < |s.work| && u != t ==> s'.work[u] == s.work[u]
  {
    TicketStepFrame(s, t);
  }

  lemma {:induction false} StepProduces(s: State, e: Event)
    requires WellFormed(s) && Enabled(s, e)
    ensures Produces(s, e, Apply(s, e))
  {
    if e.Consume? {
      if s.tickets.pcs[e.thread].Holding? {
        WorkStepWorks(s, e.thread);
      } else {
        TicketStepProduces(s, e.thread);
      }
    }
  }

  /** The log is what enqueue was called with, and the producer carries what it was called with last. */
  predicate LogOk(run: seq<State>, events: seq<Event>, k: nat)
    requires k <= |events| && |run| == |events| + 1
  {
    && run[k].log == Enqueued(run, events, k)
    && (!run[k].producer.Ready? ==> Argument(events, k) == Carried(run[k].producer))
  }

  lemma {:induction false} LogNext(run: seq<State>, events: seq<Event>, k: nat)
    requires k < |events| && |run| == |events| + 1 && Produces(run[k], events[k], run[k + 1])
    requires events[k].BeginEnqueue? <==> run[k].producer.Ready? && !run[k + 1].producer.Ready?
    requires events[k].Produce? ==> !run[k].producer.Ready?
    requires LogOk(run, events, k)
    ensures LogOk(run, events, k + 1)
  {
  }

  lemma {:induction false} LogAtStart(run: seq<State>, events: seq<Event>)
    requires IsRun(run, events)
    ensures LogOk(run, events, 0)
  {
  }

  lemma {:induction false} LogAlways(run: seq<State>, events: seq<Event>, k: nat)
    requires IsRun(run, events) && k < |run|
    ensures LogOk(run, events, k)
  {
    if k == 0 {
      LogAtStart(run, events);
    } else {
      LogAlways(run, events, k - 1);
      StepOfRun(run, events, k - 1);
      LogNext(run, events, k - 1);
    }
  }

  /** The log is what enqueue was called with, in the order of the calls that advanced the tail. */
  lemma {:induction false} LogIsEnqueued(run: seq<State>, events: seq<Event>, k: nat)
    requires IsRun(run, events) && k < |run|
    ensures run[k].log == Enqueued(run, events, k)
  {
    LogAlways(run, events, k);
  }

  lemma {:induction false} StepOfRun(run: seq<State>, events: seq<Event>, k: nat)
    requires IsRun(run, events) && k < |events|
    ensures Produces(run[k], events[k], run[k + 1])
    ensures events[k].BeginEnqueue? <==> run[k].producer.Ready? && !run[k + 1].producer.Ready?
    ensures events[k].Produce? ==> !run[k].producer.Ready?
  {
    assert Happens(run, events, k);
    StepProduces(run[k], events[k]);
  }

  /** enqueue is called at event i and has not returned in state j. */
  predicate Enqueuing(run: seq<State>, events: seq<Event>, x: Element, i: nat, j: nat) {
    && i < |events| && i < j < |run| && events[i] == BeginEnqueue(x)
    && forall k :: i < k <= j ==> !run[k].producer.Ready?
  }

  lemma {:induction false} StillEnqueuing(run: seq<State>, events: seq<Event>, x: Element, i: nat, j: nat)
    requires IsRun(run, events) && Enqueuing(run, events, x, i, j)
    ensures Carried(run[j].producer) == Some(x) && run[j].log == run[i].log
  {
    assert Happens(run, events, j - 1);
    StepProduces(run[j - 1], events[j - 1]);
    if j > i + 1 {
      StillEnqueuing(run, events, x, i, j - 1);
    }
  }

  /**
   What enqueue answers: it appends its argument and nothing else, unless it asked for a block and got none; then it
   appends nothing.
   */
  lemma {:induction false} EnqueueAnswers(run: seq<State>, events: seq<Event>, x: Element, i: nat, j: nat)
    requires IsRun(run, events) && Enqueuing(run, events, x, i, j) && j < |events| && run[j + 1].producer.Ready?
    ensures if run[j].producer.Requisition? && events[j] == Produce(None) then run[j + 1].log == run[i].log
            else run[j + 1].log == run[i].log + [x]
  {
    StillEnqueuing(run, events, x, i, j);
    assert Happens(run, events, j);
    StepProduces(run[j], events[j]);
  }

  lemma {:induction false} StepConsumes(s: State, e: Event, t: ThreadId)
    requires WellFormed(s) && Enabled(s, e) && t < |s.work| && s.tickets.pcs[t].Holding?
    ensures t < |Apply(s, e).work| && forall k :: k in s.moved ==> k in Apply(s, e).moved
    ensures e != Consume(t) ==> Apply(s, e).work[t] == s.work[t]
    ensures e == Consume(t) && !Apply(s, e).fault ==> Consumes(s.work[t], Apply(s, e).work[t], Apply(s, e).moved)
  {
    if e.Consume? {
      if s.tickets.pcs[e.thread].Holding? {
        WorkStepWorks(s, e.thread);
      } else {
        TicketStepProduces(s, e.thread);
      }
    }
  }

  lemma {:induction false} MovedIsLogged(s: State, k: nat)
    requires Reached(s) && k in s.moved
    ensures k < |s.log| && s.moved[k] == s.log[k]
  {
    ReachedSound(s);
    var v :| Inv(s, v);
  }

  /** What has been moved out at an index is the element that was enqueued at that index. */
  lemma {:induction false} ConsumedIsEnqueued(run: seq<State>, events: seq<Event>, i: nat, k: nat)
    requires IsRun(run, events) && i < |run| && k in run[i].moved
    ensures k < |Enqueued(run, events, i)| && run[i].moved[k] == Enqueued(run, events, i)[k]
  {
    RunReached(run, events, i);
    MovedIsLogged(run[i], k);
    LogIsEnqueued(run, events, i);
  }

  /** At event i thread t obtains the indices first .. first + count - 1, and in state j it has not returned. */
  predicate Consuming(run: seq<State>, events: seq<Event>, t: ThreadId, first: nat, count: nat, i: nat, j: nat) {
    && i < |events| && i < j < |run| && t < |run[i].work| == |run[i].tickets.pcs| && events[i] == Consume(t)
    && !run[i].tickets.pcs[t].Holding?
    && t < |run[i + 1].tickets.pcs| && run[i + 1].tickets.pcs[t] == Tickets.Holding(first, count)
    && forall k :: i < k <= j ==> t < |run[k].work| == |run[k].tickets.pcs| && run[k].work[t].Working?
  }

  predicate MovedOut(moved: map<nat, Element>, lo: nat, hi: nat) { forall k :: lo <= k < hi ==> k in moved }

  /** Everything in front of the consumer's position is moved out. */
  predicate HasMoved(s: State, t: ThreadId, first: nat, count: nat) {
    && t < |s.work| && s.work[t].Working? && s.work[t].end == first + count
    && first <= s.work[t].cur <= first + count && MovedOut(s.moved, first, s.work[t].cur)
  }

  lemma {:induction false} Obtains(s: State, t: ThreadId)
    requires WellFormed(s) && Enabled(s, Consume(t)) && !s.tickets.pcs[t].Holding?
    ensures var s' := TicketStep(s, t);
      && t < |s'.tickets.pcs| == |s'.work|
      && (s'.tickets.pcs[t].Holding? ==>
          var pc := s'.tickets.pcs[t]; s'.work[t] == Working(pc.first, pc.first + pc.count, Find))
  {
  }

  /** A state in which thread t stayed where it was or made a step of its work. */
  predicate GoesOn(s: State, s': State, t: ThreadId) {
    && t < |s.work| && t < |s'.work| && (forall k :: k in s.moved ==> k in s'.moved)
    && (s'.work[t] == s.work[t] || Consumes(s.work[t], s'.work[t], s'.moved))
    && (s'.work[t].Working? ==> s'.work[t].cur <= s'.work[t].end)
  }

  lemma {:induction false} MovesFurther(s: State, s': State, t: ThreadId, first: nat, count: nat)
    requires GoesOn(s, s', t) && HasMoved(s, t, first, count)
    ensures if s'.work[t].Working? then HasMoved(s', t, first, count) else MovedOut(s'.moved, first, first + count)
  {
  }

  lemma {:induction false} KeepsMoving(s: State, e: Event, t: ThreadId, first: nat, count: nat)
    requires Reached(s) && WellFormed(s) && Enabled(s, e) && HasMoved(s, t, first, count)
    ensures t < |Apply(s, e).work|
    ensures if Apply(s, e).work[t].Working? then HasMoved(Apply(s, e), t, first, count)
            else MovedOut(Apply(s, e).moved, first, first + count)
  {
    ReachedStep(s, e);
    Unfaulted(Apply(s, e));
    StepConsumes(s, e, t);
    if Apply(s, e).work[t].Working? {
      NotPastEnd(Apply(s, e), t);
    }
    MovesFurther(s, Apply(s, e), t, first, count);
  }

  lemma {:induction false} NotPastEnd(s: State, t: ThreadId)
    requires Reached(s) && t < |s.work| && s.work[t].Working?
    ensures s.work[t].cur <= s.work[t].end
  {
    WorkBounds(s, t);
  }

  lemma {:induction false} StillConsuming(run: seq<State>, events: seq<Event>, t: ThreadId, first: nat, count: nat,
                                          i: nat, j: nat)
    requires IsRun(run, events) && Consuming(run, events, t, first, count, i, j)
    ensures HasMoved(run[j], t, first, count)
  {
    assert Happens(run, events, j - 1);
    if j > i + 1 {
      StillConsuming(run, events, t, first, count, i, j - 1);
      RunReached(run, events, j - 1);
      KeepsMoving(run[j - 1], events[j - 1], t, first, count);
    } else {
      Obtains(run[i], t);
    }
  }

  lemma {:induction false} RunReached(run: seq<State>, events: seq<Event>, i: nat)
    requires IsRun(run, events) && i < |run|
    ensures Reached(run[i])
  {
    var front, past := run[..i + 1], events[..i];
    forall k | 0 <= k < |past|
      ensures Happens(front, past, k)
    {
      assert Happens(run, events, k);
    }
    assert EndsIn(front, past, run[i]);
  }

  lemma {:induction false} FreshIndices(s: State, v: View, t: ThreadId, k: nat)
    requires Inv(s, v) && t < |s.work| && s.work[t].Working? && s.work[t].at.Find? && IsUnmoved(s.work[t], k)
    ensures k !in s.moved
  {
    assert Took(v.owner, t, Pending(s.work[t]), End(s.work[t]));
  }

  lemma {:induction false} FindsUnmoved(s: State, t: ThreadId, k: nat)
    requires Reached(s) && t < |s.work| && s.work[t].Working? && s.work[t].at.Find? && IsUnmoved(s.work[t], k)
    ensures k !in s.moved
  {
    ReachedSound(s);
    var v :| Inv(s, v);
    FreshIndices(s, v, t, k);
  }

  /**
   What dequeue and dequeue_bulk deliver: when a consumer returns, all elements that its tickets gave it have been moved
   out, none of them was before, and each is what enqueue was called with for that index.
   */
  lemma {:induction false} DequeueDelivers(run: seq<State>, events: seq<Event>, t: ThreadId, first: nat, count: nat,
                                           i: nat, j: nat, k: nat)
    requires IsRun(run, events) && Consuming(run, events, t, first, count, i, j) && first <= k < first + count
    requires j < |events| && t < |run[j + 1].work| && run[j + 1].work[t].NoWork?
    ensures k !in run[i + 1].moved && k in run[j + 1].moved
    ensures k < |Enqueued(run, events, j + 1)| && run[j + 1].moved[k] == Enqueued(run, events, j + 1)[k]
  {
    AllMoved(run, events, t, first, count, i, j);
    MovedAt(run[j + 1].moved, first, first + count, k);
    ConsumedIsEnqueued(run, events, j + 1, k);
    ObtainsFresh(run, events, t, first, count, i, j, k);
  }

  lemma {:induction false} MovedAt(moved: map<nat, Element>, lo: nat, hi: nat, k: nat)
    requires MovedOut(moved, lo, hi) && lo <= k < hi
    ensures k in moved
  {
  }

  lemma {:induction false} AllMoved(run: seq<State>, events: seq<Event>, t: ThreadId, first: nat, count: nat,
                                    i: nat, j: nat)
    requires IsRun(run, events) && Consuming(run, events, t, first, count, i, j)
    requires j < |events| && t < |run[j + 1].work| && run[j + 1].work[t].NoWork?
    ensures MovedOut(run[j + 1].moved, first, first + count)
  {
    StillConsuming(run, events, t, first, count, i, j);
    assert Happens(run, events, j);
    RunReached(run, events, j);
    KeepsMoving(run[j], events[j], t, first, count);
  }

  lemma {:induction false} ObtainsFresh(run: seq<State>, events: seq<Event>, t: ThreadId, first: nat, count: nat,
                                        i: nat, j: nat, k: nat)
    requires IsRun(run, events) && Consuming(run, events, t, first, count, i, j) && first <= k < first + count
    ensures k !in run[i + 1].moved
  {
    assert Happens(run, events, i);
    Obtains(run[i], t);
    RunReached(run, events, i + 1);
    FindsUnmoved(run[i + 1], t, k);
  }

  /** How far the consumer is from the next element, or from returning. */
  function StepsLeft(w: Work): nat {
    if w.NoWork? then 0
    else
      match w.at
      case Find => 2
      case Move(_, start) => if w.cur < Min(w.end, Base(start) + BLOCK_SIZE) then 1 else 5
      case Release(_, _) => 4
      case Recycle(_) => 3
  }

  /** A consumer at work gets on with every step of its own, so it returns after finitely many of them. */
  lemma {:induction false} ConsumerProgresses(s: State, t: ThreadId)
    requires Reached(s) && WellFormed(s) && Enabled(s, Consume(t)) && s.tickets.pcs[t].Holding?
    ensures var w, w' := s.work[t], WorkStep(s, t).work[t];
      || w'.NoWork? || w'.end - w'.cur < w.end - w.cur
      || (w'.cur == w.cur && w'.end == w.end && StepsLeft(w') < StepsLeft(w))
  {
    WorkBounds(s, t);
    ReachedStep(s, Consume(t));
    Unfaulted(WorkStep(s, t));
    WorkStepCases(s, t);
    var Working(cur, end, at) := s.work[t];
    match at
    case Move(b, start) =>
      if cur >= Min(end, Base(start) + BLOCK_SIZE) {
        SetManyEmptyFrame(s, t, b, start, cur, end);
      }
    case Recycle(_) => ContinueFrame(s, t, cur, end);
    case _ =>
  }

  /** The next step of thread t moves out the element at index k. */
  predicate MovesOut(s: State, t: ThreadId, k: nat) {
    && t < |s.work| && s.work[t].Working? && s.work[t].at.Move? && s.work[t].cur == k
    && k < Min(s.work[t].end, Base(s.work[t].at.start) + BLOCK_SIZE)
  }

  /** Each element is moved out at most once, and only one consumer is ever about to do it. */
  lemma {:induction false} ConsumedOnce(run: seq<State>, events: seq<Event>, i: nat, k: nat, t: ThreadId)
    requires IsRun(run, events) && i < |run| && MovesOut(run[i], t, k)
    ensures k !in run[i].moved
    ensures forall u :: MovesOut(run[i], u, k) ==> u == t
  {
    var v := RunInv(run, events, i);
    ElementIsThere(run[i], v, t);
    PendingIsLinked(run[i], v, t, k);
    forall u: ThreadId | MovesOut(run[i], u, k)
      ensures u == t
    {
      assert WorkOk(run[i].work[u], u, run[i].entry, v.phase);
      assert IsPending(run[i].work[u], k);
    }
  }

  predicate Releases(s: State, t: ThreadId, b: BlockId) {
    t < |s.work| && s.work[t].Working? && s.work[t].at.Release? && s.work[t].at.block == b
  }

  predicate Recycles(s: State, t: ThreadId, b: BlockId) {
    t < |s.work| && s.work[t].Working? && s.work[t].at == Recycle(b)
  }

  /**
   Exactly one consumer sees a block's counter reach the block size, it does so only after every slot of the
   block has been consumed, and it gives the block back once: the block is then neither free nor in the index.
   */
  lemma {:induction false} BlockReturnedOnce(run: seq<State>, events: seq<Event>, i: nat, b: BlockId, t: ThreadId)
    requires IsRun(run, events) && i < |run| && (Releases(run[i], t, b) || Recycles(run[i], t, b))
    ensures b !in run[i].pool
    ensures forall u :: Releases(run[i], u, b) || Recycles(run[i], u, b) ==> u == t
    ensures Releases(run[i], t, b) ==>
              var base := Base(run[i].work[t].at.start);
              forall k :: base <= k < base + BLOCK_SIZE ==> k in run[i].moved
    ensures Recycles(run[i], t, b) ==> forall base :: base in run[i].entry ==> run[i].entry[base] != b
    ensures forall o :: (b, o) !in run[i].slots
  {
    var s := run[i];
    var v := RunInv(run, events, i);
    forall u: ThreadId | u < |s.work|
      ensures Releases(s, u, b) || Recycles(s, u, b) ==> b < |v.phase| && v.phase[b].thread == u
    {
      assert WorkOk(s.work[u], u, s.entry, v.phase);
    }
    assert WorkOk(s.work[t], t, s.entry, v.phase);
    if v.phase[b].Closing? {
      FullBlock(s, v, b);
      forall k | v.phase[b].base <= k < v.phase[b].base + BLOCK_SIZE
        ensures k in s.moved
      {
        EmptiedAt(v.done, s.moved, v.phase[b].base, k);
      }
    }
    NoSlots(s, v, b);
  }

  lemma {:induction false} NoSlots(s: State, v: View, b: BlockId)
    requires SlotsOk(s.slots, s.entry, v.phase, s.moved, Constructed(s.log, s.producer)) && b < |v.phase|
    requires v.phase[b].Retired? || (v.phase[b].Closing? && Emptied(v.done, s.moved, v.phase[b].base))
    ensures forall o :: (b, o) !in s.slots
  {
    forall o | (b, o) in s.slots
      ensures false
    {
      if v.phase[b].Closing? {
        EmptiedAt(v.done, s.moved, v.phase[b].base, v.phase[b].base + o);
      }
    }
  }

  /**
   No element and no block is lost.  When no call is in progress, exactly the elements from headIndex on are
   still there, each in its slot, and every block is either free or in the index with an index from headIndex on.
   */
  lemma {:induction false} NothingLost(run: seq<State>, events: seq<Event>, i: nat, b: BlockId)
    requires IsRun(run, events) && i < |run| && b < |run[i].counter|
    requires run[i].producer.Ready? && forall t :: 0 <= t < |run[i].work| ==> run[i].work[t].NoWork?
    ensures forall k :: k in run[i].moved <==> 0 <= k < run[i].tickets.head
    ensures forall k :: run[i].tickets.head <= k < |run[i].log| ==>
              SlotHolds(run[i].slots, run[i].entry, k, run[i].log[k])
    ensures b !in run[i].pool ==>
              exists base :: base in run[i].entry && run[i].entry[base] == b && run[i].tickets.head < base + BLOCK_SIZE
  {
    var v := RunInv(run, events, i);
    AllTakenAreDone(run[i], v);
    if b !in run[i].pool {
      var base := UsedBlock(run[i], v, b);
    }
  }

  /** With no consumer at work every index handed out is moved and counted. */
  lemma {:induction false} AllTakenAreDone(s: State, v: View)
    requires DoneOk(s.work, v.owner, v.done) && MovedOk(s.work, v.owner, s.moved, s.log)
    requires forall t :: 0 <= t < |s.work| ==> s.work[t].NoWork?
    ensures |v.done| == |v.owner| && forall k :: 0 <= k < |v.owner| ==> k in s.moved && v.done[k]
  {
    forall k | 0 <= k < |v.owner|
      ensures k in s.moved && v.done[k]
    {
      assert !IsUnmoved(s.work[v.owner[k]], k) && !IsPending(s.work[v.owner[k]], k);
    }
  }

  lemma {:induction false} UsedBlock(s: State, v: View, b: BlockId) returns (base: nat)
    requires BlocksOk(s.entry, s.counter, v.done, v.phase) && PoolOk(s.pool, v.phase)
      && ActorsOk(v.phase, s.work, s.producer)
    requires b < |v.phase| && b !in s.pool && s.producer.Ready? && forall t :: 0 <= t < |s.work| ==> s.work[t].NoWork?
    requires forall k :: 0 <= k < |v.done| ==> v.done[k]
    ensures base in s.entry && s.entry[base] == b && |v.done| < base + BLOCK_SIZE
  {
    assert BackedBy(v.phase[b], b, s.work, s.producer);
    assert BlockOk(b, v.phase[b], s.counter[b], s.entry, v.done);
    base := v.phase[b].base;
    if base + BLOCK_SIZE <= |v.done| {
      CountAll(v.done, base, base + BLOCK_SIZE);
    }
  }

  lemma {:induction false} CountAll(done: seq<bool>, lo: nat, hi: nat)
    requires lo <= hi <= |done| && forall i :: lo <= i < hi ==> done[i]
    ensures CountDone(done, lo, hi) == hi - lo
    decreases hi
  {
    if lo < hi {
      CountAll(done, lo, hi - 1);
    }
  }
}
