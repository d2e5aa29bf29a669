/**
 The optimistic ticket protocol by which consumers claim elements of one producer
 (include/data_structure/concurrentqueue.h, ImplicitProducer::dequeue and dequeue_bulk).

 A consumer claims `desired` tickets by adding to dequeueOptimisticCount, rechecks tailIndex, gives the
 tickets it cannot use back through dequeueOvercommit, and only then adds to headIndex.  Each atomic access
 is one step; steps of all consumers and of the producer interleave freely.  Indices are unbounded;
 CircularLessThan below says when the source's modular comparison is this one.  `dequeue` makes the same
 accesses as `dequeue_bulk` with max = 1.
 */
module Tickets {
  import opened Common

  type ThreadId = nat

  datatype PC =
    | Idle
    | LoadTail(max: nat)
    | LoadOvercommit(max: nat, tail: nat)
    | LoadOptimistic(max: nat, tail: nat, over: nat)
    | Claim(desired: nat, over: nat)
    | Recheck(desired: nat, over: nat, mine: nat)
    | GiveBack(excess: nat, actual: nat, mine: nat)
    | TakeHead(actual: nat)
    | Holding(first: nat, count: nat)     // the elements first .. first + count - 1 are this consumer's

  datatype State = State(tail: nat, optimistic: nat, overcommit: nat, head: nat, pcs: seq<PC>)

  datatype Event =
    | Enqueued(count: nat)                // the producer stores a larger tailIndex
    | BeginDequeue(thread: ThreadId, max: nat)
    | Advance(thread: ThreadId)
    | Finish(thread: ThreadId)            // the consumer is done with its elements and returns

  predicate Enabled(s: State, e: Event) {
    match e
    case Enqueued(_) => true
    case BeginDequeue(t, max) => t < |s.pcs| && s.pcs[t].Idle? && max > 0
    case Advance(t) => t < |s.pcs| && !s.pcs[t].Idle? && !s.pcs[t].Holding?
    case Finish(t) => t < |s.pcs| && s.pcs[t].Holding?
  }

  function Goto(s: State, t: ThreadId, pc: PC): State
    requires t < |s.pcs|
  {
    s.(pcs := s.pcs[t := pc])
  }

  function Apply(s: State, e: Event): State
    requires Enabled(s, e)
  {
    match e
    case Enqueued(n) => s.(tail := s.tail + n)
    case BeginDequeue(t, max) => Goto(s, t, LoadTail(max))
    case Advance(t) => Step(s, t)
    case Finish(t) => Goto(s, t, Idle)
  }

  /** What a consumer does after it has rechecked the tail. */
  function Rechecked(s: State, desired: nat, over: nat, mine: nat): PC {
    var actual := s.tail - (mine - over);
    if actual <= 0 then GiveBack(desired, 0, mine)
    else if actual < desired then GiveBack(desired - actual, actual, mine) else TakeHead(desired)
  }

  function Step(s: State, t: ThreadId): State
    requires t < |s.pcs| && !s.pcs[t].Idle? && !s.pcs[t].Holding?
  {
    match s.pcs[t]
    case LoadTail(max) => Goto(s, t, LoadOvercommit(max, s.tail))
    case LoadOvercommit(max, tail) => Goto(s, t, LoadOptimistic(max, tail, s.overcommit))
    case LoadOptimistic(max, tail, over) =>
      var desired := tail - (s.optimistic - over);
      Goto(s, t, if 0 < desired then Claim(Min(desired, max), over) else Idle)
    case Claim(desired, over) =>
      Goto(s.(optimistic := s.optimistic + desired), t, Recheck(desired, over, s.optimistic))
    case Recheck(desired, over, mine) =>
      Goto(s, t, Rechecked(s, desired, over, mine))
    case GiveBack(excess, actual, _) =>
      Goto(s.(overcommit := s.overcommit + excess), t, if actual == 0 then Idle else TakeHead(actual))
    case TakeHead(actual) =>
      Goto(s.(head := s.head + actual), t, Holding(s.head, actual))
  }

  // ---------------------------------------------------------------------------------------------
  // The invariant

  /** Tickets claimed and neither given back nor turned into elements. */
  function InFlight(pc: PC): nat {
    match pc
    case Recheck(desired, _, _) => desired
    case GiveBack(excess, actual, _) => excess + actual
    case TakeHead(actual) => actual
    case _ => 0
  }

  /** Tickets granted by the recheck and not yet turned into elements. */
  function Granted(pc: PC): nat {
    match pc
    case GiveBack(_, actual, _) => actual
    case TakeHead(actual) => actual
    case _ => 0
  }

  function TotalInFlight(pcs: seq<PC>): nat {
    if pcs == [] then 0 else TotalInFlight(pcs[..|pcs| - 1]) + InFlight(pcs[|pcs| - 1])
  }

  function TotalGranted(pcs: seq<PC>): nat {
    if pcs == [] then 0 else TotalGranted(pcs[..|pcs| - 1]) + Granted(pcs[|pcs| - 1])
  }

  /** Which tickets have been granted and which given back: a proof-only view of the run so far. */
  datatype View = View(granted: set<int>, failed: set<int>)

  datatype Interval = Interval(lo: int, hi: int)

  /** The tickets that the thread has claimed and that are still undecided or still to be given back. */
  function Pending(pc: PC): Interval {
    match pc
    case Recheck(desired, _, mine) => Interval(mine, mine + desired)
    case GiveBack(excess, actual, mine) => Interval(mine + actual, mine + actual + excess)
    case _ => Interval(0, 0)
  }

  predicate Avoids(s: set<int>, i: Interval) { forall x :: x in s ==> x < i.lo || i.hi <= x }

  predicate NoCommon(s: set<int>, r: set<int>) { forall x :: x in s ==> x !in r }

  predicate Separate(i: Interval, j: Interval) {
    i.lo < i.hi && j.lo < j.hi ==> i.hi <= j.lo || j.hi <= i.lo
  }

  predicate Inside(i: Interval, j: Interval) {
    i.lo < i.hi ==> j.lo <= i.lo && i.hi <= j.hi
  }

  function Below(s: set<int>, p: int): set<int> { set x | x in s && x < p }

  predicate PcOk(pc: PC, s: State, v: View) {
    match pc
    case LoadTail(max) => max > 0
    case LoadOvercommit(max, _) => max > 0
    case LoadOptimistic(max, _, over) => max > 0 && over <= s.overcommit
    case Claim(desired, over) => desired > 0 && over <= s.overcommit
    case Recheck(desired, over, mine) => desired > 0 && over <= |Below(v.failed, mine)|
    case TakeHead(actual) => actual > 0
    case Holding(first, count) => count > 0 && first + count <= s.head
    case _ => true
  }

  predicate Disjoint(pcs: seq<PC>, v: View) {
    && NoCommon(v.granted, v.failed)
    && (forall t :: 0 <= t < |pcs| ==> Avoids(v.granted, Pending(pcs[t])) && Avoids(v.failed, Pending(pcs[t])))
    && (forall t, u :: 0 <= t < u < |pcs| ==> Separate(Pending(pcs[t]), Pending(pcs[u])))
  }

  predicate Within(s: set<int>, hi: int) { forall x :: x in s ==> 0 <= x < hi }

  predicate AllWithin(s: State, v: View) {
    && Within(v.granted, s.optimistic) && Within(v.failed, s.optimistic)
    && (forall t :: 0 <= t < |s.pcs| ==> 0 <= Pending(s.pcs[t]).lo <= Pending(s.pcs[t]).hi <= s.optimistic)
  }

  /** A granted ticket exceeds the tail by less than the number of lower tickets that were given back. */
  predicate Covered(v: View, tail: nat) {
    forall g :: g in v.granted ==> g < tail + |Below(v.failed, g)|
  }

  predicate AllOk(s: State, v: View) {
    forall t :: 0 <= t < |s.pcs| ==> PcOk(s.pcs[t], s, v)
  }

  predicate AllApart(pcs: seq<PC>) {
    forall t, u :: 0 <= t < u < |pcs| ==> Apart(pcs[t], pcs[u])
  }

  predicate Counted(s: State, v: View) {
    && s.optimistic == s.overcommit + s.head + TotalInFlight(s.pcs)
    && |v.failed| == s.overcommit
    && |v.granted| == s.head + TotalGranted(s.pcs)
  }

  predicate Inv(s: State, v: View) {
    Counted(s, v) && AllWithin(s, v) && Disjoint(s.pcs, v) && Covered(v, s.tail) && AllOk(s, v) && AllApart(s.pcs)
  }

  /** Two consumers hold different elements. */
  predicate Apart(p: PC, q: PC) {
    p.Holding? && q.Holding? ==> p.first + p.count <= q.first || q.first + q.count <= p.first
  }

  /**
   The heart of the protocol.  Take the largest granted ticket m: the tickets given back below m and all
   granted tickets are different numbers in 0 .. m, and the first kind already pays for what m exceeds the tail by.
   */
  lemma {:induction false} GrantsWithinTail(granted: set<int>, failed: set<int>, issued: nat, tail: nat)
    requires NoCommon(granted, failed)
    requires Within(granted, issued) && Within(failed, issued)
    requires forall g :: g in granted ==> g < tail + |Below(failed, g)|
    ensures |granted| <= tail
  {
    var m := Greatest(granted, issued);
    var below := Below(failed, m);
    assert granted !! below && granted <= Range(0, m + 1) && below <= Range(0, m + 1);
    DisjointSizes(granted, below, Range(0, m + 1));
    RangeSize(0, m + 1);
  }

  lemma {:induction false} BelowGrows(a: set<int>, b: set<int>, p: int, q: int)
    requires a <= b && p <= q
    ensures |Below(a, p)| <= |Below(b, q)|
  {
    SubsetSize(Below(a, p), Below(b, q));
  }

  lemma {:induction false} TotalsUpdate(pcs: seq<PC>, t: ThreadId, pc: PC)
    requires t < |pcs|
    ensures TotalInFlight(pcs[t := pc]) + InFlight(pcs[t]) == TotalInFlight(pcs) + InFlight(pc)
    ensures TotalGranted(pcs[t := pc]) + Granted(pcs[t]) == TotalGranted(pcs) + Granted(pc)
  {
    var last := |pcs| - 1;
    if t < last {
      TotalsUpdate(pcs[..last], t, pc);
      assert pcs[t := pc][..last] == pcs[..last][t := pc];
    } else {
      assert pcs[t := pc][..last] == pcs[..last];
    }
  }

  // ---------------------------------------------------------------------------------------------
  // Every step keeps the invariant

  lemma {:induction false} Assemble(s: State, v: View)
    requires Counted(s, v) && AllWithin(s, v) && Disjoint(s.pcs, v) && Covered(v, s.tail)
    requires AllOk(s, v) && AllApart(s.pcs)
    ensures Inv(s, v)
  {
  }

  /** The counters move by as much as thread t's tickets. */
  lemma {:induction false} CountersMove(s: State, v: View, t: ThreadId, s': State, v': View)
    requires Counted(s, v) && t < |s.pcs| == |s'.pcs| && s'.pcs == s.pcs[t := s'.pcs[t]]
    requires s'.optimistic + s.overcommit + s.head + InFlight(s.pcs[t])
          == s.optimistic + s'.overcommit + s'.head + InFlight(s'.pcs[t])
    requires |v'.failed| + s.overcommit == |v.failed| + s'.overcommit
    requires |v'.granted| + s.head + Granted(s.pcs[t]) == |v.granted| + s'.head + Granted(s'.pcs[t])
    ensures Counted(s', v')
  {
    TotalsUpdate(s.pcs, t, s'.pcs[t]);
  }

  /** A step of thread t keeps what is known about the other threads when counters and failed tickets only grow. */
  lemma {:induction false} OthersOk(s: State, v: View, v': View, t: ThreadId, s': State)
    requires AllOk(s, v) && v.failed <= v'.failed && t < |s.pcs|
    requires s'.overcommit >= s.overcommit && s'.head >= s.head
    requires |s'.pcs| == |s.pcs| && s'.pcs == s.pcs[t := s'.pcs[t]] && PcOk(s'.pcs[t], s', v')
    ensures AllOk(s', v')
  {
    forall u | 0 <= u < |s'.pcs|
      ensures PcOk(s'.pcs[u], s', v')
    {
      if u != t {
        assert PcOk(s.pcs[u], s, v);
        if s.pcs[u].Recheck? {
          BelowGrows(v.failed, v'.failed, s.pcs[u].mine, s.pcs[u].mine);
        }
      }
    }
  }

  lemma {:induction false} OthersApart(pcs: seq<PC>, t: ThreadId, pc: PC)
    requires AllApart(pcs) && t < |pcs|
    requires forall u :: 0 <= u < |pcs| && u != t ==> Apart(pcs[u], pc) && Apart(pc, pcs[u])
    ensures AllApart(pcs[t := pc])
  {
    var pcs' := pcs[t := pc];
    forall a, b | 0 <= a < b < |pcs'|
      ensures Apart(pcs'[a], pcs'[b])
    {
      assert Apart(pcs[a], pcs[b]);
    }
  }

  /** The tickets lo .. hi - 1 join a set that avoided them. */
  lemma {:induction false} Join(s: set<int>, i: Interval) returns (r: set<int>)
    requires i.lo <= i.hi && Avoids(s, i)
    ensures |r| == |s| + (i.hi - i.lo) && s <= r
    ensures forall x :: x in r <==> x in s || i.lo <= x < i.hi
  {
    r := s + Range(i.lo, i.hi);
    RangeSize(i.lo, i.hi);
  }

  /** Deciding the tickets i, some of thread t's pending ones, keeps all groups of tickets disjoint. */
  lemma {:induction false} DecideKeepsDisjoint(pcs: seq<PC>, v: View, t: ThreadId, pc: PC, v': View, i: Interval)
    requires t < |pcs| && Disjoint(pcs, v)
    requires Inside(i, Pending(pcs[t])) && Inside(Pending(pc), Pending(pcs[t])) && Separate(Pending(pc), i)
    requires NoCommon(v'.granted, v'.failed)
    requires forall x :: x in v'.granted || x in v'.failed ==> x in v.granted || x in v.failed || i.lo <= x < i.hi
    ensures Disjoint(pcs[t := pc], v')
  {
    var pcs' := pcs[t := pc];
    forall a, b | 0 <= a < b < |pcs'|
      ensures Separate(Pending(pcs'[a]), Pending(pcs'[b]))
    {
      assert Separate(Pending(pcs[a]), Pending(pcs[b]));
    }
    forall a | 0 <= a < |pcs'|
      ensures Avoids(v'.granted, Pending(pcs'[a])) && Avoids(v'.failed, Pending(pcs'[a]))
    {
      assert Avoids(v.granted, Pending(pcs[a])) && Avoids(v.failed, Pending(pcs[a]));
      assert a < t ==> Separate(Pending(pcs[a]), Pending(pcs[t]));
      assert t < a ==> Separate(Pending(pcs[t]), Pending(pcs[a]));
    }
  }

  lemma {:induction false} DecideKeepsWithin(s: State, v: View, t: ThreadId, s': State, v': View, i: Interval)
    requires AllWithin(s, v) && t < |s.pcs| == |s'.pcs| && s'.pcs == s.pcs[t := s'.pcs[t]]
    requires s'.optimistic == s.optimistic && Inside(i, Pending(s.pcs[t]))
    requires Pending(s'.pcs[t]).lo <= Pending(s'.pcs[t]).hi
    requires Pending(s'.pcs[t]).lo >= 0 && Pending(s'.pcs[t]).hi <= s.optimistic
    requires forall x :: x in v'.granted || x in v'.failed ==> x in v.granted || x in v.failed || i.lo <= x < i.hi
    ensures AllWithin(s', v')
  {
  }

  /** The part of the invariant that speaks about single tickets survives any step that only moves thread t on. */
  lemma {:induction false} MoveOn(s: State, v: View, t: ThreadId, pc: PC, head: nat)
    requires Inv(s, v) && t < |s.pcs| && s.head <= head
    requires Pending(pc) == Pending(s.pcs[t])
    requires PcOk(pc, s.(head := head), v)
    requires forall u :: 0 <= u < |s.pcs| && u != t ==> Apart(s.pcs[u], pc) && Apart(pc, s.pcs[u])
    requires s.optimistic == s.overcommit + head + TotalInFlight(s.pcs[t := pc])
    requires |v.granted| == head + TotalGranted(s.pcs[t := pc])
    ensures Inv(Goto(s, t, pc).(head := head), v)
  {
    var s' := Goto(s, t, pc).(head := head);
    OthersOk(s, v, v, t, s');
    OthersApart(s.pcs, t, pc);
    DecideKeepsDisjoint(s.pcs, v, t, pc, v, Interval(0, 0));
    DecideKeepsWithin(s, v, t, s', v, Interval(0, 0));
    Assemble(s', v);
  }

  lemma {:induction false} QuietStep(s: State, v: View, t: ThreadId, pc: PC)
    requires Inv(s, v) && t < |s.pcs|
    requires InFlight(pc) == InFlight(s.pcs[t]) && Granted(pc) == Granted(s.pcs[t])
    requires Pending(pc) == Pending(s.pcs[t]) && PcOk(pc, s, v) && !pc.Holding?
    ensures Inv(Goto(s, t, pc), v)
  {
    TotalsUpdate(s.pcs, t, pc);
    MoveOn(s, v, t, pc, s.head);
  }

  lemma {:induction false} ClaimDisjoint(s: State, v: View, t: ThreadId, pc: PC)
    requires AllWithin(s, v) && Disjoint(s.pcs, v) && t < |s.pcs|
    requires Pending(s.pcs[t]) == Interval(0, 0) && Pending(pc).lo == s.optimistic <= Pending(pc).hi
    ensures Disjoint(s.pcs[t := pc], v)
  {
    var pcs' := s.pcs[t := pc];
    forall a, b | 0 <= a < b < |pcs'|
      ensures Separate(Pending(pcs'[a]), Pending(pcs'[b]))
    {
      assert Separate(Pending(s.pcs[a]), Pending(s.pcs[b]));
    }
  }

  lemma {:induction false} ClaimWithin(s: State, v: View, t: ThreadId, pc: PC, optimistic: nat)
    requires AllWithin(s, v) && t < |s.pcs| && s.optimistic <= optimistic
    requires 0 <= Pending(pc).lo <= Pending(pc).hi <= optimistic
    ensures AllWithin(Goto(s.(optimistic := optimistic), t, pc), v)
  {
  }

  lemma {:induction false} ClaimStep(s: State, v: View, t: ThreadId)
    requires Inv(s, v) && t < |s.pcs| && s.pcs[t].Claim?
    ensures Inv(Step(s, t), v)
  {
    var Claim(desired, over) := s.pcs[t];
    var pc := Recheck(desired, over, s.optimistic);
    var s' := Goto(s.(optimistic := s.optimistic + desired), t, pc);
    assert PcOk(s.pcs[t], s, v);
    assert Below(v.failed, s.optimistic) == v.failed;
    CountersMove(s, v, t, s', v);
    ClaimDisjoint(s, v, t, pc);
    ClaimWithin(s, v, t, pc, s.optimistic + desired);
    OthersOk(s, v, v, t, s');
    OthersApart(s.pcs, t, pc);
    assert Step(s, t) == s';
    Assemble(s', v);
  }

  /** The granted tickets are paid for by the failed ones below them. */
  lemma {:induction false} GrantedCovered(v: View, v': View, tail: nat, over: nat, mine: int, n: nat)
    requires Covered(v, tail) && v'.failed == v.failed
    requires over <= |Below(v.failed, mine)| && (n > 0 ==> mine + n <= tail + over)
    requires forall g :: g in v'.granted ==> g in v.granted || mine <= g < mine + n
    ensures Covered(v', tail)
  {
    forall g | g in v'.granted
      ensures g < tail + |Below(v'.failed, g)|
    {
      if mine <= g < mine + n {
        BelowGrows(v.failed, v.failed, mine, g);
      }
    }
  }

  lemma {:induction false} RecheckStep(s: State, v: View, t: ThreadId) returns (v': View)
    requires Inv(s, v) && t < |s.pcs| && s.pcs[t].Recheck?
    ensures Inv(Step(s, t), v')
  {
    var Recheck(desired, over, mine) := s.pcs[t];
    var pc := Rechecked(s, desired, over, mine);
    var s' := Goto(s, t, pc);
    assert PcOk(s.pcs[t], s, v) && Avoids(v.granted, Pending(s.pcs[t])) && Avoids(v.failed, Pending(s.pcs[t]));
    var i := Interval(mine, mine + Granted(pc));
    var granted := Join(v.granted, i);
    v' := v.(granted := granted);
    DecideKeepsDisjoint(s.pcs, v, t, pc, v', i);
    DecideKeepsWithin(s, v, t, s', v', i);
    GrantedCovered(v, v', s.tail, over, mine, Granted(pc));
    CountersMove(s, v, t, s', v');
    OthersOk(s, v, v', t, s');
    OthersApart(s.pcs, t, pc);
    assert Step(s, t) == s';
    Assemble(s', v');
  }

  lemma {:induction false} FailedCovered(v: View, v': View, tail: nat)
    requires Covered(v, tail) && v'.granted == v.granted && v.failed <= v'.failed
    ensures Covered(v', tail)
  {
    forall g | g in v'.granted
      ensures g < tail + |Below(v'.failed, g)|
    {
      BelowGrows(v.failed, v'.failed, g, g);
    }
  }

  lemma {:induction false} GiveBackStep(s: State, v: View, t: ThreadId) returns (v': View)
    requires Inv(s, v) && t < |s.pcs| && s.pcs[t].GiveBack?
    ensures Inv(Step(s, t), v')
  {
    var GiveBack(excess, actual, _) := s.pcs[t];
    var pc := if actual == 0 then Idle else TakeHead(actual);
    var s' := Goto(s.(overcommit := s.overcommit + excess), t, pc);
    var i := Pending(s.pcs[t]);
    assert Avoids(v.granted, i) && Avoids(v.failed, i);
    var failed := Join(v.failed, i);
    v' := v.(failed := failed);
    DecideKeepsDisjoint(s.pcs, v, t, pc, v', i);
    DecideKeepsWithin(s, v, t, s', v', i);
    FailedCovered(v, v', s.tail);
    CountersMove(s, v, t, s', v');
    OthersOk(s, v, v', t, s');
    OthersApart(s.pcs, t, pc);
    assert Step(s, t) == s';
    Assemble(s', v');
  }

  lemma {:induction false} NewHoldingApart(s: State, v: View, u: ThreadId, count: nat)
    requires AllOk(s, v) && u < |s.pcs|
    ensures Apart(s.pcs[u], Holding(s.head, count)) && Apart(Holding(s.head, count), s.pcs[u])
  {
    assert PcOk(s.pcs[u], s, v);
  }

  lemma {:induction false} TakeHeadStep(s: State, v: View, t: ThreadId)
    requires Inv(s, v) && t < |s.pcs| && s.pcs[t].TakeHead?
    ensures Inv(Step(s, t), v)
  {
    var actual := s.pcs[t].actual;
    var pc := Holding(s.head, actual);
    assert PcOk(s.pcs[t], s, v);
    TotalsUpdate(s.pcs, t, pc);
    forall u | 0 <= u < |s.pcs| && u != t
      ensures Apart(s.pcs[u], pc) && Apart(pc, s.pcs[u])
    {
      NewHoldingApart(s, v, u, actual);
    }
    MoveOn(s, v, t, pc, s.head + actual);
    assert Step(s, t) == Goto(s, t, pc).(head := s.head + actual);
  }

  lemma {:induction false} StepKeepsInv(s: State, v: View, e: Event) returns (v': View)
    requires Inv(s, v) && Enabled(s, e)
    ensures Inv(Apply(s, e), v')
  {
    v' := v;
    match e
    case Enqueued(n) =>
      forall u | 0 <= u < |s.pcs|
        ensures PcOk(s.pcs[u], Apply(s, e), v)
      {
        assert PcOk(s.pcs[u], s, v);
      }
    case BeginDequeue(t, max) => QuietStep(s, v, t, LoadTail(max));
    case Finish(t) => QuietStep(s, v, t, Idle);
    case Advance(t) =>
      assert PcOk(s.pcs[t], s, v);
      match s.pcs[t]
      case Claim(_, _) => ClaimStep(s, v, t);
      case Recheck(_, _, _) => v' := RecheckStep(s, v, t);
      case GiveBack(_, _, _) => v' := GiveBackStep(s, v, t);
      case TakeHead(_) => TakeHeadStep(s, v, t);
      case LoadTail(max) => QuietStep(s, v, t, LoadOvercommit(max, s.tail));
      case LoadOvercommit(max, tail) => QuietStep(s, v, t, LoadOptimistic(max, tail, s.overcommit));
      case LoadOptimistic(_, _, _) => QuietStep(s, v, t, Step(s, t).pcs[t]);
  }

  // ---------------------------------------------------------------------------------------------
  // What holds in every state of every run

  predicate Init(s: State) {
    && s.tail == s.optimistic == s.overcommit == s.head == 0
    && forall t :: 0 <= t < |s.pcs| ==> s.pcs[t] == Idle
  }

  predicate IsRun(run: seq<State>, events: seq<Event>) {
    && |run| == |events| + 1
    && Init(run[0])
    && forall i :: 0 <= i < |events| ==> Happens(run, events, i)
  }

  /** Step number i of a run. */
  predicate Happens(run: seq<State>, events: seq<Event>, i: nat) {
    i < |events| && i + 1 < |run| && Enabled(run[i], events[i]) && run[i + 1] == Apply(run[i], events[i])
  }

  lemma {:induction false} NothingInFlight(pcs: seq<PC>)
    requires forall i :: 0 <= i < |pcs| ==> pcs[i].Idle?
    ensures TotalInFlight(pcs) == TotalGranted(pcs) == 0
  {
    if pcs != [] {
      NothingInFlight(pcs[..|pcs| - 1]);
    }
  }

  lemma {:induction false} InitInv(s: State)
    requires Init(s)
    ensures Inv(s, View({}, {}))
  {
    NothingInFlight(s.pcs);
  }

  lemma {:induction false} RunInv(run: seq<State>, events: seq<Event>, i: nat) returns (v: View)
    requires IsRun(run, events) && i < |run|
    ensures Inv(run[i], v)
  {
    if i == 0 {
      InitInv(run[0]);
      v := View({}, {});
    } else {
      var v0 := RunInv(run, events, i - 1);
      assert Happens(run, events, i - 1);
      v := StepKeepsInv(run[i - 1], v0, events[i - 1]);
    }
  }

  lemma {:induction false} InvBounds(s: State, v: View)
    requires Inv(s, v)
    ensures s.head + TotalGranted(s.pcs) <= s.tail
  {
    GrantsWithinTail(v.granted, v.failed, s.optimistic, s.tail);
  }

  predicate EndsIn(run: seq<State>, events: seq<Event>, s: State) { IsRun(run, events) && run[|events|] == s }

  /** Some run leads to the state. */
  ghost predicate Sound(s: State) {
    exists run, events :: EndsIn(run, events, s)
  }

  lemma {:induction false} SoundStep(s: State, e: Event)
    requires Sound(s) && Enabled(s, e)
    ensures Sound(Apply(s, e))
  {
    var run, events :| EndsIn(run, events, s);
    var run', events' := run + [Apply(s, e)], events + [e];
    forall i | 0 <= i < |events'|
      ensures Happens(run', events', i)
    {
      assert i < |events| ==> Happens(run, events, i);
    }
    assert EndsIn(run', events', Apply(s, e));
  }

  lemma {:induction false} SoundInit(s: State)
    requires Init(s)
    ensures Sound(s)
  {
    assert EndsIn([s], [], s);
  }

  lemma {:induction false} SoundBounds(s: State, t: ThreadId)
    requires Sound(s) && t < |s.pcs|
    ensures s.head + Granted(s.pcs[t]) <= s.tail
    ensures s.pcs[t].TakeHead? ==> s.pcs[t].actual > 0
  {
    var run, events :| EndsIn(run, events, s);
    var v := RunInv(run, events, |events|);
    InvBounds(s, v);
    TotalsUpdate(s.pcs, t, Idle);
    assert PcOk(s.pcs[t], s, v);
  }

  /** Only headIndex.fetch_add changes the head and hands out elements. */
  lemma {:induction false} StepFrame(s: State, t: ThreadId)
    requires t < |s.pcs| && !s.pcs[t].Idle? && !s.pcs[t].Holding? && !s.pcs[t].TakeHead?
    ensures var s' := Step(s, t);
            && s'.tail == s.tail && s'.head == s.head && |s'.pcs| == |s.pcs|
            && s'.pcs == s.pcs[t := s'.pcs[t]] && !s'.pcs[t].Holding?
  {
  }

  /** In every run the grants stay within the elements enqueued, and optimistic - overcommit = head + in flight. */
  lemma {:induction false} GrantsNeverExceedTail(run: seq<State>, events: seq<Event>, i: nat)
    requires IsRun(run, events) && i < |run|
    ensures run[i].head + TotalGranted(run[i].pcs) <= run[i].tail
    ensures run[i].optimistic - run[i].overcommit == run[i].head + TotalInFlight(run[i].pcs)
  {
    var v := RunInv(run, events, i);
    InvBounds(run[i], v);
  }

  /** Every index obtained from headIndex.fetch_add is already enqueued, and no two consumers obtain the same index. */
  lemma {:induction false} ElementsAreEnqueuedAndExclusive(run: seq<State>, events: seq<Event>, i: nat, t: ThreadId,
        u: ThreadId)
    requires IsRun(run, events) && i < |run| && t < |run[i].pcs| && u < |run[i].pcs| && t != u
    ensures run[i].pcs[t].Holding? ==> run[i].pcs[t].first + run[i].pcs[t].count <= run[i].head <= run[i].tail
    ensures Apart(run[i].pcs[t], run[i].pcs[u])
  {
    var v := RunInv(run, events, i);
    InvBounds(run[i], v);
    assert PcOk(run[i].pcs[t], run[i], v);
    assert t < u ==> Apart(run[i].pcs[t], run[i].pcs[u]);
  }

  /**
   Nothing is stranded: once no call is in progress, overcommit has paid back every failed ticket exactly, so
   a lone consumer that asks next is granted Min(max, tail - head) elements, and claims nothing when there is none.
   */
  lemma {:induction false} QuiescentConsumerIsServed(run: seq<State>, events: seq<Event>, i: nat, max: nat)
    requires IsRun(run, events) && i < |run| && max > 0
    requires forall t :: 0 <= t < |run[i].pcs| ==> run[i].pcs[t] == Idle
    requires |run[i].pcs| > 0
    ensures var s := run[i];
            var s3 := Step(Step(Step(Goto(s, 0, LoadTail(max)), 0), 0), 0);
            if s.head == s.tail then s3 == s
            else s3.pcs[0].Claim? && var s6 := Step(Step(Step(s3, 0), 0), 0);
                 && s6.pcs[0].Holding? && s6.pcs[0].first == s.head
                 && s6.pcs[0].count == Min(max, s.tail - s.head) && s6.overcommit == s.overcommit
  {
    var v := RunInv(run, events, i);
    var s := run[i];
    InvBounds(s, v);
    NothingInFlight(s.pcs);
    assert s.pcs[0 := Idle] == s.pcs;
  }

  // ---------------------------------------------------------------------------------------------
  // What a call obtains

  /** Thread t calls dequeue_bulk(max) at event i and is still obtaining its elements in state j. */
  predicate Dequeuing(run: seq<State>, events: seq<Event>, t: ThreadId, max: nat, i: nat, j: nat) {
    && i < |events| && i < j < |run| && events[i] == BeginDequeue(t, max)
    && forall k :: i < k <= j ==> t < |run[k].pcs| && Obtaining(run[k].pcs[t])
  }

  predicate Obtaining(pc: PC) { !pc.Idle? && !pc.Holding? }

  /** dequeueOvercommit had this value at some moment after event i and before state j. */
  predicate SawOvercommit(run: seq<State>, i: nat, j: nat, over: nat) {
    exists p :: i < p < j && p < |run| && run[p].overcommit == over
  }

  /** dequeueOvercommit had this value, and then dequeueOptimisticCount that one, which t had not added to. */
  predicate SawBoth(run: seq<State>, t: ThreadId, i: nat, j: nat, over: nat, optimistic: nat) {
    exists p, k :: i < p <= k < j && SeenAt(run, t, p, k, over, optimistic)
  }

  predicate SeenAt(run: seq<State>, t: ThreadId, p: nat, k: nat, over: nat, optimistic: nat) {
    && p <= k < |run| && run[p].overcommit == over && run[k].optimistic == optimistic
    && t < |run[k].pcs| && InFlight(run[k].pcs[t]) == 0
  }

  /** n elements are all there was left of those enqueued before the call, as far as the thread has seen. */
  predicate NoMore(run: seq<State>, t: ThreadId, i: nat, j: nat, n: nat) {
    exists p, k :: i < p <= k < j && LeftAt(run, t, i, p, k, n)
  }

  predicate LeftAt(run: seq<State>, t: ThreadId, i: nat, p: nat, k: nat, n: nat) {
    && i < |run| && p <= k < |run| && run[i].tail <= run[k].optimistic - run[p].overcommit + n
    && t < |run[k].pcs| && InFlight(run[k].pcs[t]) == 0
  }

  /** What the thread has loaded since the call began, and what it is going to obtain. */
  predicate Knows(run: seq<State>, t: ThreadId, max: nat, i: nat, j: nat, pc: PC)
    requires i < |run|
  {
    match pc
    case Idle => NoMore(run, t, i, j, 0)
    case LoadTail(m) => m == max
    case LoadOvercommit(m, tail) => m == max && run[i].tail <= tail
    case LoadOptimistic(m, tail, over) => m == max && run[i].tail <= tail && SawOvercommit(run, i, j, over)
    case Claim(desired, over) =>
      SawOvercommit(run, i, j, over) && desired <= max && (desired < max ==> NoMore(run, t, i, j, desired))
    case Recheck(desired, over, mine) =>
      SawBoth(run, t, i, j, over, mine) && desired <= max && (desired < max ==> NoMore(run, t, i, j, desired))
    case GiveBack(_, actual, _) => actual <= max && (actual < max ==> NoMore(run, t, i, j, actual))
    case TakeHead(actual) => actual <= max && (actual < max ==> NoMore(run, t, i, j, actual))
    case Holding(_, count) => count <= max && (count < max ==> NoMore(run, t, i, j, count))
  }

  lemma {:induction false} KnowsStill(run: seq<State>, t: ThreadId, max: nat, i: nat, j: nat, pc: PC)
    requires i < |run| && Knows(run, t, max, i, j, pc)
    ensures Knows(run, t, max, i, j + 1, pc)
  {
    forall over | SawOvercommit(run, i, j, over)
      ensures SawOvercommit(run, i, j + 1, over)
    {
      var p :| i < p < j && p < |run| && run[p].overcommit == over;
    }
    forall over, optimistic | SawBoth(run, t, i, j, over, optimistic)
      ensures SawBoth(run, t, i, j + 1, over, optimistic)
    {
      var p, k :| i < p <= k < j && SeenAt(run, t, p, k, over, optimistic);
    }
    forall n | NoMore(run, t, i, j, n)
      ensures NoMore(run, t, i, j + 1, n)
    {
      var p, k :| i < p <= k < j && LeftAt(run, t, i, p, k, n);
    }
  }

  /** The load of the optimistic count and the comparison with what was loaded before. */
  lemma {:induction false} KnowsDesired(run: seq<State>, t: ThreadId, i: nat, j: nat, tail: nat, over: nat, n: nat)
    requires i < j < |run| && t < |run[j].pcs| && InFlight(run[j].pcs[t]) == 0
    requires run[i].tail <= tail && SawOvercommit(run, i, j, over) && tail - (run[j].optimistic - over) <= n
    ensures NoMore(run, t, i, j + 1, n)
  {
    var p :| i < p < j && p < |run| && run[p].overcommit == over;
    assert LeftAt(run, t, i, p, j, n);
  }

  lemma {:induction false} KnowsClaimed(run: seq<State>, t: ThreadId, i: nat, j: nat, over: nat)
    requires i < j < |run| && t < |run[j].pcs| && InFlight(run[j].pcs[t]) == 0 && SawOvercommit(run, i, j, over)
    ensures SawBoth(run, t, i, j + 1, over, run[j].optimistic)
  {
    var p :| i < p < j && p < |run| && run[p].overcommit == over;
    assert SeenAt(run, t, p, j, over, run[j].optimistic);
  }

  lemma {:induction false} KnowsGranted(run: seq<State>, t: ThreadId, i: nat, j: nat, over: nat, mine: nat, n: nat)
    requires i < j < |run| && run[i].tail <= run[j].tail && SawBoth(run, t, i, j, over, mine)
    requires run[j].tail - (mine - over) <= n
    ensures NoMore(run, t, i, j + 1, n)
  {
    var p, k :| i < p <= k < j && SeenAt(run, t, p, k, over, mine);
    assert LeftAt(run, t, i, p, k, n);
  }

  lemma {:induction false} TailGrows(run: seq<State>, events: seq<Event>, i: nat, j: nat)
    requires IsRun(run, events) && i <= j < |run|
    ensures run[i].tail <= run[j].tail
  {
    if i < j {
      TailGrows(run, events, i, j - 1);
      assert Happens(run, events, j - 1);
    }
  }

  lemma {:induction false} KnowsOptimistic(run: seq<State>, t: ThreadId, max: nat, i: nat, j: nat)
    requires i < j < |run| && t < |run[j].pcs| && run[j].pcs[t].LoadOptimistic? && max > 0
    requires Knows(run, t, max, i, j, run[j].pcs[t])
    ensures Knows(run, t, max, i, j + 1, Step(run[j], t).pcs[t])
  {
    var LoadOptimistic(_, tail, over) := run[j].pcs[t];
    var desired := tail - (run[j].optimistic - over);
    KnowsStill(run, t, max, i, j, run[j].pcs[t]);
    KnowsDesired(run, t, i, j, tail, over, if desired <= 0 then 0 else desired);
  }

  lemma {:induction false} KnowsRechecked(run: seq<State>, t: ThreadId, max: nat, i: nat, j: nat)
    requires i < j < |run| && t < |run[j].pcs| && run[j].pcs[t].Recheck? && max > 0
    requires Knows(run, t, max, i, j, run[j].pcs[t]) && run[i].tail <= run[j].tail
    ensures Knows(run, t, max, i, j + 1, Step(run[j], t).pcs[t])
  {
    var Recheck(desired, over, mine) := run[j].pcs[t];
    var actual := run[j].tail - (mine - over);
    KnowsStill(run, t, max, i, j, run[j].pcs[t]);
    if actual < desired {
      KnowsGranted(run, t, i, j, over, mine, if actual <= 0 then 0 else actual);
    }
  }

  /** The steps that load nothing or only remember what they load. */
  lemma {:induction false} KnowsLoaded(run: seq<State>, t: ThreadId, max: nat, i: nat, j: nat)
    requires i < j < |run| && t < |run[j].pcs| && Obtaining(run[j].pcs[t]) && max > 0
    requires Knows(run, t, max, i, j, run[j].pcs[t]) && run[i].tail <= run[j].tail
    requires !run[j].pcs[t].LoadOptimistic? && !run[j].pcs[t].Recheck?
    ensures Knows(run, t, max, i, j + 1, Step(run[j], t).pcs[t])
  {
    KnowsStill(run, t, max, i, j, run[j].pcs[t]);
    match run[j].pcs[t]
    case LoadOvercommit(_, _) => assert SawOvercommit(run, i, j + 1, run[j].overcommit);
    case Claim(_, over) => KnowsClaimed(run, t, i, j, over);
    case _ =>
  }

  lemma {:induction false} KnowsNext(run: seq<State>, events: seq<Event>, t: ThreadId, max: nat, i: nat, j: nat)
    requires IsRun(run, events) && i < j < |events| && t < |run[j].pcs| && Obtaining(run[j].pcs[t]) && max > 0
    requires events[j] == Advance(t) && Knows(run, t, max, i, j, run[j].pcs[t])
    ensures t < |run[j + 1].pcs| && Knows(run, t, max, i, j + 1, run[j + 1].pcs[t])
  {
    assert Happens(run, events, j);
    TailGrows(run, events, i, j);
    if run[j].pcs[t].LoadOptimistic? {
      KnowsOptimistic(run, t, max, i, j);
    } else if run[j].pcs[t].Recheck? {
      KnowsRechecked(run, t, max, i, j);
    } else {
      KnowsLoaded(run, t, max, i, j);
    }
  }

  lemma {:induction false} OthersStay(s: State, e: Event, t: ThreadId)
    requires Enabled(s, e) && t < |s.pcs| && Obtaining(s.pcs[t]) && e != Advance(t)
    ensures Apply(s, e).pcs[t] == s.pcs[t]
  {
  }

  lemma {:induction false} KnowsAll(run: seq<State>, events: seq<Event>, t: ThreadId, max: nat, i: nat, j: nat)
    requires IsRun(run, events) && Dequeuing(run, events, t, max, i, j)
    ensures max > 0 && Knows(run, t, max, i, j, run[j].pcs[t])
  {
    assert Happens(run, events, i);
    if j > i + 1 {
      KnowsAll(run, events, t, max, i, j - 1);
      KnowsStep(run, events, t, max, i, j - 1);
    }
  }

  lemma {:induction false} KnowsStep(run: seq<State>, events: seq<Event>, t: ThreadId, max: nat, i: nat, j: nat)
    requires IsRun(run, events) && i < j < |events| && t < |run[j].pcs| && Obtaining(run[j].pcs[t]) && max > 0
    requires Knows(run, t, max, i, j, run[j].pcs[t])
    ensures t < |run[j + 1].pcs| && Knows(run, t, max, i, j + 1, run[j + 1].pcs[t])
  {
    if events[j] == Advance(t) {
      KnowsNext(run, events, t, max, i, j);
    } else {
      assert Happens(run, events, j);
      OthersStay(run[j], events[j], t);
      KnowsStill(run, t, max, i, j, run[j].pcs[t]);
    }
  }

  /** How many elements the call has obtained when it ends. */
  function Obtained(pc: PC): nat { if pc.Holding? then pc.count else 0 }

  /**
   What a call of dequeue or dequeue_bulk obtains, whatever the others do meanwhile: at most max elements, and fewer,
   or none, only if all other elements enqueued before the call were, at some moment of it, taken or claimed by other
   consumers, up to the tickets that others gave back during the call.
   */
  lemma {:induction false} DequeueObtains(run: seq<State>, events: seq<Event>, t: ThreadId, max: nat, i: nat, j: nat)
    requires IsRun(run, events) && Dequeuing(run, events, t, max, i, j)
    requires j < |events| && t < |run[j + 1].pcs| && !Obtaining(run[j + 1].pcs[t])
    ensures Obtained(run[j + 1].pcs[t]) <= max
    ensures Obtained(run[j + 1].pcs[t]) < max ==> RanOut(run, t, i, j, Obtained(run[j + 1].pcs[t]))
  {
    KnowsAll(run, events, t, max, i, j);
    KnowsStep(run, events, t, max, i, j);
    var n := Obtained(run[j + 1].pcs[t]);
    if n < max {
      assert NoMore(run, t, i, j + 1, n);
      var p, k :| i < p <= k < j + 1 && LeftAt(run, t, i, p, k, n);
      GrantsNeverExceedTail(run, events, k);
      assert Exhausted(run, t, i, p, k, n);
    }
  }

  /** In state k, n elements cover what was enqueued by state i and is neither taken nor claimed by other threads. */
  predicate Exhausted(run: seq<State>, t: ThreadId, i: nat, p: nat, k: nat, n: nat) {
    && i < |run| && p <= k < |run| && t < |run[k].pcs| && InFlight(run[k].pcs[t]) == 0
    && run[i].tail <= run[k].head + TotalInFlight(run[k].pcs) + (run[k].overcommit - run[p].overcommit) + n
  }

  predicate RanOut(run: seq<State>, t: ThreadId, i: nat, j: nat, n: nat) {
    exists p, k :: i < p <= k <= j && Exhausted(run, t, i, p, k, n)
  }

  /** Without other calls in between, that is: everything enqueued before the call, up to max elements. */
  lemma {:induction false} UndisturbedObtains(run: seq<State>, t: ThreadId, i: nat, p: nat, k: nat, n: nat)
    requires Exhausted(run, t, i, p, k, n) && run[p].overcommit == run[k].overcommit && run[k].head == run[i].head
    requires forall u :: 0 <= u < |run[k].pcs| && u != t ==> run[k].pcs[u].Idle?
    ensures run[i].tail - run[i].head <= n
  {
    NoneInFlight(run[k].pcs);
  }

  lemma {:induction false} NoneInFlight(pcs: seq<PC>)
    requires forall u :: 0 <= u < |pcs| ==> InFlight(pcs[u]) == 0
    ensures TotalInFlight(pcs) == 0
  {
    if pcs != [] {
      NoneInFlight(pcs[..|pcs| - 1]);
    }
  }

  // ---------------------------------------------------------------------------------------------
  // The modular comparison

  /** details::circular_less_than on unsigned words of modulus 2 * half. */
  predicate CircularLessThan(a: int, b: int, half: int)
    requires half > 0
  {
    (a - b) % (2 * half) > half
  }

  /** On the wrapped values of two unbounded indices less than half the range apart it is the unbounded `<`. */
  lemma {:induction false} CircularIsLess(a: int, b: int, half: int)
    requires half > 0 && -half < a - b < half
    ensures CircularLessThan(a % (2 * half), b % (2 * half), half) <==> a < b
  {
    var m := 2 * half;
    var x := a % m - b % m;
    var k := a / m - b / m;
    assert a - b == x + k * m by {
      assert a == a / m * m + a % m && b == b / m * m + b % m;
    }
    // x is a - b shifted by a multiple of the modulus, so its remainder is a - b or a - b + m
    assert (x / m + k) * m + x % m == a - b by {
      assert (x / m + k) * m == x / m * m + k * m;
    }
    Quotient(x / m + k, x % m, a - b, m);
  }

  lemma {:induction false} Quotient(q: int, r: int, d: int, m: int)
    requires m > 0 && 0 <= r < m && q * m + r == d && -m < d < m
    ensures r == if d < 0 then d + m else d
  {
    ProductSize(q, m);
  }
}
