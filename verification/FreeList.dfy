/**
 The reference-counted CAS free list of the vendored concurrent queue
 (include/data_structure/concurrentqueue.h, struct FreeList).

 Every atomic load, store, fetch_add and compare_exchange is one step of one thread; the steps of the
 threads interleave in any order.  A thread's program counter carries the local variables that are live
 at that point of the code.  Nodes are the indices of `refs` and `next`, and are never freed.
 */
module FreeList {
  import opened Common

  type NodeId = nat
  type ThreadId = nat

  const SHOULD_BE_ON_FREELIST: nat := 0x8000_0000
  const WORD: nat := 0x1_0000_0000

  /** `refs & REFS_MASK` for a 32-bit word. */
  function Count(refs: nat): nat { refs % SHOULD_BE_ON_FREELIST }

  /** `refs & SHOULD_BE_ON_FREELIST != 0` for a 32-bit word. */
  predicate Flag(refs: nat) { refs / SHOULD_BE_ON_FREELIST % 2 == 1 }

  /** Where add_knowing_refcount_is_zero returns to: its caller `add`, or the loop of `try_get`. */
  datatype Resume = Return | Retry(head: Option<NodeId>)

  /** Points inside try_get, after `head` was loaded and found non-null. */
  datatype GetAt =
    | LoadRefs
    | TakeRef(seen: nat)
    | LoadNext
    | Pop(next: Option<NodeId>)
    | Check
    | DropTwo
    | DropOne(newHead: Option<NodeId>)

  /** Points inside add_knowing_refcount_is_zero. */
  datatype AddAt =
    | LoadHead
    | SetNext(expected: Option<NodeId>)
    | SetRefs(expected: Option<NodeId>)
    | Publish(expected: Option<NodeId>)
    | Retract(expected: Option<NodeId>)

  datatype PC =
    | Idle
    | Start                                          // try_get is about to load the head
    | Get(node: NodeId, get: GetAt)
    | Add(node: NodeId, add: AddAt, resume: Resume)

  datatype State = State(
    head: Option<NodeId>,
    refs: seq<nat>,
    next: seq<Option<NodeId>>,
    owned: set<NodeId>,         // the nodes that clients hold: fresh ones and those try_get returned
    pcs: seq<PC>,
    assertFailed: bool)         // the assertion inside try_get has failed

  datatype Event =
    | BeginAdd(thread: ThreadId, node: NodeId)
    | BeginTryGet(thread: ThreadId)
    | Advance(thread: ThreadId)

  /** A pointer that is null or names one of `size` nodes. */
  predicate Ptr(p: Option<NodeId>, size: nat) { p.Some? ==> p.value < size }

  predicate ResumeOk(k: Resume, size: nat) { k.Retry? ==> Ptr(k.head, size) }

  /** The pointers in a thread's local variables name nodes. */
  predicate LocalsOk(pc: PC, size: nat) {
    match pc
    case Get(n, at) => n < size && (at.Pop? ==> Ptr(at.next, size)) && (at.DropOne? ==> Ptr(at.newHead, size))
    case Add(n, at, k) => n < size && (!at.LoadHead? ==> Ptr(at.expected, size)) && ResumeOk(k, size)
    case _ => true
  }

  /** Every pointer in the state is null or names a node. */
  predicate WellFormed(s: State) {
    && |s.next| == |s.refs|
    && Ptr(s.head, |s.refs|)
    && (forall n :: 0 <= n < |s.next| ==> Ptr(s.next[n], |s.refs|))
    && (forall n :: n in s.owned ==> n < |s.refs|)
    && (forall t :: 0 <= t < |s.pcs| ==> LocalsOk(s.pcs[t], |s.refs|))
  }

  predicate Enabled(s: State, e: Event) {
    && e.thread < |s.pcs|
    && match e
       case BeginAdd(t, n) => s.pcs[t].Idle? && n in s.owned && n < |s.refs|
       case BeginTryGet(t) => s.pcs[t].Idle?
       case Advance(t) => !s.pcs[t].Idle?
  }

  /** try_get's loop test with `head` in a local variable. */
  function Loop(head: Option<NodeId>): PC {
    if head.None? then Idle else Get(head.value, LoadRefs)
  }

  function AfterAdd(resume: Resume): PC {
    match resume
    case Return => Idle
    case Retry(h) => Loop(h)
  }

  /** The last holder of a flagged node adds it. */
  function AfterDrop(h: NodeId, refs: nat, newHead: Option<NodeId>): PC {
    if refs == SHOULD_BE_ON_FREELIST + 1 then Add(h, LoadHead, Retry(newHead)) else Loop(newHead)
  }

  function Goto(s: State, t: ThreadId, pc: PC): (s': State)
    requires t < |s.pcs|
    ensures WellFormed(s) && LocalsOk(pc, |s.refs|) ==> WellFormed(s')
  {
    s.(pcs := s.pcs[t := pc])
  }

  /** freeListRefs.fetch_add, on a 32-bit word. */
  function FetchAdd(s: State, n: NodeId, delta: int): (s': State)
    requires n < |s.refs|
    ensures WellFormed(s) ==> WellFormed(s')
  {
    s.(refs := s.refs[n := (s.refs[n] + delta) % WORD])
  }

  function Apply(s: State, e: Event): (s': State)
    requires WellFormed(s) && Enabled(s, e)
    ensures WellFormed(s') && |s'.refs| == |s.refs| && |s'.pcs| == |s.pcs|
  {
    match e
    case BeginAdd(t, n) =>
      var before := s.refs[n];
      var s1 := FetchAdd(s, n, SHOULD_BE_ON_FREELIST).(owned := s.owned - {n});
      Goto(s1, t, if before == 0 then Add(n, LoadHead, Return) else Idle)
    case BeginTryGet(t) => Goto(s, t, Start)
    case Advance(t) => Step(s, t)
  }

  /** The next atomic step of thread t. */
  function Step(s: State, t: ThreadId): (s': State)
    requires WellFormed(s) && t < |s.pcs| && !s.pcs[t].Idle?
    ensures WellFormed(s') && |s'.refs| == |s.refs| && |s'.pcs| == |s.pcs|
  {
    match s.pcs[t]
    case Start => Goto(s, t, Loop(s.head))
    case Get(h, at) => GetStep(s, t, h, at)
    case Add(n, at, k) => AddStep(s, t, n, at, k)
  }

  function GetStep(s: State, t: ThreadId, h: NodeId, at: GetAt): (s': State)
    requires WellFormed(s) && t < |s.pcs| && s.pcs[t] == Get(h, at)
    ensures WellFormed(s') && |s'.refs| == |s.refs| && |s'.pcs| == |s.pcs|
  {
    assert LocalsOk(s.pcs[t], |s.refs|);
    match at
    case LoadRefs =>
      Goto(s, t, if Count(s.refs[h]) == 0 then Start else Get(h, TakeRef(s.refs[h])))
    case TakeRef(seen) =>
      if s.refs[h] == seen then Goto(FetchAdd(s, h, 1), t, Get(h, LoadNext)) else Goto(s, t, Start)
    case LoadNext => Goto(s, t, Get(h, Pop(s.next[h])))
    case Pop(next) =>
      if s.head == Some(h) then Goto(s.(head := next), t, Get(h, Check))
      else Goto(s, t, Get(h, DropOne(s.head)))
    case Check =>
      Goto(s.(assertFailed := s.assertFailed || Flag(s.refs[h])), t, Get(h, DropTwo))
    case _ => DropStep(s, t, h, at)
  }

  /** Giving references back: the list's and the thread's own, or only the latter. */
  function DropStep(s: State, t: ThreadId, h: NodeId, at: GetAt): (s': State)
    requires WellFormed(s) && t < |s.pcs| && s.pcs[t] == Get(h, at) && (at.DropTwo? || at.DropOne?)
    ensures WellFormed(s') && |s'.refs| == |s.refs| && |s'.pcs| == |s.pcs|
  {
    assert LocalsOk(s.pcs[t], |s.refs|);
    match at
    case DropTwo => Goto(FetchAdd(s, h, -2).(owned := s.owned + {h}), t, Idle)
    case DropOne(newHead) => Goto(FetchAdd(s, h, -1), t, AfterDrop(h, s.refs[h], newHead))
  }

  function AddStep(s: State, t: ThreadId, n: NodeId, at: AddAt, k: Resume): (s': State)
    requires WellFormed(s) && t < |s.pcs| && s.pcs[t] == Add(n, at, k)
    ensures WellFormed(s') && |s'.refs| == |s.refs| && |s'.pcs| == |s.pcs|
  {
    assert LocalsOk(s.pcs[t], |s.refs|);
    match at
    case LoadHead => Goto(s, t, Add(n, SetNext(s.head), k))
    case SetNext(h) => Goto(s.(next := s.next[n := h]), t, Add(n, SetRefs(h), k))
    case SetRefs(h) => Goto(s.(refs := s.refs[n := 1]), t, Add(n, Publish(h), k))
    case _ => PublicationStep(s, t, n, at, k)
  }

  /** The CAS on the head, and taking the node back when it fails. */
  function PublicationStep(s: State, t: ThreadId, n: NodeId, at: AddAt, k: Resume): (s': State)
    requires WellFormed(s) && t < |s.pcs| && s.pcs[t] == Add(n, at, k) && (at.Publish? || at.Retract?)
    ensures WellFormed(s') && |s'.refs| == |s.refs| && |s'.pcs| == |s.pcs|
  {
    assert LocalsOk(s.pcs[t], |s.refs|);
    match at
    case Publish(h) =>
      if s.head == h then Goto(s.(head := Some(n)), t, AfterAdd(k))
      else Goto(s, t, Add(n, Retract(s.head), k))
    case Retract(h) =>
      Goto(FetchAdd(s, n, SHOULD_BE_ON_FREELIST - 1), t,
           if s.refs[n] == 1 then Add(n, SetNext(h), k) else AfterAdd(k))
  }

  // ---------------------------------------------------------------------------------------------
  // The invariant

  /** What is happening to a node. */
  datatype Phase =
    | Owned                     // a client holds it
    | Adding(thread: ThreadId)      // count is zero and the thread prepares to link it
    | Publishing(thread: ThreadId)  // count is above zero and the thread is about to link it or give up
    | Flagged                   // waits for its last reference holder to add it
    | Listed                    // reachable from the head
    | Taken(thread: ThreadId)       // the thread has unlinked it and has not returned it yet

  /** The chain hanging from the head, and the phase of each node: proof-only views of a state. */
  datatype View = View(list: seq<NodeId>, phase: seq<Phase>)

  /** The node whose reference count this thread has incremented and not yet decremented. */
  function Held(pc: PC): Option<NodeId> {
    if pc.Get? && !pc.get.LoadRefs? && !pc.get.TakeRef? then Some(pc.node) else None
  }

  /** The phase that a thread at this point keeps some node in. */
  function Role(pc: PC, t: ThreadId): Option<(NodeId, Phase)> {
    match pc
    case Get(n, at) => if at.Check? || at.DropTwo? then Some((n, Taken(t))) else None
    case Add(n, at, _) => Some((n, if at.Publish? || at.Retract? then Publishing(t) else Adding(t)))
    case _ => None
  }

  /** How many threads hold a reference to node n. */
  function Holders(pcs: seq<PC>, n: NodeId): nat {
    if pcs == [] then 0
    else Holders(pcs[..|pcs| - 1], n) + One(Held(pcs[|pcs| - 1]) == Some(n))
  }

  /** The word a node's freeListRefs must contain, given its phase and its number of holders. */
  function Word(p: Phase, holders: nat): nat {
    match p
    case Owned => holders
    case Adding(_) => SHOULD_BE_ON_FREELIST + holders
    case Publishing(_) => 1 + holders
    case Flagged => SHOULD_BE_ON_FREELIST + holders
    case Listed => 1 + holders
    case Taken(_) => 1 + holders
  }

  predicate IsChain(head: Option<NodeId>, next: seq<Option<NodeId>>, list: seq<NodeId>) {
    && (forall i :: 0 <= i < |list| ==> list[i] < |next|)
    && (forall i, j :: 0 <= i < j < |list| ==> list[i] != list[j])
    && head == (if list == [] then None else Some(list[0]))
    && (forall i, j :: 0 <= i < |list| && 0 <= j < |list| && j == i + 1 ==> next[list[i]] == Some(list[j]))
    && (list != [] ==> next[list[|list| - 1]] == None)
  }

  predicate NodeOk(s: State, v: View, n: NodeId)
    requires |v.phase| == |s.refs| && n < |s.refs|
  {
    && s.refs[n] == Word(v.phase[n], Holders(s.pcs, n))
    && (n in s.owned <==> v.phase[n].Owned?)
    && (n in v.list <==> v.phase[n].Listed?)
    && match v.phase[n]
       case Adding(t) => t < |s.pcs| && Role(s.pcs[t], t) == Some((n, v.phase[n])) && Holders(s.pcs, n) == 0
       case Publishing(t) => t < |s.pcs| && Role(s.pcs[t], t) == Some((n, v.phase[n]))
       case Taken(t) => t < |s.pcs| && Role(s.pcs[t], t) == Some((n, v.phase[n]))
       case Flagged => Holders(s.pcs, n) != 0
       case _ => true
  }

  predicate ThreadOk(s: State, v: View, t: ThreadId)
    requires WellFormed(s) && |v.phase| == |s.refs| && t < |s.pcs|
  {
    var pc := s.pcs[t];
    && (Role(pc, t).Some? ==> v.phase[Role(pc, t).value.0] == Role(pc, t).value.1)
    && (pc.Get? && pc.get.TakeRef? ==> Count(pc.get.seen) != 0)
    && (pc.Get? && pc.get.Pop? ==> s.next[pc.node] == pc.get.next)
    && (pc.Add? && (pc.add.SetRefs? || pc.add.Publish?) ==> s.next[pc.node] == pc.add.expected)
  }

  ghost predicate Inv(s: State, v: View) {
    && WellFormed(s)
    && |s.pcs| < SHOULD_BE_ON_FREELIST - 1
    && !s.assertFailed
    && |v.phase| == |s.refs|
    && IsChain(s.head, s.next, v.list)
    && (forall n :: 0 <= n < |s.refs| ==> NodeOk(s, v, n))
    && (forall t :: 0 <= t < |s.pcs| ==> ThreadOk(s, v, t))
  }

  // ---------------------------------------------------------------------------------------------
  // Every step keeps the invariant

  function One(held: bool): nat { if held then 1 else 0 }

  lemma {:induction false} HoldersUpdate(pcs: seq<PC>, t: ThreadId, pc: PC, n: NodeId)
    requires t < |pcs|
    ensures Holders(pcs[t := pc], n) + One(Held(pcs[t]) == Some(n)) == Holders(pcs, n) + One(Held(pc) == Some(n))
    ensures One(Held(pcs[t]) == Some(n)) <= Holders(pcs, n) <= |pcs|
  {
    var last := |pcs| - 1;
    if t < last {
      HoldersUpdate(pcs[..last], t, pc, n);
      assert pcs[t := pc][..last] == pcs[..last][t := pc];
    } else {
      assert pcs[t := pc][..last] == pcs[..last];
      if last > 0 {
        HoldersUpdate(pcs[..last], 0, pc, n);
      }
    }
  }

  /** The phase names a thread other than t. */
  predicate HeldByOther(p: Phase, t: ThreadId) {
    (p.Adding? || p.Publishing? || p.Taken?) && p.thread != t
  }

  /** A step of thread t that touches node n only. */
  ghost predicate Local(s: State, v: View, s': State, v': View, t: ThreadId, n: NodeId)
    requires Inv(s, v)
  {
    && t < |s.pcs| && n < |s.refs| == |s'.refs| == |s'.next| == |v'.phase|
    && |s'.pcs| == |s.pcs| && s'.pcs == s.pcs[t := s'.pcs[t]]
    && (forall m :: 0 <= m < |s.refs| && m != n ==>
        s'.refs[m] == s.refs[m] && s'.next[m] == s.next[m] && v'.phase[m] == v.phase[m])
    && (forall m :: m != n ==> (m in s'.owned <==> m in s.owned))
    && (forall m :: m != n ==> (m in v'.list <==> m in v.list))
    && (Role(s.pcs[t], t).Some? ==> Role(s.pcs[t], t).value.0 == n)
    && (Held(s.pcs[t]).Some? ==> Held(s.pcs[t]) == Some(n))
    && (Held(s'.pcs[t]).Some? ==> Held(s'.pcs[t]) == Some(n))
    && (s'.next[n] == s.next[n] || v.phase[n] == Adding(t))
    && (HeldByOther(v.phase[n], t) ==> v'.phase[n] == v.phase[n])
  }

  lemma {:induction false} OtherNode(s: State, v: View, s': State, v': View, t: ThreadId, n: NodeId, m: NodeId)
    requires Inv(s, v) && Local(s, v, s', v', t, n)
    requires m < |s.refs| && m != n
    ensures NodeOk(s', v', m)
  {
    assert NodeOk(s, v, m);
    HoldersUpdate(s.pcs, t, s'.pcs[t], m);
  }

  lemma {:induction false} OtherThread(s: State, v: View, s': State, v': View, t: ThreadId, n: NodeId, u: ThreadId)
    requires Inv(s, v) && Local(s, v, s', v', t, n)
    requires WellFormed(s') && u < |s.pcs| && u != t
    ensures ThreadOk(s', v', u)
  {
    assert ThreadOk(s, v, u) && NodeOk(s, v, n);
    if s.pcs[u].Get? && s.pcs[u].get.Pop? && s.pcs[u].node == n {
      HoldersUpdate(s.pcs, u, Idle, n);
    }
  }

  lemma {:induction false} LocalStep(s: State, v: View, s': State, v': View, t: ThreadId, n: NodeId)
    requires Inv(s, v) && Local(s, v, s', v', t, n)
    requires WellFormed(s') && !s'.assertFailed
    requires IsChain(s'.head, s'.next, v'.list)
    requires NodeOk(s', v', n) && ThreadOk(s', v', t)
    ensures Inv(s', v')
  {
    forall m | 0 <= m < |s'.refs|
      ensures NodeOk(s', v', m)
    {
      if m != n {
        OtherNode(s, v, s', v', t, n, m);
      }
    }
    forall u | 0 <= u < |s'.pcs|
      ensures ThreadOk(s', v', u)
    {
      if u != t {
        OtherThread(s, v, s', v', t, n, u);
      }
    }
  }

  /** A step of thread t that changes nothing but its program counter, and gains or drops no reference. */
  lemma {:induction false} QuietStep(s: State, v: View, t: ThreadId, pc: PC)
    requires Inv(s, v) && t < |s.pcs|
    requires Held(pc) == Held(s.pcs[t])
    requires Role(s.pcs[t], t).Some? ==> Role(pc, t) == Role(s.pcs[t], t)
    requires LocalsOk(pc, |s.refs|) && ThreadOk(Goto(s, t, pc), v, t)
    ensures Inv(Goto(s, t, pc), v)
  {
    var s' := Goto(s, t, pc);
    forall m | 0 <= m < |s'.refs|
      ensures NodeOk(s', v, m)
    {
      assert NodeOk(s, v, m);
      HoldersUpdate(s.pcs, t, pc, m);
    }
    forall u | 0 <= u < |s'.pcs|
      ensures ThreadOk(s', v, u)
    {
      if u != t {
        assert ThreadOk(s, v, u);
      }
    }
  }

  lemma {:induction false} ChainTail(head: Option<NodeId>, next: seq<Option<NodeId>>, list: seq<NodeId>)
    requires IsChain(head, next, list) && list != []
    ensures IsChain(next[list[0]], next, list[1..])
    ensures forall m :: m in list[1..] <==> m in list && m != list[0]
  {
    var rest := list[1..];
    assert list == [list[0]] + rest;
    forall i, j | 0 <= i < |rest| && 0 <= j < |rest| && j == i + 1
      ensures next[rest[i]] == Some(rest[j])
    {
      assert rest[i] == list[i + 1] && rest[j] == list[j + 1];
    }
    forall i, j | 0 <= i < j < |rest|
      ensures rest[i] != rest[j]
    {
      assert rest[i] == list[i + 1] && rest[j] == list[j + 1];
    }
  }

  lemma {:induction false} ChainCons(head: Option<NodeId>, next: seq<Option<NodeId>>, list: seq<NodeId>, n: NodeId)
    requires IsChain(head, next, list) && n !in list && n < |next| && next[n] == head
    ensures IsChain(Some(n), next, [n] + list)
  {
  }

  /** Thread t goes to pc and node n gets this word, link and owner; the head may change too. */
  function Touch(s: State, t: ThreadId, pc: PC, n: NodeId, word: nat, link: Option<NodeId>, head: Option<NodeId>,
                 owned: bool): State
    requires t < |s.pcs| && n < |s.refs| == |s.next|
  {
    State(head, s.refs[n := word], s.next[n := link], if owned then s.owned + {n} else s.owned - {n},
          s.pcs[t := pc], s.assertFailed)
  }

  /** What the new program counter claims about the node. */
  predicate Claims(pc: PC, t: ThreadId, n: NodeId, phase: Phase, link: Option<NodeId>) {
    && (Role(pc, t).Some? ==> Role(pc, t).value == (n, phase))
    && (Held(pc).Some? ==> Held(pc) == Some(n))
    && (pc.Get? ==> !pc.get.TakeRef? && !pc.get.Pop?)
    && (pc.Add? && (pc.add.SetRefs? || pc.add.Publish?) ==> pc.node == n && link == pc.add.expected)
  }

  /** What the phase of a node says about its number of holders and the thread it names. */
  predicate PhaseOk(phase: Phase, n: NodeId, holders: int, pc: PC, t: ThreadId) {
    match phase
    case Adding(u) => u == t && Role(pc, t) == Some((n, phase)) && holders == 0
    case Publishing(u) => u == t && Role(pc, t) == Some((n, phase))
    case Taken(u) => u == t && Role(pc, t) == Some((n, phase))
    case Flagged => holders != 0
    case _ => true
  }

  /** Only node n is concerned, and thread t is entitled to what it does to it. */
  predicate Entitled(s: State, v: View, t: ThreadId, n: NodeId, phase: Phase, link: Option<NodeId>)
    requires t < |s.pcs| && n < |s.next| == |v.phase|
  {
    && (Role(s.pcs[t], t).Some? ==> Role(s.pcs[t], t).value.0 == n)
    && (Held(s.pcs[t]).Some? ==> Held(s.pcs[t]) == Some(n))
    && (link == s.next[n] || v.phase[n] == Adding(t))
    && (HeldByOther(v.phase[n], t) ==> phase == v.phase[n])
  }

  lemma {:induction false} TouchedWellFormed(s: State, t: ThreadId, pc: PC, n: NodeId, word: nat,
                                             link: Option<NodeId>, head: Option<NodeId>, owned: bool)
    requires WellFormed(s) && t < |s.pcs| && n < |s.refs|
    requires LocalsOk(pc, |s.refs|) && Ptr(link, |s.refs|) && Ptr(head, |s.refs|)
    ensures WellFormed(Touch(s, t, pc, n, word, link, head, owned))
  {
  }

  /** The number of holders of n once thread t is at pc. */
  function HoldersAfter(s: State, t: ThreadId, pc: PC, n: NodeId): int
    requires t < |s.pcs|
  {
    Holders(s.pcs, n) + One(Held(pc) == Some(n)) - One(Held(s.pcs[t]) == Some(n))
  }

  lemma {:induction false} TouchedNode(s: State, v: View, t: ThreadId, pc: PC, n: NodeId, word: nat,
                                       link: Option<NodeId>, head: Option<NodeId>, list: seq<NodeId>, phase: Phase,
                                       owned: bool)
    requires t < |s.pcs| && n < |s.refs| == |s.next| == |v.phase| && NodeOk(s, v, n)
    requires HoldersAfter(s, t, pc, n) >= 0 && word == Word(phase, HoldersAfter(s, t, pc, n))
    requires (n in list <==> phase.Listed?) && (owned <==> phase.Owned?)
    requires if HeldByOther(v.phase[n], t) then phase == v.phase[n] && !phase.Adding?
             else PhaseOk(phase, n, HoldersAfter(s, t, pc, n), pc, t)
    ensures NodeOk(Touch(s, t, pc, n, word, link, head, owned), View(list, v.phase[n := phase]), n)
  {
    HoldersUpdate(s.pcs, t, pc, n);
  }

  /** Every step that changes a node keeps the invariant if the node, its holders and its thread stay in step. */
  lemma {:induction false} TouchStep(s: State, v: View, t: ThreadId, pc: PC, n: NodeId, word: nat,
                                     link: Option<NodeId>, head: Option<NodeId>, list: seq<NodeId>, phase: Phase,
                                     owned: bool)
    requires Inv(s, v) && t < |s.pcs| && n < |s.refs|
    requires LocalsOk(pc, |s.refs|) && Ptr(link, |s.refs|) && Ptr(head, |s.refs|)
    requires Claims(pc, t, n, phase, link) && Entitled(s, v, t, n, phase, link)
    requires HoldersAfter(s, t, pc, n) >= 0 && word == Word(phase, HoldersAfter(s, t, pc, n))
    requires (n in list <==> phase.Listed?) && (owned <==> phase.Owned?)
    requires if HeldByOther(v.phase[n], t) then phase == v.phase[n] && !phase.Adding?
             else PhaseOk(phase, n, HoldersAfter(s, t, pc, n), pc, t)
    requires IsChain(head, s.next[n := link], list) && forall m :: m != n ==> (m in list <==> m in v.list)
    ensures Inv(Touch(s, t, pc, n, word, link, head, owned), View(list, v.phase[n := phase]))
  {
    var s', v' := Touch(s, t, pc, n, word, link, head, owned), View(list, v.phase[n := phase]);
    TouchedWellFormed(s, t, pc, n, word, link, head, owned);
    TouchedNode(s, v, t, pc, n, word, link, head, list, phase, owned);
    assert Local(s, v, s', v', t, n);
    assert ThreadOk(s', v', t);
    LocalStep(s, v, s', v', t, n);
  }

  /** The facts about the node that thread t is at. */
  lemma {:induction false} NodeFacts(s: State, v: View, t: ThreadId, n: NodeId)
    requires Inv(s, v) && t < |s.pcs| && n < |s.refs|
    ensures NodeOk(s, v, n) && ThreadOk(s, v, t) && LocalsOk(s.pcs[t], |s.refs|)
    ensures One(Held(s.pcs[t]) == Some(n)) <= Holders(s.pcs, n) <= |s.pcs| < SHOULD_BE_ON_FREELIST - 1
    ensures s.next[n := s.next[n]] == s.next && Ptr(s.next[n], |s.refs|) && Ptr(s.head, |s.refs|)
    ensures IsChain(s.head, s.next, v.list) && |v.phase| == |s.refs| == |s.next|
  {
    HoldersUpdate(s.pcs, t, s.pcs[t], n);
  }

  /** fetch_add on the word of a node. */
  lemma {:induction false} FetchIsTouch(s: State, t: ThreadId, pc: PC, n: NodeId, delta: int, owned: bool)
    requires t < |s.pcs| && n < |s.refs| == |s.next| && 0 <= s.refs[n] + delta < WORD
    ensures var owners := if owned then s.owned + {n} else s.owned - {n};
      Goto(FetchAdd(s, n, delta), t, pc).(owned := owners)
        == Touch(s, t, pc, n, s.refs[n] + delta, s.next[n], s.head, owned)
  {
  }

  lemma {:induction false} SameOwner(s: State, n: NodeId)
    ensures n in s.owned ==> s.owned + {n} == s.owned
    ensures n !in s.owned ==> s.owned - {n} == s.owned
  {
  }

  lemma {:induction false} BeginAddShape(s: State, t: ThreadId, n: NodeId)
    requires WellFormed(s) && Enabled(s, BeginAdd(t, n)) && s.refs[n] < SHOULD_BE_ON_FREELIST
    ensures var pc := if s.refs[n] == 0 then Add(n, LoadHead, Return) else Idle;
      Apply(s, BeginAdd(t, n)) == Touch(s, t, pc, n, s.refs[n] + SHOULD_BE_ON_FREELIST, s.next[n], s.head, false)
  {
    var pc := if s.refs[n] == 0 then Add(n, LoadHead, Return) else Idle;
    FetchIsTouch(s, t, pc, n, SHOULD_BE_ON_FREELIST, false);
  }

  lemma {:induction false} BeginAddStep(s: State, v: View, t: ThreadId, n: NodeId) returns (v': View)
    requires Inv(s, v) && Enabled(s, BeginAdd(t, n))
    ensures Inv(Apply(s, BeginAdd(t, n)), v')
  {
    NodeFacts(s, v, t, n);
    var pc := if s.refs[n] == 0 then Add(n, LoadHead, Return) else Idle;
    var phase := if s.refs[n] == 0 then Adding(t) else Flagged;
    TouchStep(s, v, t, pc, n, s.refs[n] + SHOULD_BE_ON_FREELIST, s.next[n], s.head, v.list, phase, false);
    v' := View(v.list, v.phase[n := phase]);
    BeginAddShape(s, t, n);
  }

  lemma {:induction false} TakeRefShape(s: State, t: ThreadId)
    requires WellFormed(s) && t < |s.pcs| && s.pcs[t].Get? && s.pcs[t].get.TakeRef?
    requires s.pcs[t].node < |s.refs| && s.refs[s.pcs[t].node] == s.pcs[t].get.seen < WORD - 1
    ensures var h := s.pcs[t].node;
      Step(s, t) == Touch(s, t, Get(h, LoadNext), h, s.refs[h] + 1, s.next[h], s.head, h in s.owned)
  {
    var h := s.pcs[t].node;
    FetchIsTouch(s, t, Get(h, LoadNext), h, 1, h in s.owned);
    SameOwner(s, h);
  }

  lemma {:induction false} TakeRefStep(s: State, v: View, t: ThreadId)
    requires Inv(s, v) && t < |s.pcs| && s.pcs[t].Get? && s.pcs[t].get.TakeRef?
    ensures Inv(Step(s, t), v)
  {
    var h := s.pcs[t].node;
    NodeFacts(s, v, t, h);
    if s.refs[h] == s.pcs[t].get.seen {
      var owned, phase := h in s.owned, v.phase[h];
      TouchStep(s, v, t, Get(h, LoadNext), h, s.refs[h] + 1, s.next[h], s.head, v.list, phase, owned);
      assert View(v.list, v.phase[h := phase]) == v;
      TakeRefShape(s, t);
    } else {
      QuietStep(s, v, t, Start);
    }
  }

  lemma {:induction false} PopStep(s: State, v: View, t: ThreadId) returns (v': View)
    requires Inv(s, v) && t < |s.pcs| && s.pcs[t].Get? && s.pcs[t].get.Pop?
    ensures Inv(Step(s, t), v')
  {
    var h := s.pcs[t].node;
    NodeFacts(s, v, t, h);
    if s.head == Some(h) {
      ChainTail(s.head, s.next, v.list);
      v' := View(v.list[1..], v.phase[h := Taken(t)]);
      TouchStep(s, v, t, Get(h, Check), h, s.refs[h], s.next[h], s.next[h], v.list[1..], Taken(t), false);
      SameOwner(s, h);
      assert Step(s, t) == Touch(s, t, Get(h, Check), h, s.refs[h], s.next[h], s.next[h], false);
    } else {
      v' := v;
      QuietStep(s, v, t, Get(h, DropOne(s.head)));
    }
  }

  lemma {:induction false} CheckStep(s: State, v: View, t: ThreadId)
    requires Inv(s, v) && t < |s.pcs| && s.pcs[t].Get? && s.pcs[t].get.Check?
    ensures Inv(Step(s, t), v)
  {
    var h := s.pcs[t].node;
    NodeFacts(s, v, t, h);
    QuietStep(s, v, t, Get(h, DropTwo));
  }

  lemma {:induction false} DropTwoShape(s: State, t: ThreadId)
    requires WellFormed(s) && t < |s.pcs| && s.pcs[t].Get? && s.pcs[t].get.DropTwo?
    requires s.pcs[t].node < |s.refs| && 2 <= s.refs[s.pcs[t].node] < WORD
    ensures var h := s.pcs[t].node;
      Step(s, t) == Touch(s, t, Idle, h, s.refs[h] - 2, s.next[h], s.head, true)
  {
    FetchIsTouch(s, t, Idle, s.pcs[t].node, -2, true);
  }

  lemma {:induction false} DropTwoStep(s: State, v: View, t: ThreadId) returns (v': View)
    requires Inv(s, v) && t < |s.pcs| && s.pcs[t].Get? && s.pcs[t].get.DropTwo?
    ensures Inv(Step(s, t), v')
    ensures s.pcs[t].node !in s.owned
  {
    var h := s.pcs[t].node;
    NodeFacts(s, v, t, h);
    TouchStep(s, v, t, Idle, h, s.refs[h] - 2, s.next[h], s.head, v.list, Owned, true);
    v' := View(v.list, v.phase[h := Owned]);
    DropTwoShape(s, t);
  }

  lemma {:induction false} DropOneShape(s: State, t: ThreadId)
    requires WellFormed(s) && t < |s.pcs| && s.pcs[t].Get? && s.pcs[t].get.DropOne?
    requires s.pcs[t].node < |s.refs| && 1 <= s.refs[s.pcs[t].node] < WORD
    ensures var h := s.pcs[t].node; var pc := AfterDrop(h, s.refs[h], s.pcs[t].get.newHead);
      Step(s, t) == Touch(s, t, pc, h, s.refs[h] - 1, s.next[h], s.head, h in s.owned)
  {
    var h := s.pcs[t].node;
    FetchIsTouch(s, t, AfterDrop(h, s.refs[h], s.pcs[t].get.newHead), h, -1, h in s.owned);
    SameOwner(s, h);
  }

  /** The word and the phase that dropping a reference leaves. */
  lemma {:induction false} DroppedWord(s: State, v: View, t: ThreadId, h: NodeId, phase: Phase, pc: PC)
    requires Inv(s, v) && t < |s.pcs| && s.pcs[t].Get? && s.pcs[t].get.DropOne? && h == s.pcs[t].node < |s.refs|
    requires pc == AfterDrop(h, s.refs[h], s.pcs[t].get.newHead)
    requires phase == if s.refs[h] == SHOULD_BE_ON_FREELIST + 1 then Adding(t) else v.phase[h]
    ensures 1 <= s.refs[h] < WORD && HoldersAfter(s, t, pc, h) >= 0
    ensures s.refs[h] - 1 == Word(phase, HoldersAfter(s, t, pc, h))
    ensures LocalsOk(pc, |s.refs|) && Ptr(s.next[h], |s.refs|) && Ptr(s.head, |s.refs|)
    ensures IsChain(s.head, s.next[h := s.next[h]], v.list)
    ensures (h in v.list <==> phase.Listed?) && (h in s.owned <==> phase.Owned?)
  {
    NodeFacts(s, v, t, h);
  }

  lemma {:induction false} DroppedPhase(s: State, v: View, t: ThreadId, h: NodeId, phase: Phase, pc: PC)
    requires Inv(s, v) && t < |s.pcs| && s.pcs[t].Get? && s.pcs[t].get.DropOne? && h == s.pcs[t].node < |s.refs|
    requires pc == AfterDrop(h, s.refs[h], s.pcs[t].get.newHead)
    requires phase == if s.refs[h] == SHOULD_BE_ON_FREELIST + 1 then Adding(t) else v.phase[h]
    requires HoldersAfter(s, t, pc, h) >= 0
    ensures Claims(pc, t, h, phase, s.next[h]) && Entitled(s, v, t, h, phase, s.next[h])
    ensures if HeldByOther(v.phase[h], t) then phase == v.phase[h] && !phase.Adding?
            else PhaseOk(phase, h, HoldersAfter(s, t, pc, h), pc, t)
  {
    NodeFacts(s, v, t, h);
  }

  lemma {:induction false} DropOneStep(s: State, v: View, t: ThreadId) returns (v': View)
    requires Inv(s, v) && t < |s.pcs| && s.pcs[t].Get? && s.pcs[t].get.DropOne?
    ensures Inv(Step(s, t), v')
  {
    var h, newHead := s.pcs[t].node, s.pcs[t].get.newHead;
    assert LocalsOk(s.pcs[t], |s.refs|);
    var last := s.refs[h] == SHOULD_BE_ON_FREELIST + 1;
    var pc := AfterDrop(h, s.refs[h], newHead);
    var phase := if last then Adding(t) else v.phase[h];
    DroppedWord(s, v, t, h, phase, pc);
    DroppedPhase(s, v, t, h, phase, pc);
    TouchStep(s, v, t, pc, h, s.refs[h] - 1, s.next[h], s.head, v.list, phase, h in s.owned);
    v' := View(v.list, v.phase[h := phase]);
    DropOneShape(s, t);
  }

  lemma {:induction false} LinkUnlisted(head: Option<NodeId>, next: seq<Option<NodeId>>, list: seq<NodeId>, n: NodeId,
                                        link: Option<NodeId>)
    requires IsChain(head, next, list) && n !in list && n < |next|
    ensures IsChain(head, next[n := link], list)
  {
  }

  lemma {:induction false} SetNextStep(s: State, v: View, t: ThreadId)
    requires Inv(s, v) && t < |s.pcs| && s.pcs[t].Add? && s.pcs[t].add.SetNext?
    ensures Inv(Step(s, t), v)
  {
    var Add(n, at, k) := s.pcs[t];
    var pc, phase := Add(n, SetRefs(at.expected), k), v.phase[n];
    NodeFacts(s, v, t, n);
    LinkUnlisted(s.head, s.next, v.list, n, at.expected);
    TouchStep(s, v, t, pc, n, s.refs[n], at.expected, s.head, v.list, phase, false);
    assert View(v.list, v.phase[n := phase]) == v;
    SameOwner(s, n);
    assert Step(s, t) == Touch(s, t, pc, n, s.refs[n], at.expected, s.head, false);
  }

  lemma {:induction false} SetRefsStep(s: State, v: View, t: ThreadId) returns (v': View)
    requires Inv(s, v) && t < |s.pcs| && s.pcs[t].Add? && s.pcs[t].add.SetRefs?
    ensures Inv(Step(s, t), v')
  {
    var Add(n, at, k) := s.pcs[t];
    var pc := Add(n, Publish(at.expected), k);
    NodeFacts(s, v, t, n);
    TouchStep(s, v, t, pc, n, 1, s.next[n], s.head, v.list, Publishing(t), false);
    v' := View(v.list, v.phase[n := Publishing(t)]);
    SameOwner(s, n);
    assert Step(s, t) == Touch(s, t, pc, n, 1, s.next[n], s.head, false);
  }

  lemma {:induction false} PublishStep(s: State, v: View, t: ThreadId) returns (v': View)
    requires Inv(s, v) && t < |s.pcs| && s.pcs[t].Add? && s.pcs[t].add.Publish?
    ensures Inv(Step(s, t), v')
  {
    var Add(n, at, k) := s.pcs[t];
    NodeFacts(s, v, t, n);
    if s.head == at.expected {
      ChainCons(s.head, s.next, v.list, n);
      TouchStep(s, v, t, AfterAdd(k), n, s.refs[n], s.next[n], Some(n), [n] + v.list, Listed, false);
      v' := View([n] + v.list, v.phase[n := Listed]);
      SameOwner(s, n);
      assert Step(s, t) == Touch(s, t, AfterAdd(k), n, s.refs[n], s.next[n], Some(n), false);
    } else {
      v' := v;
      QuietStep(s, v, t, Add(n, Retract(s.head), k));
    }
  }

  lemma {:induction false} RetractShape(s: State, t: ThreadId)
    requires WellFormed(s) && t < |s.pcs| && s.pcs[t].Add? && s.pcs[t].add.Retract?
    requires s.pcs[t].node < |s.refs| && s.refs[s.pcs[t].node] < SHOULD_BE_ON_FREELIST && s.pcs[t].node !in s.owned
    ensures var Add(n, at, k) := s.pcs[t];
      var pc := if s.refs[n] == 1 then Add(n, SetNext(at.expected), k) else AfterAdd(k);
      Step(s, t) == Touch(s, t, pc, n, s.refs[n] + SHOULD_BE_ON_FREELIST - 1, s.next[n], s.head, false)
  {
    var Add(n, at, k) := s.pcs[t];
    var pc := if s.refs[n] == 1 then Add(n, SetNext(at.expected), k) else AfterAdd(k);
    FetchIsTouch(s, t, pc, n, SHOULD_BE_ON_FREELIST - 1, false);
    SameOwner(s, n);
  }

  lemma {:induction false} RetractStep(s: State, v: View, t: ThreadId) returns (v': View)
    requires Inv(s, v) && t < |s.pcs| && s.pcs[t].Add? && s.pcs[t].add.Retract?
    ensures Inv(Step(s, t), v')
  {
    var Add(n, at, k) := s.pcs[t];
    NodeFacts(s, v, t, n);
    var pc := if s.refs[n] == 1 then Add(n, SetNext(at.expected), k) else AfterAdd(k);
    var phase := if s.refs[n] == 1 then Adding(t) else Flagged;
    var word := s.refs[n] + SHOULD_BE_ON_FREELIST - 1;
    TouchStep(s, v, t, pc, n, word, s.next[n], s.head, v.list, phase, false);
    v' := View(v.list, v.phase[n := phase]);
    RetractShape(s, t);
  }

  lemma {:induction false} GetStepKeepsInv(s: State, v: View, t: ThreadId) returns (v': View)
    requires Inv(s, v) && t < |s.pcs| && s.pcs[t].Get?
    ensures Inv(Step(s, t), v')
  {
    v' := v;
    var h := s.pcs[t].node;
    match s.pcs[t].get
    case LoadRefs => QuietStep(s, v, t, if Count(s.refs[h]) == 0 then Start else Get(h, TakeRef(s.refs[h])));
    case TakeRef(_) => TakeRefStep(s, v, t);
    case LoadNext => QuietStep(s, v, t, Get(h, Pop(s.next[h])));
    case Pop(_) => v' := PopStep(s, v, t);
    case Check => CheckStep(s, v, t);
    case DropTwo => v' := DropTwoStep(s, v, t);
    case DropOne(_) => v' := DropOneStep(s, v, t);
  }

  lemma {:induction false} AddStepKeepsInv(s: State, v: View, t: ThreadId) returns (v': View)
    requires Inv(s, v) && t < |s.pcs| && s.pcs[t].Add?
    ensures Inv(Step(s, t), v')
  {
    v' := v;
    assert ThreadOk(s, v, t);
    match s.pcs[t].add
    case LoadHead => QuietStep(s, v, t, Add(s.pcs[t].node, SetNext(s.head), s.pcs[t].resume));
    case SetNext(_) => SetNextStep(s, v, t);
    case SetRefs(_) => v' := SetRefsStep(s, v, t);
    case Publish(_) => v' := PublishStep(s, v, t);
    case Retract(_) => v' := RetractStep(s, v, t);
  }

  lemma {:induction false} StepKeepsInv(s: State, v: View, e: Event) returns (v': View)
    requires Inv(s, v) && Enabled(s, e)
    ensures Inv(Apply(s, e), v')
  {
    v' := v;
    match e
    case BeginAdd(t, n) => v' := BeginAddStep(s, v, t, n);
    case BeginTryGet(t) => QuietStep(s, v, t, Start);
    case Advance(t) =>
      match s.pcs[t]
      case Start => QuietStep(s, v, t, Loop(s.head));
      case Get(_, _) => v' := GetStepKeepsInv(s, v, t);
      case Add(_, _, _) => v' := AddStepKeepsInv(s, v, t);
  }

  // ---------------------------------------------------------------------------------------------
  // What holds in every state of every run

  /** A fresh list: nothing linked, every node still with the client that created it. */
  predicate Init(s: State) {
    && s.head == None && !s.assertFailed
    && |s.next| == |s.refs| && |s.pcs| < SHOULD_BE_ON_FREELIST - 1
    && (forall n :: 0 <= n < |s.refs| ==> s.refs[n] == 0 && s.next[n] == None)
    && s.owned == Range(0, |s.refs|)
    && (forall t :: 0 <= t < |s.pcs| ==> s.pcs[t] == Idle)
  }

  /** The states of one run: any interleaving of any number of calls. */
  predicate IsRun(run: seq<State>, events: seq<Event>) {
    && |run| == |events| + 1
    && Init(run[0])
    && forall i :: 0 <= i < |events| ==> Happens(run, events, i)
  }

  /** Step number i of a run. */
  predicate Happens(run: seq<State>, events: seq<Event>, i: nat) {
    && i < |events| && i + 1 < |run|
    && WellFormed(run[i]) && Enabled(run[i], events[i]) && run[i + 1] == Apply(run[i], events[i])
  }

  lemma {:induction false} NoHolders(pcs: seq<PC>, n: NodeId)
    requires forall t :: 0 <= t < |pcs| ==> Held(pcs[t]) != Some(n)
    ensures Holders(pcs, n) == 0
  {
    if pcs != [] {
      NoHolders(pcs[..|pcs| - 1], n);
    }
  }

  lemma {:induction false} SomeHolder(pcs: seq<PC>, n: NodeId) returns (t: ThreadId)
    requires Holders(pcs, n) > 0
    ensures t < |pcs| && Held(pcs[t]) == Some(n)
  {
    t := |pcs| - 1;
    if Held(pcs[t]) != Some(n) {
      t := SomeHolder(pcs[..t], n);
    }
  }

  lemma {:induction false} InitInv(s: State) returns (v: View)
    requires Init(s)
    ensures Inv(s, v)
  {
    v := View([], seq(|s.refs|, _ => Owned));
    forall n | 0 <= n < |s.refs|
      ensures NodeOk(s, v, n)
    {
      NoHolders(s.pcs, n);
    }
  }

  lemma {:induction false} RunInv(run: seq<State>, events: seq<Event>, i: nat) returns (v: View)
    requires IsRun(run, events) && i < |run|
    ensures Inv(run[i], v)
  {
    if i == 0 {
      v := InitInv(run[0]);
    } else {
      var v0 := RunInv(run, events, i - 1);
      assert Happens(run, events, i - 1);
      v := StepKeepsInv(run[i - 1], v0, events[i - 1]);
    }
  }

  /** The node reached from the head after following k links. */
  function Follow(s: State, k: nat): Option<NodeId> {
    if k == 0 then s.head
    else match Follow(s, k - 1)
         case None => None
         case Some(n) => if n < |s.next| then s.next[n] else None
  }

  lemma {:induction false} FollowList(s: State, v: View, k: nat)
    requires Inv(s, v)
    ensures Follow(s, k) == if k < |v.list| then Some(v.list[k]) else None
  {
    if k > 0 {
      FollowList(s, v, k - 1);
    }
  }

  ghost predicate Reachable(s: State, n: NodeId) {
    exists k: nat :: Follow(s, k) == Some(n)
  }

  lemma {:induction false} ReachableIsListed(s: State, v: View, n: NodeId)
    requires Inv(s, v) && n < |s.refs|
    ensures Reachable(s, n) <==> v.phase[n].Listed?
  {
    assert NodeOk(s, v, n);
    if Reachable(s, n) {
      var k: nat :| Follow(s, k) == Some(n);
      FollowList(s, v, k);
    }
    if v.phase[n].Listed? {
      var k :| 0 <= k < |v.list| && v.list[k] == n;
      FollowList(s, v, k);
      assert Follow(s, k) == Some(n);
    }
  }

  /** The thread has unlinked the node and is about to return it. */
  predicate Takes(s: State, t: ThreadId, n: NodeId) { t < |s.pcs| && Returning(s.pcs[t], n) }

  predicate Returning(pc: PC, n: NodeId) { pc.Get? && pc.node == n && (pc.get.Check? || pc.get.DropTwo?) }

  /** The thread is inside add_knowing_refcount_is_zero for the node. */
  predicate Adds(s: State, t: ThreadId, n: NodeId) {
    t < |s.pcs| && s.pcs[t].Add? && s.pcs[t].node == n
  }

  /**
   In every run a node has one owner at a time: a node that a client holds, that try_get is returning, or
   that some thread is adding is not reachable from the head; no two threads take or add the same node; a
   node is handed out only while nobody holds it; and the assertion in try_get never fails.
   */
  lemma {:induction false} Exclusivity(run: seq<State>, events: seq<Event>, i: nat, n: NodeId)
    requires IsRun(run, events) && i < |run| && n < |run[i].refs|
    ensures !run[i].assertFailed
    ensures n in run[i].owned ==> !Reachable(run[i], n)
    ensures forall t :: Takes(run[i], t, n) ==> n !in run[i].owned && !Reachable(run[i], n)
    ensures forall t, u :: Takes(run[i], t, n) && Takes(run[i], u, n) ==> t == u
    ensures forall t, u :: Adds(run[i], t, n) && Adds(run[i], u, n) ==> t == u
    ensures forall t, u :: Takes(run[i], t, n) ==> !Adds(run[i], u, n)
  {
    var s := run[i];
    var v := RunInv(run, events, i);
    assert NodeOk(s, v, n);
    ReachableIsListed(s, v, n);
    forall t: ThreadId | t < |s.pcs|
      ensures Takes(s, t, n) ==> v.phase[n] == Taken(t)
      ensures Adds(s, t, n) ==> v.phase[n] == Adding(t) || v.phase[n] == Publishing(t)
    {
      assert ThreadOk(s, v, t);
    }
  }

  /** The next pointer that try_get read is still the node's next pointer when its CAS on the head is tried. */
  lemma {:induction false} NoAba(run: seq<State>, events: seq<Event>, i: nat, t: ThreadId)
    requires IsRun(run, events) && i < |run| && t < |run[i].pcs|
    ensures run[i].pcs[t].Get? && run[i].pcs[t].get.Pop? ==>
              run[i].pcs[t].node < |run[i].next| && run[i].next[run[i].pcs[t].node] == run[i].pcs[t].get.next
  {
    var v := RunInv(run, events, i);
    assert ThreadOk(run[i], v, t);
  }

  /** The reference that the list itself has: from the store of 1 until the taker subtracts 2 or the adder gives up. */
  ghost predicate ListReference(s: State, n: NodeId) {
    || Reachable(s, n)
    || (exists t: ThreadId :: Takes(s, t, n))
    || (exists t: ThreadId :: Adds(s, t, n) && (s.pcs[t].add.Publish? || s.pcs[t].add.Retract?))
  }

  /** The low bits of freeListRefs count the list's reference and the threads' references, and never overflow. */
  lemma {:induction false} Accounting(run: seq<State>, events: seq<Event>, i: nat, n: NodeId)
    requires IsRun(run, events) && i < |run| && n < |run[i].refs|
    ensures run[i].refs[n] < WORD
    ensures Count(run[i].refs[n]) == Holders(run[i].pcs, n) + One(ListReference(run[i], n))
    ensures Flag(run[i].refs[n]) ==> n !in run[i].owned && !ListReference(run[i], n)
  {
    var s := run[i];
    var v := RunInv(run, events, i);
    assert NodeOk(s, v, n);
    ReachableIsListed(s, v, n);
    HoldersAtMost(s.pcs, n);
    forall t: ThreadId | t < |s.pcs|
      ensures Takes(s, t, n) ==> v.phase[n] == Taken(t)
      ensures Adds(s, t, n) ==> v.phase[n] == Role(s.pcs[t], t).value.1
    {
      assert ThreadOk(s, v, t);
    }
    if v.phase[n].Taken? {
      assert Takes(s, v.phase[n].thread, n);
    }
    if v.phase[n].Publishing? {
      assert Adds(s, v.phase[n].thread, n);
    }
  }

  lemma {:induction false} HoldersAtMost(pcs: seq<PC>, n: NodeId)
    ensures Holders(pcs, n) <= |pcs|
  {
    if pcs != [] {
      HoldersUpdate(pcs, 0, Idle, n);
    }
  }

  /**
   No node is lost: a node that no client holds is on the list, is being taken or added by a running thread,
   or is flagged while some thread holds a reference to it -- and the last such thread must add it.
   */
  lemma {:induction false} NoLoss(run: seq<State>, events: seq<Event>, i: nat, n: NodeId)
    requires IsRun(run, events) && i < |run| && n < |run[i].refs| && n !in run[i].owned
    ensures || Reachable(run[i], n)
            || (exists t: ThreadId :: Takes(run[i], t, n) || Adds(run[i], t, n))
            || (Flag(run[i].refs[n]) && exists t :: 0 <= t < |run[i].pcs| && Held(run[i].pcs[t]) == Some(n))
  {
    var s := run[i];
    var v := RunInv(run, events, i);
    assert NodeOk(s, v, n);
    ReachableIsListed(s, v, n);
    match v.phase[n]
    case Adding(t) => assert Adds(s, t, n);
    case Publishing(t) => assert Adds(s, t, n);
    case Taken(t) => assert Takes(s, t, n);
    case Flagged =>
      HoldersAtMost(s.pcs, n);
      var t := SomeHolder(s.pcs, n);
    case _ =>
  }

  /** A thread that holds a flagged node cannot take it; the last holder that drops its reference adds it. */
  lemma {:induction false} LastHolderAdds(run: seq<State>, events: seq<Event>, i: nat, n: NodeId, t: ThreadId)
    requires IsRun(run, events) && i < |run| && n < |run[i].refs| && t < |run[i].pcs|
    requires Flag(run[i].refs[n]) && Held(run[i].pcs[t]) == Some(n)
    ensures WellFormed(run[i])
    ensures !Takes(run[i], t, n) && !Takes(Step(run[i], t), t, n)
    ensures run[i].pcs[t].get.DropOne? && Holders(run[i].pcs, n) == 1 ==> Adds(Step(run[i], t), t, n)
  {
    var s := run[i];
    var v := RunInv(run, events, i);
    assert NodeOk(s, v, n) && ThreadOk(s, v, t);
    ReachableIsListed(s, v, n);
    HoldersAtMost(s.pcs, n);
    FollowList(s, v, 0);
  }

  /** When no call is in progress, every node is either with a client or on the list, and on it exactly once. */
  lemma {:induction false} Quiescence(run: seq<State>, events: seq<Event>, i: nat, n: NodeId)
    requires IsRun(run, events) && i < |run| && n < |run[i].refs|
    requires forall t :: 0 <= t < |run[i].pcs| ==> run[i].pcs[t] == Idle
    ensures n !in run[i].owned <==> Reachable(run[i], n)
    ensures forall j: nat, k: nat :: Follow(run[i], j) == Some(n) && Follow(run[i], k) == Some(n) ==> j == k
    ensures run[i].refs[n] == if n in run[i].owned then 0 else 1
  {
    var s := run[i];
    var v := RunInv(run, events, i);
    assert NodeOk(s, v, n);
    ReachableIsListed(s, v, n);
    NoHolders(s.pcs, n);
    forall j: nat, k: nat | Follow(s, j) == Some(n) && Follow(s, k) == Some(n)
      ensures j == k
    {
      FollowList(s, v, j);
      FollowList(s, v, k);
    }
  }

  // ---------------------------------------------------------------------------------------------
  // What the calls answer

  /** Thread t calls try_get at event i and has not returned in state j. */
  predicate Getting(run: seq<State>, events: seq<Event>, t: ThreadId, i: nat, j: nat) {
    && i < |events| && i < j < |run| && events[i] == BeginTryGet(t)
    && forall k :: i < k <= j ==> t < |run[k].pcs| && !run[k].pcs[t].Idle?
  }

  /** The list was empty at some moment after event i and before state j. */
  predicate WasEmpty(run: seq<State>, i: nat, j: nat) {
    exists k :: i < k < j && k < |run| && run[k].head == None
  }

  /** After event i and before state j, thread t took node n off the front of the list. */
  predicate TookFirst(run: seq<State>, events: seq<Event>, t: ThreadId, i: nat, j: nat, n: NodeId) {
    exists k :: i < k < j && Unlinks(run, events, t, k, n)
  }

  predicate Unlinks(run: seq<State>, events: seq<Event>, t: ThreadId, k: nat, n: NodeId) {
    && k < |events| && k + 1 < |run| && events[k] == Advance(t)
    && run[k].head == Some(n) && n < |run[k].next| && run[k + 1].head == run[k].next[n]
  }

  /** The value of the head that the thread is going to test next is null. */
  predicate SawNull(pc: PC) {
    (pc.Get? && pc.get == DropOne(None)) || (pc.Add? && pc.resume == Retry(None))
  }

  /** What a thread inside try_get knows. */
  predicate Knows(run: seq<State>, events: seq<Event>, t: ThreadId, i: nat, j: nat, pc: PC) {
    && (pc.Add? ==> pc.resume.Retry?)
    && (SawNull(pc) ==> WasEmpty(run, i, j))
    && (pc.Get? && Returning(pc, pc.node) ==> TookFirst(run, events, t, i, j, pc.node))
  }

  lemma {:induction false} KnowsStill(run: seq<State>, events: seq<Event>, t: ThreadId, i: nat, j: nat, pc: PC)
    requires Knows(run, events, t, i, j, pc)
    ensures Knows(run, events, t, i, j + 1, pc)
  {
    if SawNull(pc) {
      var k :| i < k < j && k < |run| && run[k].head == None;
      assert i < k < j + 1;
    }
    if pc.Get? && Returning(pc, pc.node) {
      var k :| i < k < j && Unlinks(run, events, t, k, pc.node);
      assert i < k < j + 1;
    }
  }

  /** A step of one thread leaves the others where they are, and a thread inside a call only advances. */
  lemma {:induction false} OthersStay(s: State, e: Event, t: ThreadId)
    requires WellFormed(s) && Enabled(s, e) && t < |s.pcs|
    ensures e.thread != t ==> Apply(s, e).pcs[t] == s.pcs[t]
    ensures e.thread == t && !s.pcs[t].Idle? ==> e == Advance(t)
  {
  }

  /** One step of a thread inside try_get. */
  predicate GetsOn(s: State, s': State, pc: PC, pc': PC) {
    && (pc'.Add? ==> pc'.resume.Retry?)
    && (SawNull(pc') ==> SawNull(pc) || s.head == None)
    && (pc'.Get? && Returning(pc', pc'.node) ==>
        Returning(pc, pc'.node) || (s.head == Some(pc'.node) && pc'.node < |s.next| && s'.head == s.next[pc'.node]))
    && (pc'.Idle? && s'.owned == s.owned ==> SawNull(pc) || s.head == None)
    && (pc'.Idle? && s'.owned != s.owned ==>
        pc.Get? && Returning(pc, pc.node) && pc.node !in s.owned && s'.owned == s.owned + {pc.node})
  }

  lemma {:induction false} AddGetsOn(s: State, t: ThreadId)
    requires WellFormed(s) && t < |s.pcs| && s.pcs[t].Add? && s.pcs[t].resume.Retry?
    ensures GetsOn(s, Step(s, t), s.pcs[t], Step(s, t).pcs[t])
  {
  }

  lemma {:induction false} DropGetsOn(s: State, t: ThreadId)
    requires WellFormed(s) && t < |s.pcs| && s.pcs[t].Get? && (s.pcs[t].get.DropTwo? || s.pcs[t].get.DropOne?)
    requires s.pcs[t].get.DropTwo? ==> s.pcs[t].node !in s.owned
    ensures GetsOn(s, Step(s, t), s.pcs[t], Step(s, t).pcs[t])
  {
    if s.pcs[t].get.DropTwo? {
      assert s.pcs[t].node in Step(s, t).owned;
    }
  }

  lemma {:induction false} GetSteps(s: State, t: ThreadId)
    requires WellFormed(s) && t < |s.pcs| && !s.pcs[t].Idle? && (s.pcs[t].Add? ==> s.pcs[t].resume.Retry?)
    requires s.pcs[t].Get? && s.pcs[t].get.Pop? ==>
               s.pcs[t].node < |s.next| && s.next[s.pcs[t].node] == s.pcs[t].get.next
    requires s.pcs[t].Get? && s.pcs[t].get.DropTwo? ==> s.pcs[t].node !in s.owned
    ensures GetsOn(s, Step(s, t), s.pcs[t], Step(s, t).pcs[t])
  {
    if s.pcs[t].Add? {
      AddGetsOn(s, t);
    } else if s.pcs[t].Get? && (s.pcs[t].get.DropTwo? || s.pcs[t].get.DropOne?) {
      DropGetsOn(s, t);
    }
  }

  lemma {:induction false} GetStepFacts(run: seq<State>, events: seq<Event>, j: nat, t: ThreadId)
    requires IsRun(run, events) && j < |run| && t < |run[j].pcs|
    ensures var s, pc := run[j], run[j].pcs[t];
      && WellFormed(s)
      && (pc.Get? && pc.get.Pop? ==> pc.node < |s.next| && s.next[pc.node] == pc.get.next)
      && (pc.Get? && pc.get.DropTwo? ==> pc.node !in s.owned)
  {
    var s, pc := run[j], run[j].pcs[t];
    var v := RunInv(run, events, j);
    NoAba(run, events, j, t);
    assert LocalsOk(pc, |s.refs|);
    if pc.Get? && pc.get.DropTwo? {
      Exclusivity(run, events, j, pc.node);
      assert Takes(s, t, pc.node);
    }
  }

  lemma {:induction false} KnowsNext(run: seq<State>, events: seq<Event>, t: ThreadId, i: nat, j: nat)
    requires IsRun(run, events) && i < j < |events| && t < |run[j].pcs| && !run[j].pcs[t].Idle?
    requires events[j] == Advance(t) && Knows(run, events, t, i, j, run[j].pcs[t])
    ensures t < |run[j + 1].pcs| && Knows(run, events, t, i, j + 1, run[j + 1].pcs[t])
  {
    var s, s' := run[j], run[j + 1];
    assert Happens(run, events, j);
    GetStepFacts(run, events, j, t);
    GetSteps(s, t);
    KnowsStill(run, events, t, i, j, s.pcs[t]);
    assert s.head == None ==> WasEmpty(run, i, j + 1);
    var pc' := s'.pcs[t];
    if pc'.Get? && Returning(pc', pc'.node) && !Returning(s.pcs[t], pc'.node) {
      assert Unlinks(run, events, t, j, pc'.node);
    }
  }

  lemma {:induction false} KnowsAll(run: seq<State>, events: seq<Event>, t: ThreadId, i: nat, j: nat)
    requires IsRun(run, events) && Getting(run, events, t, i, j)
    ensures Knows(run, events, t, i, j, run[j].pcs[t])
  {
    var e := events[j - 1];
    assert Happens(run, events, j - 1);
    OthersStay(run[j - 1], e, t);
    if j > i + 1 {
      KnowsAll(run, events, t, i, j - 1);
      if e.thread == t {
        KnowsNext(run, events, t, i, j - 1);
      } else {
        KnowsStill(run, events, t, i, j - 1, run[j - 1].pcs[t]);
      }
    }
  }

  /**
   What try_get answers, whatever the other threads do meanwhile: null only if the list was empty at some moment of
   the call; otherwise a node that was the first of the list when the call unlinked it, and that nobody owns.
   */
  lemma {:induction false} TryGetAnswers(run: seq<State>, events: seq<Event>, t: ThreadId, i: nat, j: nat)
    requires IsRun(run, events) && Getting(run, events, t, i, j)
    requires j < |events| && t < |run[j + 1].pcs| && run[j + 1].pcs[t].Idle?
    ensures run[j + 1].owned == run[j].owned ==> WasEmpty(run, i, j + 1)
    ensures run[j + 1].owned != run[j].owned ==>
              exists n :: n !in run[j].owned && run[j + 1].owned == run[j].owned + {n}
                          && TookFirst(run, events, t, i, j, n)
  {
    assert Happens(run, events, j);
    KnowsAll(run, events, t, i, j);
    OthersStay(run[j], events[j], t);
    GetStepFacts(run, events, j, t);
    GetSteps(run[j], t);
    KnowsStill(run, events, t, i, j, run[j].pcs[t]);
    assert run[j].head == None ==> WasEmpty(run, i, j + 1);
  }

  predicate TurnsBack(pc: PC) { pc.Start? || (pc.Get? && pc.get.DropOne?) }

  /** try_get turns back only from a node that has left the front of the list or that others have touched. */
  lemma {:induction false} TurnsBackOvertaken(run: seq<State>, events: seq<Event>, i: nat, t: ThreadId)
    requires IsRun(run, events) && i < |run| && t < |run[i].pcs| && run[i].pcs[t].Get?
    requires WellFormed(run[i])
    requires TurnsBack(Step(run[i], t).pcs[t])
    ensures var pc := run[i].pcs[t];
      && pc.node < |run[i].refs|
      && match pc.get
         case LoadRefs => !Reachable(run[i], pc.node)
         case TakeRef(seen) => run[i].refs[pc.node] != seen
         case Pop(_) => run[i].head != Some(pc.node)
         case _ => false
  {
    var s := run[i];
    var v := RunInv(run, events, i);
    var n := s.pcs[t].node;
    assert LocalsOk(s.pcs[t], |s.refs|);
    assert NodeOk(s, v, n);
    ReachableIsListed(s, v, n);
    HoldersAtMost(s.pcs, n);
  }

  /** At most k steps of thread t alone. */
  function Alone(s: State, t: ThreadId, k: nat): (s': State)
    requires WellFormed(s) && t < |s.pcs|
    ensures WellFormed(s') && |s'.refs| == |s.refs| && |s'.pcs| == |s.pcs|
    decreases k
  {
    if k == 0 || s.pcs[t].Idle? then s else Alone(Step(s, t), t, k - 1)
  }

  predicate OthersIdle(s: State, t: ThreadId) {
    t < |s.pcs| && forall u :: 0 <= u < |s.pcs| && u != t ==> s.pcs[u] == Idle
  }

  /** Left alone, try_get takes the first node of the list. */
  lemma {:induction false} AloneTakesFirst(run: seq<State>, events: seq<Event>, i: nat, t: ThreadId, n: NodeId)
    requires IsRun(run, events) && i < |run| && OthersIdle(run[i], t) && run[i].pcs[t] == Start && WellFormed(run[i])
    requires run[i].head == Some(n)
    ensures var s, s' := run[i], Alone(run[i], t, 7);
      && n < |s.next| && n !in s.owned
      && s' == s.(head := s.next[n], refs := s.refs[n := 0], owned := s.owned + {n}, pcs := s.pcs[t := Idle])
  {
    var s := run[i];
    var v := RunInv(run, events, i);
    assert v.list[0] == n && NodeOk(s, v, n);
    NoHolders(s.pcs, n);
    AloneReferences(s, t, n);
    var s3 := s.(refs := s.refs[n := 2], pcs := s.pcs[t := Get(n, LoadNext)]);
    AloneUnlinks(s3, t, n);
    assert s3.refs[n := 0] == s.refs[n := 0] && s3.pcs[t := Idle] == s.pcs[t := Idle];
  }

  /** On an empty list try_get returns null at once. */
  lemma {:induction false} AloneFindsNothing(s: State, t: ThreadId)
    requires WellFormed(s) && t < |s.pcs| && s.pcs[t] == Start && s.head == None
    ensures Step(s, t) == s.(pcs := s.pcs[t := Idle])
  {
  }

  lemma {:induction false} AloneOnce(s: State, t: ThreadId, k: nat, pcs: seq<PC>, pc: PC, s': State)
    requires WellFormed(s) && t < |s.pcs| == |pcs| && !s.pcs[t].Idle? && k > 0
    requires Step(s, t) == s' && s'.pcs == s.pcs[t := pc] && s.pcs[t := pc] == pcs[t := pc]
    ensures Alone(s, t, k) == Alone(s', t, k - 1) && s'.pcs == pcs[t := pc]
  {
  }

  lemma {:induction false} AloneReferences(s: State, t: ThreadId, n: NodeId)
    requires WellFormed(s) && t < |s.pcs| && s.pcs[t] == Start && s.head == Some(n) && s.refs[n] == 1
    ensures var s' := s.(refs := s.refs[n := 2], pcs := s.pcs[t := Get(n, LoadNext)]);
      WellFormed(s') && Alone(s, t, 7) == Alone(s', t, 4)
  {
    var s1 := s.(pcs := s.pcs[t := Get(n, LoadRefs)]);
    AloneOnce(s, t, 7, s.pcs, Get(n, LoadRefs), s1);
    AloneCounts(s1, t, n);
    assert s1.pcs[t := Get(n, LoadNext)] == s.pcs[t := Get(n, LoadNext)];
  }

  lemma {:induction false} SeesOne(s: State, t: ThreadId, n: NodeId)
    requires WellFormed(s) && t < |s.pcs| && s.pcs[t] == Get(n, LoadRefs) && n < |s.refs| && s.refs[n] == 1
    ensures Step(s, t) == s.(pcs := s.pcs[t := Get(n, TakeRef(1))])
  {
    assert Count(1) == 1;
  }

  lemma {:induction false} TakesOne(s: State, t: ThreadId, n: NodeId)
    requires WellFormed(s) && t < |s.pcs| && s.pcs[t] == Get(n, TakeRef(1)) && n < |s.refs| && s.refs[n] == 1
    ensures Step(s, t) == s.(refs := s.refs[n := 2], pcs := s.pcs[t := Get(n, LoadNext)])
  {
  }

  lemma {:induction false} AloneCounts(s: State, t: ThreadId, n: NodeId)
    requires WellFormed(s) && t < |s.pcs| && s.pcs[t] == Get(n, LoadRefs) && n < |s.refs| && s.refs[n] == 1
    ensures var s' := s.(refs := s.refs[n := 2], pcs := s.pcs[t := Get(n, LoadNext)]);
      WellFormed(s') && Alone(s, t, 6) == Alone(s', t, 4)
  {
    var s1 := s.(pcs := s.pcs[t := Get(n, TakeRef(1))]);
    SeesOne(s, t, n);
    TakesOne(s1, t, n);
    AloneOnce(s, t, 6, s.pcs, Get(n, TakeRef(1)), s1);
    var s2 := s.(refs := s.refs[n := 2], pcs := s.pcs[t := Get(n, LoadNext)]);
    AloneOnce(s1, t, 5, s.pcs, Get(n, LoadNext), s2);
  }

  lemma {:induction false} AloneUnlinks(s: State, t: ThreadId, n: NodeId)
    requires WellFormed(s) && t < |s.pcs| && s.pcs[t] == Get(n, LoadNext) && s.head == Some(n) && s.refs[n] == 2
    requires !s.assertFailed
    ensures Alone(s, t, 4)
      == s.(head := s.next[n], refs := s.refs[n := 0], owned := s.owned + {n}, pcs := s.pcs[t := Idle])
  {
    var s1 := s.(pcs := s.pcs[t := Get(n, Pop(s.next[n]))]);
    AloneOnce(s, t, 4, s.pcs, Get(n, Pop(s.next[n])), s1);
    var s2 := s.(head := s.next[n], pcs := s.pcs[t := Get(n, Check)]);
    AloneOnce(s1, t, 3, s.pcs, Get(n, Check), s2);
    var s3 := s.(head := s.next[n], pcs := s.pcs[t := Get(n, DropTwo)]);
    AloneOnce(s2, t, 2, s.pcs, Get(n, DropTwo), s3);
    var s4 := s.(head := s.next[n], refs := s.refs[n := 0], owned := s.owned + {n}, pcs := s.pcs[t := Idle]);
    AloneOnce(s3, t, 1, s.pcs, Idle, s4);
  }

  /** Left alone, add puts the node in front of the list. */
  lemma {:induction false} AloneAddsFirst(run: seq<State>, events: seq<Event>, i: nat, t: ThreadId, n: NodeId)
    requires IsRun(run, events) && i < |run| && OthersIdle(run[i], t) && WellFormed(run[i])
    requires Enabled(run[i], BeginAdd(t, n))
    ensures var s := run[i]; var s' := Alone(Apply(s, BeginAdd(t, n)), t, 4);
      s' == s.(head := Some(n), next := s.next[n := s.head], refs := s.refs[n := 1], owned := s.owned - {n})
  {
    var s := run[i];
    var v := RunInv(run, events, i);
    assert NodeOk(s, v, n);
    NoHolders(s.pcs, n);
    AloneStepsAdd(s, t, n);
  }

  lemma {:induction false} AloneStepsAdd(s: State, t: ThreadId, n: NodeId)
    requires WellFormed(s) && Enabled(s, BeginAdd(t, n)) && s.refs[n] == 0
    ensures Alone(Apply(s, BeginAdd(t, n)), t, 4)
      == s.(head := Some(n), next := s.next[n := s.head], refs := s.refs[n := 1], owned := s.owned - {n})
  {
    var owned := s.owned - {n};
    var s0 := s.(owned := owned, refs := s.refs[n := SHOULD_BE_ON_FREELIST],
                 pcs := s.pcs[t := Add(n, LoadHead, Return)]);
    assert s0 == Apply(s, BeginAdd(t, n));
    var s1 := s0.(pcs := s.pcs[t := Add(n, SetNext(s.head), Return)]);
    AloneOnce(s0, t, 4, s.pcs, Add(n, SetNext(s.head), Return), s1);
    var s2 := s1.(next := s.next[n := s.head], pcs := s.pcs[t := Add(n, SetRefs(s.head), Return)]);
    AloneOnce(s1, t, 3, s.pcs, Add(n, SetRefs(s.head), Return), s2);
    var s3 := s2.(refs := s.refs[n := 1], pcs := s.pcs[t := Add(n, Publish(s.head), Return)]);
    AloneOnce(s2, t, 2, s.pcs, Add(n, Publish(s.head), Return), s3);
    var s4 := s3.(head := Some(n), pcs := s.pcs);
    AloneOnce(s3, t, 1, s.pcs, Idle, s4);
  }
}
