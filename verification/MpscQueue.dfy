/**
 The multi-producer, single-consumer linked queue (include/data_structure/lockfreequeue.h, LockFreeQueue).

 Every atomic access, the read of a node's data, each `new` and each `delete` is one step; the steps of any
 number of producers and of the one consumer interleave freely.  The heap maps the addresses of the live nodes
 to their contents.  `new` may return any address that is not in use, in particular that of a deleted node.
 compare_exchange_weak may fail although the values agree.  A step that reads, writes or deletes through a
 dead address sets `fault`; a test of ableToDelete that finds it unset sets `spun`.
 */
module MpscQueue {
  import opened Common

  type Address = nat
  type ProducerId = nat
  type Element(!new, ==)

  datatype Node = Node(data: Element, next: Option<Address>, ableToDelete: bool)

  datatype Producer =
    | Idle
    | LoadTail(node: Address)
    | CasTail(node: Address, expected: Address)
    | Link(node: Address, previous: Address)       // the tail CAS succeeded, the link is not stored yet

  datatype Consumer =
    | Waiting
    | LoadHead
    | LoadNext(head: Address)
    | CasHead(head: Address, next: Address)
    | ReadData(prior: Address, next: Address)        // the head CAS succeeded
    | SetAble(prior: Address, next: Address, value: Element)
    | Spin(prior: Address, value: Element)
    | Delete(prior: Address, value: Element)

  datatype State = State(
    heap: map<Address, Node>,
    head: Address,
    tail: Address,
    producers: seq<Producer>,
    consumer: Consumer,
    log: seq<Element>,          // history: elements in the order of successful tail CASes
    out: seq<Element>,          // history: elements that dequeue has returned
    fault: bool,
    spun: bool)

  datatype Event =
    | BeginEnqueue(producer: ProducerId, element: Element, address: Address)
    | Produce(producer: ProducerId, spurious: bool)
    | BeginDequeue
    | Consume(spurious: bool)

  predicate Enabled(s: State, e: Event) {
    match e
    case BeginEnqueue(p, _, a) => p < |s.producers| && s.producers[p].Idle? && a !in s.heap
    case Produce(p, _) => p < |s.producers| && !s.producers[p].Idle?
    case BeginDequeue => s.consumer.Waiting?
    case Consume(_) => !s.consumer.Waiting?
  }

  function Apply(s: State, e: Event): State
    requires Enabled(s, e)
  {
    match e
    case BeginEnqueue(p, x, a) =>
      s.(heap := s.heap[a := Node(x, None, false)], producers := s.producers[p := LoadTail(a)])
    case Produce(p, spurious) => ProducerStep(s, p, spurious)
    case BeginDequeue => s.(consumer := LoadHead)
    case Consume(spurious) => ConsumerStep(s, spurious)
  }

  function ProducerStep(s: State, p: ProducerId, spurious: bool): State
    requires p < |s.producers| && !s.producers[p].Idle?
  {
    match s.producers[p]
    case LoadTail(a) => s.(producers := s.producers[p := CasTail(a, s.tail)])
    case CasTail(a, expected) =>
      if s.tail == expected && !spurious && a in s.heap then
        s.(tail := a, producers := s.producers[p := Link(a, expected)], log := s.log + [s.heap[a].data])
      else s.(producers := s.producers[p := LoadTail(a)])
    case Link(a, previous) =>
      if previous in s.heap then
        s.(heap := s.heap[previous := s.heap[previous].(next := Some(a))], producers := s.producers[p := Idle])
      else s.(fault := true)
  }

  function ConsumerStep(s: State, spurious: bool): State
    requires !s.consumer.Waiting?
  {
    match s.consumer
    case LoadHead => s.(consumer := LoadNext(s.head))
    case LoadNext(h) =>
      if h !in s.heap then s.(fault := true)
      else if s.heap[h].next.None? then s.(consumer := Waiting)               // dequeue returns false
      else s.(consumer := CasHead(h, s.heap[h].next.value))
    case CasHead(h, n) =>
      if s.head == h && !spurious then s.(head := n, consumer := ReadData(h, n)) else s.(consumer := LoadHead)
    case ReadData(prior, n) =>
      if n in s.heap then s.(consumer := SetAble(prior, n, s.heap[n].data)) else s.(fault := true)
    case SetAble(prior, n, x) =>
      if n in s.heap then s.(heap := s.heap[n := s.heap[n].(ableToDelete := true)], consumer := Spin(prior, x))
      else s.(fault := true)
    case Spin(prior, x) =>
      if prior !in s.heap then s.(fault := true)
      else if s.heap[prior].ableToDelete then s.(consumer := Delete(prior, x))
      else s.(spun := true)
    case Delete(prior, x) =>
      if prior in s.heap then s.(heap := s.heap - {prior}, consumer := Waiting, out := s.out + [x])   // returns true
      else s.(fault := true)
  }

  // ---------------------------------------------------------------------------------------------
  // The invariant.  `chain` lists the nodes from head to tail in the order of the tail CASes.

  predicate Distinct(chain: seq<Address>) {
    forall i, j :: 0 <= i < j < |chain| ==> chain[i] != chain[j]
  }

  /** The node is linked to its successor, or the producer that appended the successor is about to link it. */
  predicate Joined(heap: map<Address, Node>, producers: seq<Producer>, a: Address, b: Address)
    requires a in heap
  {
    || heap[a].next == Some(b)
    || (heap[a].next == None && exists p :: 0 <= p < |producers| && producers[p] == Link(b, a))
  }

  predicate ChainOk(heap: map<Address, Node>, head: Address, tail: Address, producers: seq<Producer>,
        chain: seq<Address>) {
    && chain != [] && chain[0] == head && chain[|chain| - 1] == tail
    && Distinct(chain)
    && (forall i :: 0 <= i < |chain| ==> chain[i] in heap)
    && (forall i, j :: 0 <= i < |chain| && 0 <= j < |chain| && j == i + 1 ==>
         Joined(heap, producers, chain[i], chain[j]))
    && heap[chain[|chain| - 1]].next == None
  }

  /** The nodes after the head carry the elements not yet taken. */
  predicate DataOk(heap: map<Address, Node>, chain: seq<Address>, log: seq<Element>) {
    && 1 <= |chain| <= |log| + 1
    && forall i :: 1 <= i < |chain| ==>
         chain[i] in heap && heap[chain[i]].data == log[|log| - |chain| + i]
  }

  /** The node a producer has not published yet. */
  function Private(p: Producer): Option<Address> {
    match p
    case LoadTail(a) => Some(a)
    case CasTail(a, _) => Some(a)
    case _ => None
  }

  /** The node the consumer has taken off the chain and not deleted yet. */
  function Retired(c: Consumer): Option<Address> {
    if c.ReadData? || c.SetAble? || c.Spin? || c.Delete? then Some(c.prior) else None
  }

  predicate Follows(chain: seq<Address>, a: Address, b: Address) {
    exists i, j :: 0 <= i < |chain| && 0 <= j < |chain| && j == i + 1 && chain[i] == a && chain[j] == b
  }

  predicate ProducerOk(heap: map<Address, Node>, chain: seq<Address>, c: Consumer, p: Producer) {
    match p
    case Idle => true
    case Link(a, previous) =>
      previous in heap && heap[previous].next == None && Follows(chain, previous, a)
    case _ =>
      var a := Private(p).value;
      a in heap && heap[a].next == None && a !in chain && Retired(c) != Some(a)
  }

  predicate ProducersOk(heap: map<Address, Node>, chain: seq<Address>, c: Consumer, producers: seq<Producer>) {
    && (forall p :: 0 <= p < |producers| ==> ProducerOk(heap, chain, c, producers[p]))
    && (forall p, q :: 0 <= p < q < |producers| && Private(producers[p]).Some? ==>
        Private(producers[p]) != Private(producers[q]))
    && (forall p, q :: 0 <= p < q < |producers| ==> NotBothLink(producers[p], producers[q]))
  }

  predicate NotBothLink(p: Producer, q: Producer) { p.Link? && q.Link? ==> p.previous != q.previous }

  predicate ConsumerOk(s: State, chain: seq<Address>) {
    var taken := |s.log| - |chain| + 1;       // how often the head has advanced
    && chain != [] && chain[0] in s.heap && taken >= 0
    && (!s.consumer.ReadData? && !s.consumer.SetAble? ==> s.heap[chain[0]].ableToDelete)
    && (Retired(s.consumer).Some? ==>
        && Retired(s.consumer).value in s.heap && s.heap[Retired(s.consumer).value].ableToDelete
        && Retired(s.consumer).value !in chain && taken > 0)
    && |s.out| == (if Retired(s.consumer).Some? then taken - 1 else taken)
    && s.out == s.log[..|s.out|]
    && match s.consumer
       case LoadNext(h) => h == chain[0]
       case CasHead(h, n) => h == chain[0] && |chain| > 1 && n == chain[1] && s.heap[h].next == Some(n)
       case ReadData(_, n) => n == chain[0] && s.heap[n].data == s.log[taken - 1]
       case SetAble(_, n, x) => n == chain[0] && x == s.log[taken - 1]
       case Spin(_, x) => x == s.log[taken - 1]
       case Delete(_, x) => x == s.log[taken - 1]
       case _ => true
  }

  ghost predicate Inv(s: State, chain: seq<Address>) {
    && ChainOk(s.heap, s.head, s.tail, s.producers, chain)
    && DataOk(s.heap, chain, s.log)
    && ProducersOk(s.heap, chain, s.consumer, s.producers)
    && ConsumerOk(s, chain)
    && !s.fault && !s.spun
  }

  // ---------------------------------------------------------------------------------------------
  // Every step keeps the invariant

  lemma {:induction false} BeginEnqueueStep(s: State, chain: seq<Address>, p: ProducerId, x: Element, a: Address)
    requires Inv(s, chain) && Enabled(s, BeginEnqueue(p, x, a))
    ensures Inv(Apply(s, BeginEnqueue(p, x, a)), chain)
  {
    var s' := Apply(s, BeginEnqueue(p, x, a));
    JoinedStays(s.heap, s.producers, chain, s'.heap, s'.producers);
    forall q | 0 <= q < |s'.producers|
      ensures ProducerOk(s'.heap, chain, s'.consumer, s'.producers[q])
    {
      assert ProducerOk(s.heap, chain, s.consumer, s.producers[q]);
    }
  }

  /** Links survive when no chain node's link changes and no linking producer is lost. */
  lemma {:induction false} JoinedStays(heap: map<Address, Node>, producers: seq<Producer>, chain: seq<Address>,
                    heap': map<Address, Node>, producers': seq<Producer>)
    requires forall i :: 0 <= i < |chain| ==>
               chain[i] in heap && chain[i] in heap' && heap'[chain[i]].next == heap[chain[i]].next
    requires |producers'| == |producers|
    requires forall q :: 0 <= q < |producers| && producers[q].Link? ==> producers'[q] == producers[q]
    ensures forall i, j ::
              0 <= i < |chain| && 0 <= j < |chain| && j == i + 1 && Joined(heap, producers, chain[i], chain[j]) ==>
              Joined(heap', producers', chain[i], chain[j])
  {
    forall i, j | 0 <= i < |chain| && 0 <= j < |chain| && j == i + 1 && Joined(heap, producers, chain[i], chain[j])
      ensures Joined(heap', producers', chain[i], chain[j])
    {
      if heap[chain[i]].next == None {
        var q :| 0 <= q < |producers| && producers[q] == Link(chain[j], chain[i]);
        assert producers'[q] == Link(chain[j], chain[i]);
      }
    }
  }

  /** A producer that has not published its node moves between loading the tail and trying the CAS. */
  lemma {:induction false} RetryStep(s: State, chain: seq<Address>, p: ProducerId, pc: Producer)
    requires Inv(s, chain) && p < |s.producers|
    requires Private(s.producers[p]).Some? && Private(pc) == Private(s.producers[p])
    ensures Inv(s.(producers := s.producers[p := pc]), chain)
  {
    var s' := s.(producers := s.producers[p := pc]);
    JoinedStays(s.heap, s.producers, chain, s'.heap, s'.producers);
    forall q | 0 <= q < |s'.producers|
      ensures ProducerOk(s'.heap, chain, s'.consumer, s'.producers[q])
    {
      assert ProducerOk(s.heap, chain, s.consumer, s.producers[q]);
    }
  }

  lemma {:induction false} ChainAppended(heap: map<Address, Node>, head: Address, tail: Address,
                                         producers: seq<Producer>, chain: seq<Address>, p: ProducerId, a: Address)
    requires ChainOk(heap, head, tail, producers, chain)
    requires p < |producers| && producers[p] == CasTail(a, tail) && a in heap && heap[a].next == None && a !in chain
    ensures ChainOk(heap, head, a, producers[p := Link(a, tail)], chain + [a])
  {
    var producers', chain', last := producers[p := Link(a, tail)], chain + [a], |chain| - 1;
    JoinedStays(heap, producers, chain, heap, producers');
    forall i, j | 0 <= i < |chain'| && 0 <= j < |chain'| && j == i + 1
      ensures Joined(heap, producers', chain'[i], chain'[j])
    {
      if i == last {
        assert producers'[p] == Link(chain'[j], chain'[i]);
      } else {
        assert chain'[i] == chain[i] && chain'[j] == chain[j];
      }
    }
  }

  lemma {:induction false} DataAppended(heap: map<Address, Node>, chain: seq<Address>, log: seq<Element>, a: Address)
    requires DataOk(heap, chain, log) && a in heap
    ensures DataOk(heap, chain + [a], log + [heap[a].data])
  {
    var chain', log' := chain + [a], log + [heap[a].data];
    forall i | 1 <= i < |chain'|
      ensures chain'[i] in heap && heap[chain'[i]].data == log'[|log'| - |chain'| + i]
    {
      if i < |chain| {
        assert chain'[i] == chain[i];
      }
    }
  }

  lemma {:induction false} FollowsAppended(chain: seq<Address>, x: Address, a: Address, b: Address)
    ensures Follows(chain, a, b) ==> Follows(chain + [x], a, b)
    ensures chain != [] ==> Follows(chain + [x], chain[|chain| - 1], x)
  {
    var chain' := chain + [x];
    if Follows(chain, a, b) {
      var i, j :| 0 <= i < |chain| && 0 <= j < |chain| && j == i + 1 && chain[i] == a && chain[j] == b;
      assert chain'[i] == a && chain'[j] == b;
    }
    if chain != [] {
      assert chain'[|chain| - 1] == chain[|chain| - 1] && chain'[|chain|] == x;
    }
  }

  lemma {:induction false} OneAppended(heap: map<Address, Node>, chain: seq<Address>, c: Consumer, q: Producer,
                                       a: Address)
    requires ProducerOk(heap, chain, c, q) && Private(q) != Some(a)
    ensures ProducerOk(heap, chain + [a], c, q)
  {
    if q.Link? {
      FollowsAppended(chain, a, q.previous, q.node);
    }
  }

  /** The last node of a chain follows nobody's link. */
  lemma {:induction false} NoLinkAtTail(heap: map<Address, Node>, chain: seq<Address>, c: Consumer, q: Producer)
    requires ProducerOk(heap, chain, c, q) && q.Link? && chain != [] && Distinct(chain)
    ensures q.previous != chain[|chain| - 1]
  {
  }

  lemma {:induction false} ProducersAppended(heap: map<Address, Node>, chain: seq<Address>, c: Consumer, tail: Address,
                                             producers: seq<Producer>, p: ProducerId, a: Address)
    requires ProducersOk(heap, chain, c, producers) && p < |producers| && producers[p] == CasTail(a, tail)
    requires chain != [] && Distinct(chain) && chain[|chain| - 1] == tail && tail in heap && heap[tail].next == None
    ensures ProducersOk(heap, chain + [a], c, producers[p := Link(a, tail)])
  {
    var producers' := producers[p := Link(a, tail)];
    FollowsAppended(chain, a, a, a);
    forall q | 0 <= q < |producers'|
      ensures ProducerOk(heap, chain + [a], c, producers'[q])
    {
      if q != p {
        assert Private(producers[q]) != Some(a);
        OneAppended(heap, chain, c, producers[q], a);
      }
    }
    forall q, r | 0 <= q < r < |producers'|
      ensures NotBothLink(producers'[q], producers'[r])
    {
      assert NotBothLink(producers[q], producers[r]);
      if q == p && producers[r].Link? {
        NoLinkAtTail(heap, chain, c, producers[r]);
      }
      if r == p && producers[q].Link? {
        NoLinkAtTail(heap, chain, c, producers[q]);
      }
    }
  }

  /** The consumer sees the head of the chain and the elements taken so far, and both stay. */
  lemma {:induction false} ConsumerAppended(s: State, chain: seq<Address>, s': State, a: Address)
    requires ConsumerOk(s, chain) && Retired(s.consumer) != Some(a) && a in s.heap
    requires s'.heap == s.heap && s'.consumer == s.consumer && s'.log == s.log + [s.heap[a].data] && s'.out == s.out
    ensures ConsumerOk(s', chain + [a])
  {
    assert |s.out| <= |s.log| ==> s'.log[..|s.out|] == s.log[..|s.out|];
  }

  /** The tail CAS succeeds: the node joins the chain, its link still to be stored. */
  lemma {:induction false} AppendStep(s: State, chain: seq<Address>, p: ProducerId, a: Address)
    returns (chain': seq<Address>)
    requires Inv(s, chain) && p < |s.producers| && s.producers[p] == CasTail(a, s.tail)
    ensures a in s.heap
    ensures Inv(s.(tail := a, producers := s.producers[p := Link(a, s.tail)], log := s.log + [s.heap[a].data]), chain')
  {
    assert ProducerOk(s.heap, chain, s.consumer, s.producers[p]);
    var s' := s.(tail := a, producers := s.producers[p := Link(a, s.tail)], log := s.log + [s.heap[a].data]);
    chain' := chain + [a];
    ChainAppended(s.heap, s.head, s.tail, s.producers, chain, p, a);
    DataAppended(s.heap, chain, s.log, a);
    ProducersAppended(s.heap, chain, s.consumer, s.tail, s.producers, p, a);
    ConsumerAppended(s, chain, s', a);
  }

  lemma {:induction false} ChainLinked(heap: map<Address, Node>, head: Address, tail: Address,
                                       producers: seq<Producer>, chain: seq<Address>, p: ProducerId,
                                       heap': map<Address, Node>)
    requires ChainOk(heap, head, tail, producers, chain) && p < |producers| && producers[p].Link?
    requires producers[p].previous in heap && Follows(chain, producers[p].previous, producers[p].node)
    requires heap' == heap[producers[p].previous := heap[producers[p].previous].(next := Some(producers[p].node))]
    ensures ChainOk(heap', head, tail, producers[p := Idle], chain)
  {
    var previous, a, producers' := producers[p].previous, producers[p].node, producers[p := Idle];
    var i, j :| 0 <= i < |chain| && 0 <= j < |chain| && j == i + 1 && chain[i] == previous && chain[j] == a;
    forall k, l | 0 <= k < |chain| && 0 <= l < |chain| && l == k + 1
      ensures Joined(heap', producers', chain[k], chain[l])
    {
      assert Joined(heap, producers, chain[k], chain[l]);
      if k != i && heap[chain[k]].next == None {
        var q :| 0 <= q < |producers| && producers[q] == Link(chain[l], chain[k]);
        assert producers'[q] == Link(chain[l], chain[k]);
      }
    }
  }

  /** Only the producer that owes a link stores to its predecessor. */
  lemma {:induction false} ProducersLinked(heap: map<Address, Node>, chain: seq<Address>, c: Consumer,
                                           producers: seq<Producer>, p: ProducerId, heap': map<Address, Node>)
    requires ProducersOk(heap, chain, c, producers) && p < |producers| && producers[p].Link?
    requires producers[p].previous in heap && producers[p].previous in chain
    requires heap' == heap[producers[p].previous := heap[producers[p].previous].(next := Some(producers[p].node))]
    ensures ProducersOk(heap', chain, c, producers[p := Idle])
  {
    var producers' := producers[p := Idle];
    forall q | 0 <= q < |producers'|
      ensures ProducerOk(heap', chain, c, producers'[q])
    {
      assert ProducerOk(heap, chain, c, producers[q]);
      assert q < p ==> NotBothLink(producers[q], producers[p]);
      assert p < q ==> NotBothLink(producers[p], producers[q]);
    }
    forall q, r | 0 <= q < r < |producers'|
      ensures NotBothLink(producers'[q], producers'[r])
    {
      assert NotBothLink(producers[q], producers[r]);
    }
  }

  /** The producer stores the link it owes. */
  lemma {:induction false} LinkStep(s: State, chain: seq<Address>, p: ProducerId)
    requires Inv(s, chain) && p < |s.producers| && s.producers[p].Link?
    ensures s.producers[p].previous in s.heap
    ensures var previous, a := s.producers[p].previous, s.producers[p].node;
      var heap' := s.heap[previous := s.heap[previous].(next := Some(a))];
      Inv(s.(heap := heap', producers := s.producers[p := Idle]), chain)
  {
    var previous, a := s.producers[p].previous, s.producers[p].node;
    assert ProducerOk(s.heap, chain, s.consumer, s.producers[p]);
    var heap' := s.heap[previous := s.heap[previous].(next := Some(a))];
    ChainLinked(s.heap, s.head, s.tail, s.producers, chain, p, heap');
    ProducersLinked(s.heap, chain, s.consumer, s.producers, p, heap');
    ConsumerLinked(s, chain, p, heap');
  }

  lemma {:induction false} ConsumerLinked(s: State, chain: seq<Address>, p: ProducerId, heap': map<Address, Node>)
    requires ConsumerOk(s, chain) && DataOk(s.heap, chain, s.log) && p < |s.producers| && s.producers[p].Link?
    requires s.producers[p].previous in s.heap && s.heap[s.producers[p].previous].next == None
    requires heap' == s.heap[s.producers[p].previous :=
                             s.heap[s.producers[p].previous].(next := Some(s.producers[p].node))]
    ensures ConsumerOk(s.(heap := heap', producers := s.producers[p := Idle]), chain) && DataOk(heap', chain, s.log)
  {
  }

  /** The consumer moves on without touching the heap or taking a node. */
  lemma {:induction false} ConsumerMoves(s: State, chain: seq<Address>, c: Consumer)
    requires Inv(s, chain) && Retired(c) == Retired(s.consumer)
    requires ConsumerOk(s.(consumer := c), chain)
    ensures Inv(s.(consumer := c), chain)
  {
    forall q | 0 <= q < |s.producers|
      ensures ProducerOk(s.heap, chain, c, s.producers[q])
    {
      assert ProducerOk(s.heap, chain, s.consumer, s.producers[q]);
    }
  }

  lemma {:induction false} LoadNextStep(s: State, chain: seq<Address>)
    requires Inv(s, chain) && s.consumer.LoadNext?
    ensures s.consumer.head in s.heap
    ensures var next := s.heap[s.consumer.head].next;
            Inv(s.(consumer := if next.None? then Waiting else CasHead(s.consumer.head, next.value)), chain)
  {
    var next := s.heap[chain[0]].next;
    if next.None? {
      ConsumerMoves(s, chain, Waiting);
    } else {
      assert |chain| > 1;
      assert Joined(s.heap, s.producers, chain[0], chain[1]);
      ConsumerMoves(s, chain, CasHead(chain[0], next.value));
    }
  }

  /** The head CAS succeeds: the old head leaves the chain and is the consumer's to delete. */
  lemma {:induction false} AdvanceHeadStep(s: State, chain: seq<Address>)
    requires Inv(s, chain) && s.consumer.CasHead?
    ensures s.consumer.head == s.head
    ensures Inv(s.(head := s.consumer.next, consumer := ReadData(s.consumer.head, s.consumer.next)), chain[1..])
  {
    var s' := s.(head := s.consumer.next, consumer := ReadData(s.consumer.head, s.consumer.next));
    var chain' := chain[1..];
    assert forall i :: 0 <= i < |chain'| ==> chain'[i] == chain[i + 1];
    forall i, j | 0 <= i < |chain'| && 0 <= j < |chain'| && j == i + 1
      ensures Joined(s'.heap, s'.producers, chain'[i], chain'[j])
    {
      assert Joined(s.heap, s.producers, chain[i + 1], chain[j + 1]);
    }
    forall q | 0 <= q < |s.producers|
      ensures ProducerOk(s'.heap, chain', s'.consumer, s'.producers[q])
    {
      assert ProducerOk(s.heap, chain, s.consumer, s.producers[q]);
      if s.producers[q].Link? {
        var i, j :| 0 <= i < |chain| && 0 <= j < |chain| && j == i + 1
                    && chain[i] == s.producers[q].previous && chain[j] == s.producers[q].node;
        assert i > 0;
        assert chain'[i - 1] == chain[i] && chain'[j - 1] == chain[j];
      }
    }
  }

  lemma {:induction false} SetAbleStep(s: State, chain: seq<Address>)
    requires Inv(s, chain) && s.consumer.SetAble?
    ensures s.consumer.next in s.heap
    ensures var SetAble(prior, n, x) := s.consumer;
            Inv(s.(heap := s.heap[n := s.heap[n].(ableToDelete := true)], consumer := Spin(prior, x)), chain)
  {
    var SetAble(prior, n, x) := s.consumer;
    var s' := s.(heap := s.heap[n := s.heap[n].(ableToDelete := true)], consumer := Spin(prior, x));
    JoinedStays(s.heap, s.producers, chain, s'.heap, s'.producers);
    forall q | 0 <= q < |s'.producers|
      ensures ProducerOk(s'.heap, chain, s'.consumer, s'.producers[q])
    {
      assert ProducerOk(s.heap, chain, s.consumer, s.producers[q]);
    }
  }

  lemma {:induction false} DeleteStep(s: State, chain: seq<Address>)
    requires Inv(s, chain) && s.consumer.Delete?
    ensures s.consumer.prior in s.heap
    ensures Inv(s.(heap := s.heap - {s.consumer.prior}, consumer := Waiting, out := s.out + [s.consumer.value]), chain)
  {
    var Delete(prior, x) := s.consumer;
    var s' := s.(heap := s.heap - {prior}, consumer := Waiting, out := s.out + [x]);
    JoinedStays(s.heap, s.producers, chain, s'.heap, s'.producers);
    forall q | 0 <= q < |s'.producers|
      ensures ProducerOk(s'.heap, chain, s'.consumer, s'.producers[q])
    {
      assert ProducerOk(s.heap, chain, s.consumer, s.producers[q]);
      if s.producers[q].Link? {
        var i, j :| 0 <= i < |chain| && 0 <= j < |chain| && j == i + 1
                    && chain[i] == s.producers[q].previous && chain[j] == s.producers[q].node;
      }
    }
  }

  lemma {:induction false} StepKeepsInv(s: State, chain: seq<Address>, e: Event) returns (chain': seq<Address>)
    requires Inv(s, chain) && Enabled(s, e)
    ensures Inv(Apply(s, e), chain')
  {
    chain' := chain;
    match e
    case BeginEnqueue(p, x, a) => BeginEnqueueStep(s, chain, p, x, a);
    case BeginDequeue => ConsumerMoves(s, chain, LoadHead);
    case Produce(p, spurious) => chain' := ProducerStepKeepsInv(s, chain, p, spurious);
    case Consume(spurious) => chain' := ConsumerStepKeepsInv(s, chain, spurious);
  }

  lemma {:induction false} ProducerStepKeepsInv(s: State, chain: seq<Address>, p: ProducerId,
        spurious: bool) returns (chain': seq<Address>)
    requires Inv(s, chain) && p < |s.producers| && !s.producers[p].Idle?
    ensures Inv(ProducerStep(s, p, spurious), chain')
  {
    chain' := chain;
    match s.producers[p]
    case LoadTail(a) => RetryStep(s, chain, p, CasTail(a, s.tail));
    case CasTail(a, expected) =>
      assert ProducerOk(s.heap, chain, s.consumer, s.producers[p]);
      if s.tail == expected && !spurious {
        chain' := AppendStep(s, chain, p, a);
      } else {
        RetryStep(s, chain, p, LoadTail(a));
      }
    case Link(_, _) => LinkStep(s, chain, p);
  }

  lemma {:induction false} ConsumerStepKeepsInv(s: State, chain: seq<Address>,
        spurious: bool) returns (chain': seq<Address>)
    requires Inv(s, chain) && !s.consumer.Waiting?
    ensures Inv(ConsumerStep(s, spurious), chain')
  {
    chain' := chain;
    match s.consumer
    case LoadHead => ConsumerMoves(s, chain, LoadNext(s.head));
    case LoadNext(_) => LoadNextStep(s, chain);
    case CasHead(_, _) =>
      if spurious {
        ConsumerMoves(s, chain, LoadHead);
      } else {
        AdvanceHeadStep(s, chain);
        chain' := chain[1..];
      }
    case ReadData(prior, n) => ConsumerMoves(s, chain, SetAble(prior, n, s.heap[n].data));
    case SetAble(_, _, _) => SetAbleStep(s, chain);
    case Spin(prior, x) => ConsumerMoves(s, chain, Delete(prior, x));
    case Delete(_, _) => DeleteStep(s, chain);
  }

  // ---------------------------------------------------------------------------------------------
  // What holds in every state of every run

  /** The constructor's state: one dummy node, already marked deletable. */
  predicate Init(s: State) {
    && s.head == s.tail && s.heap.Keys == {s.head}
    && s.heap[s.head].next == None && s.heap[s.head].ableToDelete
    && (forall p :: 0 <= p < |s.producers| ==> s.producers[p] == Idle)
    && s.consumer == Waiting && s.log == [] && s.out == [] && !s.fault && !s.spun
  }

  predicate IsRun(run: seq<State>, events: seq<Event>) {
    && |run| == |events| + 1
    && Init(run[0])
    && forall i :: 0 <= i < |events| ==> Happens(run, events, i)
  }

  /** Step number i of a run. */
  predicate Happens(run: seq<State>, events: seq<Event>, i: nat) {
    i < |events| && i + 1 < |run| && Enabled(run[i], events[i]) && run[i + 1] == Apply(run[i], events[i])
  }

  lemma {:induction false} RunInv(run: seq<State>, events: seq<Event>, i: nat) returns (chain: seq<Address>)
    requires IsRun(run, events) && i < |run|
    ensures Inv(run[i], chain)
  {
    if i == 0 {
      chain := [run[0].head];
      assert run[0].head in run[0].heap.Keys;
    } else {
      var chain0 := RunInv(run, events, i - 1);
      assert Happens(run, events, i - 1);
      chain := StepKeepsInv(run[i - 1], chain0, events[i - 1]);
    }
  }

  /** What producer p was last asked to enqueue, in the first k events. */
  function Argument(events: seq<Event>, p: ProducerId, k: nat): Option<Element>
    requires k <= |events|
  {
    if k == 0 then None
    else if events[k - 1].BeginEnqueue? && events[k - 1].producer == p then Some(events[k - 1].element)
    else Argument(events, p, k - 1)
  }

  /** The arguments of the enqueue calls of the first k events whose node became the tail, in that order. */
  function Published(run: seq<State>, events: seq<Event>, k: nat): seq<Element>
    requires k <= |events| && |run| == |events| + 1
  {
    if k == 0 then []
    else
      var before, e := Published(run, events, k - 1), events[k - 1];
      if e.Produce? && run[k].tail != run[k - 1].tail && Argument(events, e.producer, k - 1).Some? then
        before + [Argument(events, e.producer, k - 1).value]
      else before
  }

  /** A node that is not published yet carries what its producer was asked to enqueue. */
  predicate Carries(s: State, events: seq<Event>, k: nat)
    requires k <= |events|
  {
    forall p :: 0 <= p < |s.producers| && Private(s.producers[p]).Some? ==>
      Carried(s, Private(s.producers[p]).value, Argument(events, p, k))
  }

  predicate Carried(s: State, a: Address, x: Option<Element>) { a in s.heap && x == Some(s.heap[a].data) }

  /** One step changes no element in a node that a producer keeps to itself. */
  lemma {:induction false} PrivateStays(s: State, chain: seq<Address>, e: Event, p: ProducerId, a: Address)
    requires Inv(s, chain) && Enabled(s, e) && p < |s.producers| && Private(s.producers[p]) == Some(a)
    ensures a in s.heap && a in Apply(s, e).heap && Apply(s, e).heap[a].data == s.heap[a].data
  {
    assert ProducerOk(s.heap, chain, s.consumer, s.producers[p]);
  }

  lemma {:induction false} CarriesNext(s: State, chain: seq<Address>, events: seq<Event>, k: nat)
    requires k < |events| && Inv(s, chain) && Enabled(s, events[k]) && Carries(s, events, k)
    ensures Carries(Apply(s, events[k]), events, k + 1)
  {
    var s' := Apply(s, events[k]);
    forall p | 0 <= p < |s'.producers| && Private(s'.producers[p]).Some?
      ensures Carried(s', Private(s'.producers[p]).value, Argument(events, p, k + 1))
    {
      var a := Private(s'.producers[p]).value;
      if Private(s.producers[p]) == Some(a) {
        assert Carried(s, a, Argument(events, p, k));
        PrivateStays(s, chain, events[k], p, a);
      }
    }
  }

  /** The log grows when the tail changes, by the element in the new tail. */
  lemma {:induction false} LogGrows(s: State, chain: seq<Address>, e: Event)
    requires Inv(s, chain) && Enabled(s, e)
    ensures var s' := Apply(s, e);
      if s'.tail == s.tail then s'.log == s.log
      else && e.Produce? && Private(s.producers[e.producer]) == Some(s'.tail) && s'.tail in s.heap
           && s'.log == s.log + [s.heap[s'.tail].data]
  {
    if e.Produce? {
      assert ProducerOk(s.heap, chain, s.consumer, s.producers[e.producer]);
    }
  }

  /** The log is what the producers were asked to enqueue, in the order of their tail CASes. */
  lemma {:induction false} LogIsPublished(run: seq<State>, events: seq<Event>, k: nat)
    requires IsRun(run, events) && k < |run|
    ensures run[k].log == Published(run, events, k) && Carries(run[k], events, k)
  {
    if k > 0 {
      var s, e := run[k - 1], events[k - 1];
      LogIsPublished(run, events, k - 1);
      var chain := RunInv(run, events, k - 1);
      assert Happens(run, events, k - 1);
      CarriesNext(s, chain, events, k - 1);
      LogGrows(s, chain, e);
      if run[k].tail != s.tail {
        assert Carried(s, run[k].tail, Argument(events, e.producer, k - 1));
      }
    }
  }

  /** Producer p calls enqueue at event i and has not returned in state j. */
  predicate Enqueuing(run: seq<State>, events: seq<Event>, p: ProducerId, x: Element, i: nat, j: nat) {
    && i < |events| && i < j < |run|
    && events[i].BeginEnqueue? && events[i].producer == p && events[i].element == x
    && forall k :: i < k <= j ==> p < |run[k].producers| && !run[k].producers[p].Idle?
  }

  /** Event k publishes x for producer p. */
  predicate Publishes(run: seq<State>, events: seq<Event>, p: ProducerId, k: nat) {
    k < |events| && k + 1 < |run| && events[k].Produce? && events[k].producer == p && run[k + 1].log != run[k].log
  }

  predicate PublishedOnce(run: seq<State>, events: seq<Event>, p: ProducerId, x: Element, i: nat, j: nat) {
    exists k :: i < k < j && OnlyPublishes(run, events, p, x, i, j, k)
  }

  predicate OnlyPublishes(run: seq<State>, events: seq<Event>, p: ProducerId, x: Element, i: nat, j: nat, k: nat) {
    && Publishes(run, events, p, k) && run[k + 1].log == run[k].log + [x]
    && forall m :: i < m < j && Publishes(run, events, p, m) ==> m == k
  }

  predicate NotYetPublished(run: seq<State>, events: seq<Event>, p: ProducerId, i: nat, j: nat) {
    forall m :: i < m < j ==> !Publishes(run, events, p, m)
  }

  /** The steps of other threads leave a producer where it is; its own lead from one point of enqueue to the next. */
  lemma {:induction false} ProducerMoves(s: State, chain: seq<Address>, e: Event, p: ProducerId)
    requires Inv(s, chain) && Enabled(s, e) && p < |s.producers| && !s.producers[p].Idle?
    ensures p < |Apply(s, e).producers|
    ensures var s', own := Apply(s, e), e.Produce? && e.producer == p; var pc, pc' := s.producers[p], s'.producers[p];
      && (!own ==> pc' == pc)
      && (own && pc.Link? ==> pc'.Idle? && s'.log == s.log)
      && (own && !pc.Link? ==>
          if pc'.Link? then s'.tail != s.tail else Private(pc') == Private(pc) && s'.tail == s.tail)
  {
    assert ProducerOk(s.heap, chain, s.consumer, s.producers[p]);
  }

  lemma {:induction false} ArgumentStays(events: seq<Event>, p: ProducerId, i: nat, j: nat)
    requires i < j <= |events| && events[i].BeginEnqueue? && events[i].producer == p
    requires forall k :: i < k < j ==> !(events[k].BeginEnqueue? && events[k].producer == p)
    ensures Argument(events, p, j) == Some(events[i].element)
  {
    if j > i + 1 {
      ArgumentStays(events, p, i, j - 1);
    }
  }

  lemma {:induction false} EnqueueProgress(run: seq<State>, events: seq<Event>, p: ProducerId, x: Element, i: nat,
                                           j: nat)
    requires IsRun(run, events) && Enqueuing(run, events, p, x, i, j)
    ensures if run[j].producers[p].Link? then PublishedOnce(run, events, p, x, i, j)
            else NotYetPublished(run, events, p, i, j)
  {
    if j == i + 1 {
      assert Happens(run, events, i);
    } else {
      EnqueueProgress(run, events, p, x, i, j - 1);
      EnqueueStep(run, events, p, x, i, j - 1);
    }
  }

  lemma {:induction false} OnceStays(run: seq<State>, events: seq<Event>, p: ProducerId, x: Element, i: nat, j: nat)
    requires PublishedOnce(run, events, p, x, i, j) && !Publishes(run, events, p, j)
    ensures PublishedOnce(run, events, p, x, i, j + 1)
  {
    var k :| i < k < j && OnlyPublishes(run, events, p, x, i, j, k);
    assert OnlyPublishes(run, events, p, x, i, j + 1, k);
  }

  lemma {:induction false} FirstTime(run: seq<State>, events: seq<Event>, p: ProducerId, x: Element, i: nat, j: nat)
    requires i < j && NotYetPublished(run, events, p, i, j)
    requires Publishes(run, events, p, j) && run[j + 1].log == run[j].log + [x]
    ensures PublishedOnce(run, events, p, x, i, j + 1)
  {
    assert OnlyPublishes(run, events, p, x, i, j + 1, j);
  }

  /** The tail CAS of a call publishes the argument of that call. */
  lemma {:induction false} PublishesArgument(run: seq<State>, events: seq<Event>, p: ProducerId, x: Element, i: nat,
                                             j: nat)
    requires IsRun(run, events) && Enqueuing(run, events, p, x, i, j) && j < |events|
    requires events[j].Produce? && events[j].producer == p && run[j + 1].tail != run[j].tail
    ensures run[j + 1].log == run[j].log + [x]
  {
    var chain := RunInv(run, events, j);
    assert Happens(run, events, j);
    LogGrows(run[j], chain, events[j]);
    LogIsPublished(run, events, j);
    assert Carried(run[j], run[j + 1].tail, Argument(events, p, j));
    NoOtherCall(run, events, p, x, i, j);
    ArgumentStays(events, p, i, j);
  }

  lemma {:induction false} EnqueueStep(run: seq<State>, events: seq<Event>, p: ProducerId, x: Element, i: nat, j: nat)
    requires IsRun(run, events) && Enqueuing(run, events, p, x, i, j) && j < |events|
    requires if run[j].producers[p].Link? then PublishedOnce(run, events, p, x, i, j)
             else NotYetPublished(run, events, p, i, j)
    ensures p < |run[j + 1].producers|
    ensures var pc' := run[j + 1].producers[p];
      if pc'.Link? || pc'.Idle? then PublishedOnce(run, events, p, x, i, j + 1)
      else NotYetPublished(run, events, p, i, j + 1)
  {
    var s, e := run[j], events[j];
    var chain := RunInv(run, events, j);
    assert Happens(run, events, j);
    ProducerMoves(s, chain, e, p);
    LogGrows(s, chain, e);
    if s.producers[p].Link? {
      OnceStays(run, events, p, x, i, j);
    } else if run[j + 1].producers[p].Link? {
      PublishesArgument(run, events, p, x, i, j);
      FirstTime(run, events, p, x, i, j);
    }
  }

  lemma {:induction false} NoOtherCall(run: seq<State>, events: seq<Event>, p: ProducerId, x: Element, i: nat, j: nat)
    requires IsRun(run, events) && Enqueuing(run, events, p, x, i, j)
    ensures forall k :: i < k < j ==> !(events[k].BeginEnqueue? && events[k].producer == p)
  {
    forall k | i < k < j
      ensures !(events[k].BeginEnqueue? && events[k].producer == p)
    {
      assert Happens(run, events, k);
    }
  }

  /** A call of enqueue, interleaved with anything, publishes its argument exactly once before it returns. */
  lemma {:induction false} EnqueuePublishesOnce(run: seq<State>, events: seq<Event>, p: ProducerId, x: Element, i: nat,
                                                j: nat)
    requires IsRun(run, events) && Enqueuing(run, events, p, x, i, j) && j < |events|
    requires p < |run[j + 1].producers| && run[j + 1].producers[p].Idle?
    ensures PublishedOnce(run, events, p, x, i, j + 1)
  {
    EnqueueProgress(run, events, p, x, i, j);
    EnqueueStep(run, events, p, x, i, j);
  }

  /** The values dequeued are at every moment a prefix of the values enqueued, in the order of the tail CASes. */
  lemma {:induction false} DequeuesInOrder(run: seq<State>, events: seq<Event>, i: nat)
    requires IsRun(run, events) && i < |run|
    ensures run[i].out <= Published(run, events, i)
  {
    var chain := RunInv(run, events, i);
    LogIsPublished(run, events, i);
  }

  /** No step uses or deletes a deleted node, even when its address is in use again; the spin never waits. */
  lemma {:induction false} MemorySafe(run: seq<State>, events: seq<Event>, i: nat)
    requires IsRun(run, events) && i < |run|
    ensures !run[i].fault && !run[i].spun
  {
    var chain := RunInv(run, events, i);
  }

  /** The oldest element's node has been appended by a producer that has not stored the link to it yet. */
  ghost predicate FirstUnlinked(s: State) {
    exists p, a :: 0 <= p < |s.producers| && s.producers[p] == Link(a, s.head)
  }

  lemma {:induction false} NextMeansLinked(s: State, chain: seq<Address>)
    requires Inv(s, chain)
    ensures s.head in s.heap
    ensures s.heap[s.head].next.None? <==> |chain| == 1 || FirstUnlinked(s)
  {
    if |chain| > 1 {
      assert Joined(s.heap, s.producers, chain[0], chain[1]);
      forall p, a | 0 <= p < |s.producers| && s.producers[p] == Link(a, s.head)
        ensures s.heap[s.head].next == None
      {
        assert ProducerOk(s.heap, chain, s.consumer, s.producers[p]);
      }
    }
  }

  /** A step by which dequeue returns without an element. */
  predicate ReturnsFalse(s: State, s': State) { s'.consumer.Waiting? && s'.out == s.out }

  /**
   dequeue returns false exactly when it has loaded the head and, at that moment, nothing enqueued is left to dequeue,
   or the oldest such element's node has been appended by a producer that has not stored the link to it yet.
   */
  lemma {:induction false} FalseMeansEmptyOrUnlinked(run: seq<State>, events: seq<Event>, i: nat, spurious: bool)
    requires IsRun(run, events) && i < |run| && !run[i].consumer.Waiting?
    ensures ReturnsFalse(run[i], ConsumerStep(run[i], spurious)) <==>
              run[i].consumer.LoadNext? && (run[i].out == run[i].log || FirstUnlinked(run[i]))
  {
    var s := run[i];
    var chain := RunInv(run, events, i);
    NextMeansLinked(s, chain);
    assert s.consumer.LoadNext? ==> (|chain| == 1 <==> s.out == s.log);
    if s.consumer.Delete? {
      DeleteStep(s, chain);
      assert |s.out + [s.consumer.value]| > |s.out|;
    }
  }

  /** dequeue returns true with the oldest element that has not been dequeued yet. */
  lemma {:induction false} TrueMeansOldest(run: seq<State>, events: seq<Event>, i: nat, spurious: bool)
    requires IsRun(run, events) && i < |run| && !run[i].consumer.Waiting?
    requires ConsumerStep(run[i], spurious).consumer.Waiting? && !ReturnsFalse(run[i], ConsumerStep(run[i], spurious))
    ensures |run[i].out| < |run[i].log|
    ensures ConsumerStep(run[i], spurious).out == run[i].out + [run[i].log[|run[i].out|]]
  {
    var chain := RunInv(run, events, i);
    assert run[i].consumer.Delete?;
    DeleteStep(run[i], chain);
  }

  /** At most k steps of the consumer alone, without spurious failures. */
  function Alone(s: State, k: nat): State
    decreases k
  {
    if k == 0 || s.consumer.Waiting? then s else Alone(ConsumerStep(s, false), k - 1)
  }

  lemma {:induction false} AloneOnce(s: State, k: nat)
    requires k > 0 && !s.consumer.Waiting?
    ensures Alone(s, k) == Alone(ConsumerStep(s, false), k - 1)
  {
  }

  /** Once the producers have returned, dequeue delivers: a waiting element comes out, and false means there is none. */
  lemma {:induction false} AloneDequeues(run: seq<State>, events: seq<Event>, i: nat)
    requires IsRun(run, events) && i < |run| && run[i].consumer.Waiting?
    requires forall p :: 0 <= p < |run[i].producers| ==> run[i].producers[p].Idle?
    ensures var s := run[i]; var s' := Alone(s.(consumer := LoadHead), 7);
      s'.consumer.Waiting? && s'.log == s.log && s'.out == s.log[..Min(|s.out| + 1, |s.log|)]
  {
    var s := run[i];
    var chain := RunInv(run, events, i);
    NextMeansLinked(s, chain);
    var s0 := s.(consumer := LoadHead);
    ConsumerMoves(s, chain, LoadHead);
    var s1, chain1 := AloneInv(s0, chain, 7);
    var s2, chain2 := AloneInv(s1, chain1, 6);
    if s.out != s.log {
      AloneTakes(s2, chain2);
    }
  }

  /** From the loaded next pointer on. */
  lemma {:induction false} AloneTakes(s: State, chain: seq<Address>)
    requires Inv(s, chain) && s.consumer.CasHead?
    ensures |s.out| < |s.log|
    ensures var s' := Alone(s, 5); s'.consumer.Waiting? && s'.log == s.log && s'.out == s.log[..|s.out| + 1]
  {
    var s3, chain3 := AloneInv(s, chain, 5);
    var s4, chain4 := AloneInv(s3, chain3, 4);
    var s5, chain5 := AloneInv(s4, chain4, 3);
    var s6, chain6 := AloneInv(s5, chain5, 2);
    var s7, chain7 := AloneInv(s6, chain6, 1);
  }

  lemma {:induction false} AloneInv(s: State, chain: seq<Address>, k: nat) returns (s': State, chain': seq<Address>)
    requires Inv(s, chain) && k > 0 && !s.consumer.Waiting?
    ensures s' == ConsumerStep(s, false) && Inv(s', chain') && Alone(s, k) == Alone(s', k - 1)
  {
    s' := ConsumerStep(s, false);
    chain' := ConsumerStepKeepsInv(s, chain, false);
  }

  /** Left alone, enqueue appends and links its node in three steps. */
  lemma {:induction false} AloneEnqueues(run: seq<State>, events: seq<Event>, i: nat, p: ProducerId, x: Element,
                                         a: Address)
    requires IsRun(run, events) && i < |run| && Enabled(run[i], BeginEnqueue(p, x, a))
    ensures var s := run[i]; var s1 := Apply(s, BeginEnqueue(p, x, a));
      && s1.producers[p].LoadTail? && var s2 := ProducerStep(s1, p, false);
      && s2.producers[p].CasTail? && var s3 := ProducerStep(s2, p, false);
      && s3.producers[p].Link? && var s4 := ProducerStep(s3, p, false);
      && s4.producers[p].Idle? && s4.log == s.log + [x] && s4.tail == a
      && s.tail in s4.heap && s4.heap[s.tail].next == Some(a)
  {
    var chain := RunInv(run, events, i);
    assert chain[|chain| - 1] in run[i].heap;
  }
}
