/**
 The connection manager of the server (src/Rpc/connection_pool.cc, class ConnectionManager).

 Connections are numbered in the order of their allocation.  Besides the counters the state names which connections
 are waiting for an accept and which are handed out; the code keeps only their numbers.
 */
module ConnectionPool {
  import opened Common

  datatype Pool = Pool(
    limit: int, made: int, accepting: int, outer: int, total: int,
    idle: seq<int>, pending: set<int>, live: set<int>)

  // ---------------------------------------------------------------------------------------------
  // The operations on states

  /** The numbers lo, lo + 1, ..., lo + n - 1. */
  function Numbers(lo: int, n: nat): (r: seq<int>)
    ensures |r| == n && forall i :: 0 <= i < n ==> r[i] == lo + i
  {
    seq(n, i => lo + i)
  }

  function Elements(s: seq<int>): set<int> { set x | x in s }

  function NonNegative(n: int): nat { if n < 0 then 0 else n }

  /** Room under the limit. */
  function Headroom(s: Pool): int { s.limit - s.outer - s.accepting }

  function Expanded(s: Pool, size: int): Pool {
    var n := NonNegative(Min(size, Headroom(s)));
    s.(made := s.made + n, idle := s.idle + Numbers(s.made, n))
  }

  /** The first n idle connections start to wait for an accept. */
  function Started(s: Pool, n: nat): Pool
    requires n <= |s.idle|
  {
    s.(accepting := s.accepting + n, idle := s.idle[n..], pending := s.pending + Elements(s.idle[..n]))
  }

  /** A comparison of a size with a signed number turns the number into an unsigned one. */
  predicate FewerThan(size: nat, n: int) { size < if n < 0 then n + 0x1_0000_0000_0000_0000 else n }

  function ToAdd(s: Pool, size: int): int { Min(size - s.accepting, Headroom(s)) }

  /** acceptForCount after its possible expansion. */
  function Prepared(s: Pool, size: int): Pool {
    if FewerThan(|s.idle|, ToAdd(s, size)) then Expanded(s, 2 * ToAdd(s, size)) else s
  }

  function AcceptedForCount(s: Pool, size: int): Pool {
    var p := Prepared(s, size);
    Started(p, NonNegative(Min(ToAdd(s, size), |p.idle|)))
  }

  function AcceptCompleted(s: Pool, tc: int): Pool {
    s.(accepting := s.accepting - 1, outer := s.outer + 1, pending := s.pending - {tc}, live := s.live + {tc})
  }

  function SentBack(s: Pool, tc: int): Pool {
    s.(idle := s.idle + [tc], outer := s.outer - 1, total := s.total + 1, live := s.live - {tc})
  }

  function Created(initial: int, limit: int): Pool { Expanded(Pool(limit, 0, 0, 0, 0, [], {}, {}), initial) }

  // ---------------------------------------------------------------------------------------------
  // Runs

  /** What happens to the manager; a failed accept changes nothing, its connection goes on counting as accepting. */
  datatype Event = AcceptForCount(size: int) | AcceptDone(tc: int) | AcceptFailed(tc: int) | Closed(tc: int)

  /** Each pending accept completes once, each accepted connection is closed once. */
  predicate Possible(s: Pool, e: Event) {
    match e
    case AcceptForCount(_) => true
    case AcceptDone(tc) => tc in s.pending
    case AcceptFailed(tc) => tc in s.pending
    case Closed(tc) => tc in s.live
  }

  function Step(s: Pool, e: Event): Pool {
    match e
    case AcceptForCount(size) => AcceptedForCount(s, size)
    case AcceptDone(tc) => AcceptCompleted(s, tc)
    case AcceptFailed(_) => s
    case Closed(tc) => SentBack(s, tc)
  }

  predicate PossibleRun(s: Pool, es: seq<Event>)
    decreases |es|
  {
    es == [] || (Possible(s, es[0]) && PossibleRun(Step(s, es[0]), es[1..]))
  }

  function Run(s: Pool, es: seq<Event>): Pool
    decreases |es|
  {
    if es == [] then s else Run(Step(s, es[0]), es[1..])
  }

  /** Every connection is in exactly one place. */
  predicate Partition(s: Pool) {
    && (forall i, j :: 0 <= i < j < |s.idle| ==> s.idle[i] != s.idle[j])
    && (forall x :: x in s.idle ==> 0 <= x < s.made && x !in s.pending && x !in s.live)
    && (forall x :: x in s.pending ==> 0 <= x < s.made && x !in s.live)
    && (forall x :: x in s.live ==> 0 <= x < s.made)
  }

  predicate Counted(s: Pool) {
    && s.accepting == |s.pending| && s.outer == |s.live|
    && s.made == |s.idle| + s.accepting + s.outer
  }

  predicate Bounded(s: Pool) { s.accepting + s.outer <= s.limit && s.made <= 2 * s.limit - 1 }

  predicate Inv(s: Pool) { s.limit >= 1 && Partition(s) && Counted(s) && Bounded(s) }

  lemma {:induction false} ExpandedOk(s: Pool, size: int)
    requires Partition(s) && Counted(s)
    ensures Partition(Expanded(s, size)) && Counted(Expanded(s, size))
  {
    var n := NonNegative(Min(size, Headroom(s)));
    var added := Numbers(s.made, n);
    assert forall i :: 0 <= i < |s.idle| ==> s.idle[i] in s.idle;
    assert forall x :: x in added ==> s.made <= x < s.made + n;
  }

  lemma {:induction false} PrefixSize(s: seq<int>, n: nat)
    requires n <= |s| && forall i, j :: 0 <= i < j < |s| ==> s[i] != s[j]
    ensures |Elements(s[..n])| == n
  {
    if n > 0 {
      PrefixSize(s, n - 1);
      assert s[..n] == s[..n - 1] + [s[n - 1]];
      assert Elements(s[..n]) == Elements(s[..n - 1]) + {s[n - 1]};
    } else {
      assert Elements(s[..n]) == {};
    }
  }

  lemma {:induction false} RestApart(s: seq<int>, n: nat)
    requires n <= |s| && forall i, j :: 0 <= i < j < |s| ==> s[i] != s[j]
    ensures forall i, j :: 0 <= i < j < |s[n..]| ==> s[n..][i] != s[n..][j]
    ensures forall x :: x in s[n..] ==> x in s && x !in Elements(s[..n])
  {
    var rest := s[n..];
    forall x | x in rest
      ensures x in s && x !in Elements(s[..n])
    {
      var i :| 0 <= i < |rest| && rest[i] == x;
      assert s[n + i] == x;
    }
  }

  lemma {:induction false} StartedPartition(s: Pool, n: nat)
    requires Partition(s) && n <= |s.idle|
    ensures Partition(Started(s, n))
  {
    RestApart(s.idle, n);
    assert forall x :: x in Elements(s.idle[..n]) ==> x in s.idle;
  }

  lemma {:induction false} StartedCounted(s: Pool, n: nat)
    requires Partition(s) && Counted(s) && n <= |s.idle|
    ensures Counted(Started(s, n))
  {
    var moved := Elements(s.idle[..n]);
    PrefixSize(s.idle, n);
    assert forall x :: x in moved ==> x in s.idle;
    assert moved !! s.pending;
    assert |s.pending + moved| == |s.pending| + n;
  }

  /** There are enough idle connections then, and not too many were allocated. */
  lemma {:induction false} EnoughPrepared(s: Pool, size: int)
    requires Counted(s) && Bounded(s) && s.limit >= 1
    ensures var p := Prepared(s, size);
      && ToAdd(s, size) <= |p.idle| && p.made <= 2 * s.limit - 1
      && p.accepting == s.accepting && p.outer == s.outer && p.limit == s.limit
  {
  }

  /** acceptForCount allocates only when too few are idle, and then twice what it starts, up to the headroom. */
  predicate GrownBy(s: Pool, s': Pool, size: int) {
    var headroom := s.limit - s.outer - s.accepting;
    var add := Min(size - s.accepting, headroom);
    s'.made == s.made + if |s.idle| >= add then 0 else Max(0, Min(2 * add, headroom))
  }

  lemma {:induction false} Growth(s: Pool, size: int)
    ensures GrownBy(s, AcceptedForCount(s, size), size)
  {
  }

  lemma {:induction false} PreparedIdle(s: Pool, size: int)
    ensures var p := Prepared(s, size);
      && s.made <= p.made && p.idle == s.idle + Numbers(s.made, p.made - s.made)
      && p.accepting == s.accepting && p.pending == s.pending
  {
    assert s.idle + Numbers(s.made, 0) == s.idle;
  }

  /** The connections that have been idle longest start first, in front of the ones just allocated. */
  lemma {:induction false} LongestIdleFirst(s: Pool, size: int)
    ensures var s' := AcceptedForCount(s, size);
      && s.made <= s'.made && 0 <= s'.accepting - s.accepting <= |s.idle| + (s'.made - s.made)
      && var n, all := s'.accepting - s.accepting, s.idle + Numbers(s.made, s'.made - s.made);
         s'.idle == all[n..] && s'.pending == s.pending + Elements(all[..n])
  {
    PreparedIdle(s, size);
  }

  /** acceptForCount raises the number of waiting connections to what was asked for, as far as the limit allows. */
  lemma {:induction false} AcceptedForCountOk(s: Pool, size: int)
    requires Inv(s)
    ensures Inv(AcceptedForCount(s, size))
    ensures var s' := AcceptedForCount(s, size);
      && s'.accepting == Max(s.accepting, Min(size, s.limit - s.outer)) && s'.outer == s.outer && s'.live == s.live
      && s'.limit == s.limit && s.pending <= s'.pending && s'.made <= 2 * s.limit - 1
  {
    var p := Prepared(s, size);
    EnoughPrepared(s, size);
    ExpandedOk(s, 2 * ToAdd(s, size));
    assert Partition(p) && Counted(p);
    var n := NonNegative(Min(ToAdd(s, size), |p.idle|));
    StartedPartition(p, n);
    StartedCounted(p, n);
  }

  lemma {:induction false} AcceptedAll(s: Pool, size: int, p: Pool, s': Pool)
    requires Inv(s) && p == Prepared(s, size) && s' == Started(p, NonNegative(Min(ToAdd(s, size), |p.idle|)))
    ensures s' == AcceptedForCount(s, size) && Inv(s')
    ensures s'.accepting == Max(s.accepting, Min(size, s.limit - s.outer)) && s'.outer == s.outer && s'.live == s.live
    ensures s'.limit == s.limit && s'.total == s.total && s.pending <= s'.pending && s'.made <= 2 * s.limit - 1
    ensures GrownBy(s, s', size)
  {
    AcceptedForCountOk(s, size);
    Growth(s, size);
  }

  /** A connection moves from the pending to the live ones. */
  lemma {:induction false} AcceptCompletedOk(s: Pool, tc: int)
    requires Inv(s) && tc in s.pending
    ensures Inv(AcceptCompleted(s, tc))
  {
    assert |s.pending - {tc}| == |s.pending| - 1 && |s.live + {tc}| == |s.live| + 1;
  }

  /** A connection moves from the live to the idle ones. */
  lemma {:induction false} SentBackOk(s: Pool, tc: int)
    requires Inv(s) && tc in s.live
    ensures Inv(SentBack(s, tc))
  {
    assert |s.live - {tc}| == |s.live| - 1;
    assert tc !in s.idle;
  }

  lemma {:induction false} StepKeepsInv(s: Pool, e: Event)
    requires Inv(s) && Possible(s, e)
    ensures Inv(Step(s, e)) && Step(s, e).limit == s.limit
  {
    match e
    case AcceptForCount(size) => AcceptedForCountOk(s, size);
    case AcceptDone(tc) => AcceptCompletedOk(s, tc);
    case AcceptFailed(_) =>
    case Closed(tc) => SentBackOk(s, tc);
  }

  /** Over any run: every connection is in one place, the counters agree, and the bounds hold. */
  lemma {:induction false} RunKeepsInv(s: Pool, es: seq<Event>)
    requires Inv(s) && PossibleRun(s, es)
    ensures Inv(Run(s, es)) && Run(s, es).limit == s.limit
    decreases |es|
  {
    if es != [] {
      StepKeepsInv(s, es[0]);
      RunKeepsInv(Step(s, es[0]), es[1..]);
    }
  }

  lemma {:induction false} CreatedOk(initial: int, limit: int)
    requires limit >= 1
    ensures Inv(Created(initial, limit)) && Created(initial, limit).limit == limit
  {
    ExpandedOk(Pool(limit, 0, 0, 0, 0, [], {}, {}), initial);
  }

  /** The bound on allocations is reached, whatever the limit. */
  lemma {:induction false} BoundIsTight(limit: int)
    requires limit >= 1
    ensures Run(Created(limit - 1, limit), [AcceptForCount(limit)]).made == 2 * limit - 1
  {
    var s, es := Created(limit - 1, limit), [AcceptForCount(limit)];
    assert Run(s, es) == Run(AcceptedForCount(s, limit), []);
  }

  lemma {:induction false} StartedNone(s: Pool)
    ensures Started(s, 0) == s
  {
    assert Elements(s.idle[..0]) == {};
  }

  lemma {:induction false} StartedOneMore(s: Pool, i: nat)
    requires i < |s.idle|
    ensures var t := Started(s, i);
      && |t.idle| > 0
      && Started(s, i + 1) == t.(accepting := t.accepting + 1, pending := t.pending + {t.idle[0]}, idle := t.idle[1..])
  {
    assert s.idle[..i + 1] == s.idle[..i] + [s.idle[i]];
    assert Elements(s.idle[..i + 1]) == Elements(s.idle[..i]) + {s.idle[i]};
  }

  // ---------------------------------------------------------------------------------------------
  // The manager object

  class ConnectionManager {
    const limit: int
    var made: int
    var accepting: int
    var outer: int
    var total: int
    var idle: seq<int>
    ghost var pending: set<int>
    ghost var live: set<int>

    ghost function State(): Pool
      reads this
    {
      Pool(limit, made, accepting, outer, total, idle, pending, live)
    }

    /** Every connection is in one place, the counters agree, and the bounds hold. */
    ghost predicate Valid()
      reads this
    {
      Inv(State())
    }

    constructor (initial: int, limit: int)
      ensures State() == Created(initial, limit)
      ensures limit >= 1 ==> Valid()
      ensures made == |idle| == Max(0, Min(initial, limit)) && accepting == outer == total == 0
      ensures pending == live == {}
    {
      this.limit := limit;
      made, accepting, outer, total, idle, pending, live := 0, 0, 0, 0, [], {}, {};
      new;
      if limit >= 1 {
        CreatedOk(initial, limit);
      }
      ExpandConnections(initial);
    }

    /** As many as asked for and allowed are added; with too few idle ones for the headroom the bounds are kept. */
    method ExpandConnections(size: int)
      modifies this
      ensures State() == Expanded(old(State()), size)
      ensures made == old(made) + Max(0, Min(size, limit - outer - accepting))
      ensures old(idle) <= idle && |idle| - |old(idle)| == made - old(made)
      ensures accepting == old(accepting) && outer == old(outer) && total == old(total)
      ensures pending == old(pending) && live == old(live)
      ensures old(Valid()) && old(|idle|) < Headroom(old(State())) ==> Valid()
    {
      var n := Min(size, limit - outer - accepting);
      ghost var s := State();
      var i := 0;
      while i < n
        invariant 0 <= i <= NonNegative(n)
        invariant State() == s.(made := s.made + i, idle := s.idle + Numbers(s.made, i))
      {
        made := made + 1;
        idle := idle + [made - 1];
        i := i + 1;
      }
      if Inv(s) && |s.idle| < Headroom(s) {
        ExpandedOk(s, size);
      }
    }

    /** Keeps `size` connections waiting for an accept, if the limit allows. */
    method AcceptForCount(size: int)
      requires Valid()
      modifies this
      ensures Valid() && State() == Step(old(State()), Event.AcceptForCount(size))
      ensures accepting == Max(old(accepting), Min(size, limit - outer)) && outer == old(outer) && live == old(live)
      ensures old(pending) <= pending && made <= 2 * limit - 1
      ensures GrownBy(old(State()), State(), size) && total == old(total)
    {
      ghost var s := State();
      var add := Prepare(size);
      ghost var p := State();
      StartWaiting(add, p);
      AcceptedAll(s, size, p, State());
    }

    /** acceptForCount up to its loop: how many are to start, and enough idle ones for them. */
    method Prepare(size: int) returns (add: int)
      modifies this
      ensures State() == Prepared(old(State()), size) && add == ToAdd(old(State()), size)
    {
      add := Min(size - accepting, limit - outer - accepting);
      if FewerThan(|idle|, add) {
        ExpandConnections(2 * add);
      }
    }

    /** The loop of acceptForCount. */
    method StartWaiting(add: int, ghost s: Pool)
      requires s == State()
      modifies this
      ensures State() == Started(s, NonNegative(Min(add, |s.idle|)))
    {
      StartedNone(s);
      var i := 0;
      while i < add
        invariant 0 <= i <= NonNegative(Min(add, |s.idle|)) && State() == Started(s, i)
        decreases add - i
      {
        if |idle| == 0 {
          break;
        }
        StartedOneMore(s, i);
        accepting := accepting + 1;
        pending := pending + {idle[0]};
        idle := idle[1..];
        i := i + 1;
      }
    }

    /** A pending connection is handed out; the sum of pending and handed-out connections stays. */
    method AcceptDone(ghost tc: int)
      requires Valid() && tc in pending
      modifies this
      ensures Valid() && State() == Step(old(State()), Event.AcceptDone(tc))
      ensures pending == old(pending) - {tc} && live == old(live) + {tc} && idle == old(idle)
      ensures accepting + outer == old(accepting + outer) && made == old(made) && total == old(total)
    {
      AcceptCompletedOk(State(), tc);
      accepting := accepting - 1;
      outer := outer + 1;
      pending, live := pending - {tc}, live + {tc};
    }

    /** A closed connection becomes idle again, behind the others; none is allocated or lost. */
    method SendBack(tc: int)
      requires Valid() && tc in live
      modifies this
      ensures Valid() && State() == Step(old(State()), Closed(tc))
      ensures live == old(live) - {tc} && pending == old(pending) && idle == old(idle) + [tc]
      ensures total == old(total) + 1 && outer == old(outer) - 1
      ensures |idle| + accepting + outer == made == old(made) && accepting == old(accepting)
    {
      SentBackOk(State(), tc);
      idle := idle + [tc];
      outer := outer - 1;
      total := total + 1;
      live := live - {tc};
    }
  }
}
