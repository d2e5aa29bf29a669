/**
 The ring buffer of a connection (src/Rpc/buffer.cc, include/Rpc/buffer.h).

 One slot stays free, so 1023 bytes fit.  Contents() are the unread bytes in order, across the wrap-around.
 */
module RingBuffer {
  import opened Common

  const MAX: nat := 1024

  /** The bytes in the slots from `from` up to but not including `to`, going round. */
  function Between(slots: seq<Byte>, from: nat, to: nat): (s: seq<Byte>)
    requires |slots| == MAX && from < MAX && to < MAX
    ensures |s| == if to >= from then to - from else MAX - from + to
  {
    if to >= from then slots[from..to] else slots[from..] + slots[..to]
  }

  /** Slot number i counted from `from`. */
  function Slot(from: nat, i: nat): (k: nat)
    requires from < MAX && i < MAX
    ensures k < MAX
  {
    if from + i < MAX then from + i else from + i - MAX
  }

  lemma {:induction false} Modulo(from: nat, n: nat)
    requires from < MAX && n <= MAX
    ensures (from + n) % MAX == if n == MAX then from else Slot(from, n)
  {
  }

  lemma {:induction false} BetweenAt(slots: seq<Byte>, from: nat, to: nat, i: nat)
    requires |slots| == MAX && from < MAX && to < MAX && i < |Between(slots, from, to)|
    ensures Between(slots, from, to)[i] == slots[Slot(from, i)]
  {
  }

  /** Moving the end forward by n slots takes in the next n slots. */
  lemma {:induction false} BetweenGrows(slots: seq<Byte>, from: nat, to: nat, n: nat)
    requires |slots| == MAX && from < MAX && to < MAX && |Between(slots, from, to)| + n < MAX
    ensures Between(slots, from, Slot(to, n)) == Between(slots, from, to) + Between(slots, to, Slot(to, n))
    ensures |Between(slots, to, Slot(to, n))| == n
  {
    var all, b, e := Between(slots, from, Slot(to, n)), Between(slots, from, to), Between(slots, to, Slot(to, n));
    forall i | 0 <= i < |all|
      ensures all[i] == (b + e)[i]
    {
      BetweenAt(slots, from, Slot(to, n), i);
      if i < |b| {
        BetweenAt(slots, from, to, i);
      } else {
        assert Slot(from, i) == Slot(to, i - |b|);
        BetweenAt(slots, to, Slot(to, n), i - |b|);
      }
    }
  }

  /** Moving the start forward by n slots drops the first n bytes. */
  lemma {:induction false} BetweenShrinks(slots: seq<Byte>, from: nat, to: nat, n: nat)
    requires |slots| == MAX && from < MAX && to < MAX && n <= |Between(slots, from, to)|
    ensures Between(slots, Slot(from, n), to) == Between(slots, from, to)[n..]
  {
    var all, rest := Between(slots, from, to), Between(slots, Slot(from, n), to);
    forall i | 0 <= i < |rest|
      ensures rest[i] == all[n..][i]
    {
      assert Slot(Slot(from, n), i) == Slot(from, n + i);
      BetweenAt(slots, Slot(from, n), to, i);
      BetweenAt(slots, from, to, n + i);
    }
  }

  /** The first n bytes, by the end that is n slots on. */
  lemma {:induction false} BetweenPrefix(slots: seq<Byte>, from: nat, to: nat, n: nat)
    requires |slots| == MAX && from < MAX && to < MAX && n <= |Between(slots, from, to)|
    ensures Between(slots, from, Slot(from, n)) == Between(slots, from, to)[..n]
  {
    var all, front := Between(slots, from, to), Between(slots, from, Slot(from, n));
    forall i | 0 <= i < n
      ensures front[i] == all[..n][i]
    {
      BetweenAt(slots, from, to, i);
      BetweenAt(slots, from, Slot(from, n), i);
    }
  }

  lemma {:induction false} BetweenSame(slots: seq<Byte>, slots': seq<Byte>, from: nat, to: nat, k: nat)
    requires |slots| == MAX && |slots'| == MAX && from < MAX && to < MAX && k < MAX
    requires forall i :: 0 <= i < MAX && i != k ==> slots'[i] == slots[i]
    requires forall i :: 0 <= i < |Between(slots, from, to)| ==> Slot(from, i) != k
    ensures Between(slots', from, to) == Between(slots, from, to)
  {
    forall i | 0 <= i < |Between(slots, from, to)|
      ensures Between(slots', from, to)[i] == Between(slots, from, to)[i]
    {
      BetweenAt(slots, from, to, i);
      BetweenAt(slots', from, to, i);
    }
  }

  /** The slot up to which may be written. */
  function Bound(from: nat): (k: nat)
    requires from < MAX
    ensures k < MAX
  {
    if from == 0 then MAX - 1 else from - 1
  }

  /** Moving the end forward over free slots takes them in, and one slot more makes the ring look empty. */
  lemma {:induction false} Written(slots: seq<Byte>, from: nat, to: nat, n: nat)
    requires |slots| == MAX && from < MAX && to < MAX && n <= |Between(slots, to, Bound(from))| + 1
    ensures var free := Between(slots, to, Bound(from));
      Between(slots, from, (to + n) % MAX) == if n <= |free| then Between(slots, from, to) + free[..n] else []
  {
    Modulo(to, n);
    if n <= |Between(slots, to, Bound(from))| {
      BetweenGrows(slots, from, to, n);
      BetweenPrefix(slots, to, Bound(from), n);
    }
  }

  /** A free slot holds no unread byte, and different offsets are different slots. */
  lemma {:induction false} FreeSlot(readIndex: nat, writeIndex: nat, i: nat)
    requires readIndex < MAX && writeIndex < MAX
    requires i < MAX - 1 - if writeIndex >= readIndex then writeIndex - readIndex else MAX - readIndex + writeIndex
    ensures forall j :: 0 <= j < i ==> Slot(writeIndex, j) != Slot(writeIndex, i)
    ensures var unread := if writeIndex >= readIndex then writeIndex - readIndex else MAX - readIndex + writeIndex;
      forall j :: 0 <= j < unread ==> Slot(readIndex, j) != Slot(writeIndex, i)
  {
  }

  lemma {:induction false} Filled(slots: seq<Byte>, from: nat, to: nat, chunk: seq<Byte>)
    requires |slots| == MAX && from < MAX && to < MAX && |chunk| <= |Between(slots, from, to)|
    requires forall j :: 0 <= j < |chunk| ==> slots[Slot(from, j)] == chunk[j]
    ensures Between(slots, from, to)[..|chunk|] == chunk
  {
    forall j | 0 <= j < |chunk|
      ensures Between(slots, from, to)[..|chunk|][j] == chunk[j]
    {
      BetweenAt(slots, from, to, j);
    }
  }

  /** read's two cases are one stretch of the ring. */
  lemma {:induction false} StretchRead(slots: seq<Byte>, from: nat, to: nat, n: nat)
    requires |slots| == MAX && from < MAX && to < MAX && n <= |Between(slots, from, to)|
    ensures from + n <= to || from + n < MAX ==> slots[from..from + n] == Between(slots, from, to)[..n]
    ensures from + n > to && from + n >= MAX ==>
      slots[from..] + slots[..n + from - MAX] == Between(slots, from, to)[..n]
  {
    BetweenPrefix(slots, from, to, n);
    if from + n == MAX {
      assert slots[..0] == [];
    }
  }

  /** What is left when a buffer whose reader stands at slot 0 is written round and round: the last incomplete lap. */
  function LastLap(s: seq<Byte>): (r: seq<Byte>)
    ensures |r| < MAX
  {
    if |s| < MAX then s else LastLap(s[MAX..])
  }

  /** What append leaves behind in front of a reader at slot `readIndex`. */
  function Appended(contents: seq<Byte>, readIndex: nat, s: seq<Byte>): seq<Byte>
    requires |contents| < MAX
  {
    var all := contents + s;
    if |all| < MAX then all else if readIndex == 0 then LastLap(all) else all[..MAX - 1]
  }

  /** The unread bytes after the first i rounds of append's loop. */
  predicate Round(contents: seq<Byte>, readIndex: nat, str: seq<Byte>, i: nat, now: seq<Byte>) {
    && i <= |str| && |contents| < MAX && |now| < MAX
    && now == Appended(contents, readIndex, str[..i])
    && (readIndex == 0 || |now| == |contents| + i)
  }

  lemma {:induction false} FirstRound(contents: seq<Byte>, readIndex: nat, str: seq<Byte>)
    requires |contents| < MAX
    ensures Round(contents, readIndex, str, 0, contents)
  {
    assert contents + str[..0] == contents;
  }

  lemma {:induction false} NextRound(contents: seq<Byte>, readIndex: nat, str: seq<Byte>, i: nat, now: seq<Byte>)
    requires i < |str| && Round(contents, readIndex, str, i, now) && (readIndex == 0 || |now| < MAX - 1)
    ensures Round(contents, readIndex, str, i + 1, if |now| == MAX - 1 then [] else now + [str[i]])
  {
    var x, all, all' := str[i], contents + str[..i], contents + str[..i + 1];
    assert all' == all + [x];
    if readIndex == 0 {
      LapStep(all, x);
    }
  }

  /** The loop ends with all bytes written, or with a full buffer. */
  lemma {:induction false} LastRound(
    contents: seq<Byte>, readIndex: nat, str: seq<Byte>, i: nat, size: nat, now: seq<Byte>)
    requires i <= size <= |str| && Round(contents, readIndex, str, i, now)
    requires i < size ==> readIndex != 0 && |now| == MAX - 1
    ensures now == Appended(contents, readIndex, str[..size])
    ensures i < size <==> readIndex != 0 && |contents| + size >= MAX
  {
    if i < size {
      assert (contents + str[..size])[..MAX - 1] == contents + str[..i];
    }
  }

  lemma {:induction false} LapStep(all: seq<Byte>, x: Byte)
    ensures LastLap(all + [x]) == if |LastLap(all)| == MAX - 1 then [] else LastLap(all) + [x]
  {
    if |all| >= MAX {
      assert (all + [x])[MAX..] == all[MAX..] + [x];
      LapStep(all[MAX..], x);
    } else if |all| == MAX - 1 {
      assert (all + [x])[MAX..] == [];
    }
  }

  /** One byte too many for a full buffer whose reader stands at slot 0: nothing is thrown and everything is lost. */
  lemma {:induction false} OverrunLosesAll(x: Byte)
    ensures Appended(Repeat(0, MAX - 1), 0, [x]) == []
  {
    LapStep(Repeat(0, MAX - 1), x);
  }

  /** A stretch of the buffer handed to the kernel. */
  datatype Segment = Segment(base: nat, len: nat)

  predicate InBuffer(s: Segment) { s.base + s.len <= MAX }

  /** The slots of two segments, in order. */
  function Joined(slots: seq<Byte>, a: Segment, b: Segment): seq<Byte>
    requires |slots| == MAX && InBuffer(a) && InBuffer(b)
  {
    slots[a.base..a.base + a.len] + slots[b.base..b.base + b.len]
  }

  predicate Covers(s: Segment, k: nat) { s.base <= k < s.base + s.len }

  /** The stretches offered for writing, and the free slots they start with. */
  function Offered(readIndex: nat, writeIndex: nat): (r: (Segment, Segment))
    requires readIndex < MAX && writeIndex < MAX
    ensures InBuffer(r.0) && InBuffer(r.1)
  {
    if writeIndex >= readIndex then (Segment(writeIndex, MAX - writeIndex), Segment(0, readIndex))
    else (Segment(writeIndex, readIndex - 1 - writeIndex), Segment(0, 0))
  }

  lemma {:induction false} PrefixOf<T>(s: seq<T>, lo: nat, mid: nat, hi: nat)
    requires lo <= mid <= hi <= |s|
    ensures s[lo..hi][..mid - lo] == s[lo..mid]
  {
  }

  lemma {:induction false} PrefixOfConcat<T>(a: seq<T>, b: seq<T>, n: nat)
    requires n <= |b|
    ensures (a + b)[..|a| + n] == a + b[..n]
  {
  }

  lemma {:induction false} OfferedIsFree(slots: seq<Byte>, readIndex: nat, writeIndex: nat)
    requires |slots| == MAX && readIndex < MAX && writeIndex < MAX
    ensures var (a, b) := Offered(readIndex, writeIndex);
      var free := Between(slots, writeIndex, Bound(readIndex));
      |free| <= |Joined(slots, a, b)| && Joined(slots, a, b)[..|free|] == free
  {
    if writeIndex < readIndex {
      assert slots[0..0] == [];
    } else if readIndex == 0 {
      PrefixOf(slots, writeIndex, MAX - 1, MAX);
    } else {
      PrefixOf(slots, 0, readIndex - 1, readIndex);
      PrefixOfConcat(slots[writeIndex..MAX], slots[0..readIndex], readIndex - 1);
    }
  }

  class Buffer {
    const buf: array<Byte>
    var readIndex: nat
    var writeIndex: nat

    ghost predicate Valid()
      reads this
    {
      buf.Length == MAX && readIndex < MAX && writeIndex < MAX
    }

    /** The unread bytes. */
    ghost function Contents(): (s: seq<Byte>)
      requires Valid()
      reads this, buf
      ensures |s| < MAX
    {
      Between(buf[..], readIndex, writeIndex)
    }

    /** The bytes lying in the slots that may still be written, in the order they will be. */
    ghost function Free(): (s: seq<Byte>)
      requires Valid()
      reads this, buf
      ensures |s| == MAX - 1 - |Contents()|
    {
      Between(buf[..], writeIndex, Bound(readIndex))
    }

    constructor ()
      ensures Valid() && fresh(buf) && Contents() == [] && readIndex == 0
    {
      buf := new Byte[MAX](_ => 0);
      readIndex := 0;
      writeIndex := 0;
    }

    method ReadableBytes() returns (n: nat)
      requires Valid()
      ensures n == |Contents()|
    {
      n := if writeIndex >= readIndex then writeIndex - readIndex else MAX - readIndex + writeIndex;
    }

    method WritableBytes() returns (n: nat)
      requires Valid()
      ensures n == MAX - 1 - |Contents()|
    {
      var readable := ReadableBytes();
      n := MAX - readable - 1;
    }

    method HasRead(size: nat)
      requires Valid() && size <= |Contents()|
      modifies `readIndex
      ensures Valid() && Contents() == old(Contents())[size..]
    {
      BetweenShrinks(buf[..], readIndex, writeIndex, size);
      Modulo(readIndex, size);
      readIndex := (readIndex + size) % MAX;
    }

    /** The caller filled `size` free slots; one more than there are, and everything unread is gone. */
    method HasWritten(size: nat)
      requires Valid() && size <= |Free()| + 1
      modifies `writeIndex
      ensures Valid()
      ensures Contents() == if size <= old(|Free()|) then old(Contents()) + old(Free())[..size] else []
    {
      Written(buf[..], readIndex, writeIndex, size);
      writeIndex := (writeIndex + size) % MAX;
    }

    /** read returns and consumes the first `limit` unread bytes, or all if there are fewer. */
    method Read(limit: nat) returns (s: seq<Byte>)
      requires Valid()
      modifies `readIndex
      ensures Valid() && s == old(Contents())[..Min(limit, old(|Contents()|))] && Contents() == old(Contents())[|s|..]
    {
      var readable := ReadableBytes();
      if readable > limit {
        readable := limit;
      }
      StretchRead(buf[..], readIndex, writeIndex, readable);
      if readIndex + readable <= writeIndex || readIndex + readable < MAX {
        s := buf[readIndex..readIndex + readable];
      } else {
        s := buf[readIndex..] + buf[..readable + readIndex - MAX];
      }
      HasRead(readable);
    }

    /** The kernel fills the first slots that writevBegin offers. */
    method Fill(chunk: seq<Byte>)
      requires Valid() && |chunk| <= |Free()|
      modifies buf
      ensures Valid() && Contents() == old(Contents()) && |Free()| == old(|Free()|) && Free()[..|chunk|] == chunk
    {
      ghost var slots := buf[..];
      var i := 0;
      while i < |chunk|
        invariant i <= |chunk| && Valid()
        invariant forall j :: 0 <= j < i ==> buf[..][Slot(writeIndex, j)] == chunk[j]
        invariant Between(buf[..], readIndex, writeIndex) == Between(slots, readIndex, writeIndex)
      {
        ghost var before := buf[..];
        var k := Slot(writeIndex, i);
        buf[k] := chunk[i];
        FreeSlot(readIndex, writeIndex, i);
        BetweenSame(before, buf[..], readIndex, writeIndex, k);
        i := i + 1;
      }
      Filled(buf[..], writeIndex, Bound(readIndex), chunk);
    }

    method Clear()
      requires Valid()
      modifies `readIndex, `writeIndex
      ensures Valid() && Contents() == []
    {
      writeIndex := 0;
      readIndex := 0;
    }

    method RetrieveAllBufferAsString() returns (s: seq<Byte>)
      requires Valid()
      modifies `readIndex
      ensures Valid() && s == old(Contents()) && Contents() == []
    {
      var n := ReadableBytes();
      s := Read(n);
    }

    /** One round of append's loop. */
    method Push(x: Byte)
      requires Valid()
      modifies buf, `writeIndex
      ensures Valid()
      ensures Contents() == if old(|Contents()|) == MAX - 1 then [] else old(Contents()) + [x]
    {
      ghost var before := buf[..];
      buf[writeIndex] := x;
      BetweenSame(before, buf[..], readIndex, writeIndex, writeIndex);
      HasWritten(1);
    }

    /**
     append: None stands for the exception.  A reader at slot 0 defeats the test for a full buffer, so nothing is
     thrown then and whole laps are overwritten.
     */
    method Append(str: seq<Byte>, size: nat) returns (r: Option<nat>)
      requires Valid() && size <= |str|
      modifies buf, `writeIndex
      ensures Valid() && Contents() == Appended(old(Contents()), readIndex, str[..size])
      ensures r == if readIndex != 0 && old(|Contents()|) + size >= MAX then None else Some(size)
      ensures old(|Contents()|) + size < MAX ==> Contents() == old(Contents()) + str[..size]
    {
      ghost var contents := Contents();
      var i := 0;
      FirstRound(contents, readIndex, str);
      while i < size && writeIndex != readIndex - 1
        invariant Valid() && i <= size && Round(contents, readIndex, str, i, Contents())
      {
        NextRound(contents, readIndex, str, i, Contents());
        Push(str[i]);
        i := i + 1;
      }
      LastRound(contents, readIndex, str, i, size, Contents());
      if i < size {
        return None;
      }
      r := Some(i);
    }

    /** The length of a string is cut to sixteen bits on its way. */
    method AppendString(str: seq<Byte>) returns (r: Option<nat>)
      requires Valid()
      modifies buf, `writeIndex
      ensures Valid() && Contents() == Appended(old(Contents()), readIndex, str[..|str| % 65536])
      ensures r == if readIndex != 0 && old(|Contents()|) + |str| % 65536 >= MAX then None else Some(|str| % 65536)
      ensures old(|Contents()|) + |str| < MAX ==> Contents() == old(Contents()) + str
    {
      r := Append(str, |str| % 65536);
    }

    method ReadvBegin() returns (a: Segment, b: Segment)
      requires Valid()
      ensures InBuffer(a) && InBuffer(b) && Joined(buf[..], a, b) == Contents()
    {
      a := Segment(readIndex, (if writeIndex >= readIndex then writeIndex else MAX) - readIndex);
      b := Segment(0, if writeIndex >= readIndex then 0 else writeIndex);
    }

    /** The kernel is offered the free slots, in order, and one slot too many when the contents do not wrap. */
    method WritevBegin() returns (a: Segment, b: Segment)
      requires Valid()
      ensures InBuffer(a) && InBuffer(b)
      ensures |Free()| <= |Joined(buf[..], a, b)| && Joined(buf[..], a, b)[..|Free()|] == Free()
      ensures a.len + b.len == |Free()| + if writeIndex >= readIndex then 1 else 0
      ensures forall i :: 0 <= i < |Contents()| ==> !Covers(a, Slot(readIndex, i)) && !Covers(b, Slot(readIndex, i))
    {
      a := Segment(writeIndex, (if writeIndex >= readIndex then MAX else readIndex - 1) - writeIndex);
      b := Segment(0, if writeIndex >= readIndex then readIndex else 0);
      OfferedIsFree(buf[..], readIndex, writeIndex);
    }
  }
}
