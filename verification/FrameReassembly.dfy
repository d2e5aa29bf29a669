/**
 Receiving requests (src/Rpc/connection_pool.cc, TcpConnection::callback_read): bytes arrive in arbitrary chunks,
 a three-phase state machine cuts them into sections and hands complete requests to the event loop.
 */
module FrameReassembly {
  import opened Common
  import opened Varint
  import opened RpcHeader
  import opened RpcProtocol
  import opened RingBuffer

  /** FixedPart waits for the 20 bytes, HeaderPart for the protobuf header, BodyPart for the body. */
  datatype Phase = FixedPart | HeaderPart | BodyPart | Aborted

  datatype State = State(phase: Phase, target: nat, ri: Request)

  predicate Ok(st: State) { st.phase == FixedPart ==> st.target == HEADER_LEN }

  /** After consuming what can be consumed: the state, the unread bytes and the requests handed over. */
  datatype Progress = Progress(st: State, left: Bytes, out: seq<Request>)

  function Rank(p: Phase): nat {
    match p case FixedPart => 0 case BodyPart => 1 case HeaderPart => 2 case Aborted => 0
  }

  /** One section: the next state, and the request if this was its last section. */
  function Section(st: State, s: Bytes): (r: (State, seq<Request>))
    requires Ok(st) && |s| == st.target && st.phase != Aborted
    ensures Ok(r.0)
  {
    match st.phase
    case FixedPart =>
      var ri := if MagicOk(s) then WithFixed(s, st.ri) else st.ri;
      (match StageHeader(s) case Length(n) => (State(HeaderPart, n, ri), []) case Abort => (State(Aborted, 0, ri), []))
    case HeaderPart =>
      var h := ParseHeader(s).header;
      (State(BodyPart, h.argsSize % 65536, WithHeader(h, st.ri)), [])
    case BodyPart =>
      (State(FixedPart, HEADER_LEN, st.ri.(body := s)), [st.ri.(body := s)])
  }

  predicate Settled(st: State, left: Bytes) { st.phase == Aborted || |left| < st.target }

  /** The outcome of the rest, behind requests already handed over. */
  function Behind(out: seq<Request>, p: Progress): Progress { Progress(p.st, p.left, out + p.out) }

  lemma {:induction false} AppendOut(whole: Progress, out: seq<Request>, more: seq<Request>, p: Progress)
    requires whole == Behind(out, Behind(more, p))
    ensures whole == Behind(out + more, p)
  {
    assert out + (more + p.out) == (out + more) + p.out;
  }

  function Drain(st: State, c: Bytes): (p: Progress)
    requires Ok(st)
    ensures Ok(p.st) && Settled(p.st, p.left)
    decreases |c|, Rank(st.phase)
  {
    if Settled(st, c) then Progress(st, c, [])
    else
      var (st', out) := Section(st, c[..st.target]);
      Behind(out, Drain(st', c[st.target..]))
  }

  lemma {:induction false} Unroll(st: State, c: Bytes, st': State, out: seq<Request>)
    requires Ok(st) && !Settled(st, c) && Section(st, c[..st.target]) == (st', out)
    ensures Drain(st, c) == Behind(out, Drain(st', c[st.target..]))
  {
  }

  // ---------------------------------------------------------------------------------------------
  // Chunks do not matter

  lemma {:induction false} DrainConcat(st: State, a: Bytes, b: Bytes)
    requires Ok(st)
    ensures var p := Drain(st, a); Drain(st, a + b) == Behind(p.out, Drain(p.st, p.left + b))
    decreases |a|, Rank(st.phase)
  {
    if Settled(st, a) {
      assert [] + Drain(st, a + b).out == Drain(st, a + b).out;
    } else {
      var n := st.target;
      var (st', out) := Section(st, a[..n]);
      SplitAt(a, b, n);
      Unroll(st, a, st', out);
      Unroll(st, a + b, st', out);
      DrainConcat(st', a[n..], b);
      var p := Drain(st', a[n..]);
      AppendOut(Drain(st, a + b), out, p.out, Drain(p.st, p.left + b));
    }
  }

  lemma {:induction false} SplitAt(a: Bytes, b: Bytes, n: nat)
    requires n <= |a|
    ensures (a + b)[..n] == a[..n] && (a + b)[n..] == a[n..] + b
  {
  }

  function Concat(chunks: seq<Bytes>): Bytes { if chunks == [] then [] else chunks[0] + Concat(chunks[1..]) }

  /** One callback per chunk. */
  function Feed(st: State, left: Bytes, chunks: seq<Bytes>): (p: Progress)
    requires Ok(st)
    ensures Ok(p.st)
    decreases |chunks|
  {
    if chunks == [] then Progress(st, left, [])
    else
      var p := Drain(st, left + chunks[0]);
      Behind(p.out, Feed(p.st, p.left, chunks[1..]))
  }

  /** However the stream is cut into chunks, the outcome is that of the whole stream arriving at once. */
  lemma {:induction false} ChunkingIrrelevant(st: State, left: Bytes, chunks: seq<Bytes>)
    requires Ok(st) && Settled(st, left)
    ensures Feed(st, left, chunks) == Drain(st, left + Concat(chunks))
    decreases |chunks|
  {
    if chunks == [] {
      assert left + [] == left;
    } else {
      var p := Drain(st, left + chunks[0]);
      ChunkingIrrelevant(p.st, p.left, chunks[1..]);
      DrainConcat(st, left + chunks[0], Concat(chunks[1..]));
      Associate(left, chunks[0], Concat(chunks[1..]));
    }
  }

  // ---------------------------------------------------------------------------------------------
  // Agreement with the one-shot parser

  const BLANK := Request(0, 0, 0, 0, 0, [], [], [])

  /** The length of the frame at the start of the stream, once its protobuf header is there. */
  function FrameLen(s: Bytes): nat
    requires |s| >= HEADER_LEN
  {
    HEADER_LEN + HeaderLen(s) + FrameHeader(s).argsSize
  }

  predicate Complete(s: Bytes) {
    |s| >= HEADER_LEN && |s| >= HEADER_LEN + HeaderLen(s) && |s| >= FrameLen(s)
  }

  /** Parsing a whole stream frame by frame with the one-shot parser. */
  function Batch(s: Bytes): seq<Request>
    decreases |s|
  {
    if !Complete(s) || !MagicOk(s) then [] else [ParseFrame(s, BLANK).request] + Batch(s[FrameLen(s)..])
  }

  /** Every frame has the magic number and lengths of at most 65535; the last one may be incomplete. */
  predicate WellFormed(s: Bytes)
    decreases |s|
  {
    |s| >= HEADER_LEN ==>
      && MagicOk(s) && HeaderLen(s) <= 65535
      && (|s| >= HEADER_LEN + HeaderLen(s) ==> FrameHeader(s).argsSize <= 65535)
      && (Complete(s) ==> WellFormed(s[FrameLen(s)..]))
  }

  lemma {:induction false} Slices(s: Bytes, hl: nat, n: nat)
    requires 20 + hl + n <= |s|
    ensures Substr(s, 20, hl) == s[20..][..hl] == s[20..20 + hl] && s[20..][hl..] == s[20 + hl..]
    ensures s[20 + hl..][..n] == Substr(s, 20 + hl, n) && s[20 + hl..][n..] == s[20 + hl + n..]
  {
  }

  lemma {:induction false} FirstUnroll(s: Bytes, ri: Request)
    requires |s| >= HEADER_LEN && MagicOk(s) && HeaderLen(s) <= 65535
    ensures Drain(State(FixedPart, HEADER_LEN, ri), s)
      == Behind([], Drain(State(HeaderPart, HeaderLen(s), WithFixed(s, ri)), s[20..]))
  {
    FixedOnly(s, ri);
    Unroll(State(FixedPart, 20, ri), s, State(HeaderPart, HeaderLen(s), WithFixed(s, ri)), []);
  }

  lemma {:induction false} HeaderSection(h: Bytes, r: Request)
    ensures var header := ParseHeader(h).header;
      Section(State(HeaderPart, |h|, r), h) == (State(BodyPart, header.argsSize % 65536, WithHeader(header, r)), [])
  {
  }

  lemma {:induction false} SecondUnroll(s: Bytes, r: Request)
    requires |s| >= HEADER_LEN && |s| >= HEADER_LEN + HeaderLen(s) && FrameHeader(s).argsSize <= 65535
    ensures Drain(State(HeaderPart, HeaderLen(s), r), s[20..])
      == Behind([], Drain(State(BodyPart, FrameHeader(s).argsSize, WithHeader(FrameHeader(s), r)),
                          s[20 + HeaderLen(s)..]))
  {
    Slices(s, HeaderLen(s), 0);
    HeaderSection(s[20..][..HeaderLen(s)], r);
    Unroll(State(HeaderPart, HeaderLen(s), r), s[20..],
           State(BodyPart, FrameHeader(s).argsSize, WithHeader(FrameHeader(s), r)), []);
  }

  lemma {:induction false} ThirdUnroll(s: Bytes, hl: nat, n: nat, r2: Request, r: Request, rest: Bytes)
    requires HEADER_LEN + hl + n <= |s| && r == r2.(body := Substr(s, 20 + hl, n)) && rest == s[20 + hl + n..]
    ensures Drain(State(BodyPart, n, r2), s[20 + hl..]) == Behind([r], Drain(State(FixedPart, HEADER_LEN, r), rest))
  {
    Slices(s, hl, n);
    Unroll(State(BodyPart, n, r2), s[20 + hl..], State(FixedPart, HEADER_LEN, r), [r]);
  }

  lemma {:induction false} WholeFrame(s: Bytes, ri: Request)
    requires Complete(s) && MagicOk(s) && HeaderLen(s) <= 65535
    ensures ParseFrame(s, BLANK).request
      == WithHeader(FrameHeader(s), WithFixed(s, ri)).(body := Substr(s, 20 + HeaderLen(s), FrameHeader(s).argsSize))
  {
  }

  /** The frame at the start of the stream from its second section on. */
  lemma {:induction false} DrainRestOfFrame(s: Bytes, r1: Request, r: Request, rest: Bytes)
    requires Complete(s) && FrameHeader(s).argsSize <= 65535 && rest == s[FrameLen(s)..]
    requires r == WithHeader(FrameHeader(s), r1).(body := Substr(s, 20 + HeaderLen(s), FrameHeader(s).argsSize))
    ensures Drain(State(HeaderPart, HeaderLen(s), r1), s[20..])
      == Behind([r], Drain(State(FixedPart, HEADER_LEN, r), rest))
  {
    SecondUnroll(s, r1);
    ThirdUnroll(s, HeaderLen(s), FrameHeader(s).argsSize, WithHeader(FrameHeader(s), r1), r, rest);
    Chain(Drain(State(HeaderPart, HeaderLen(s), r1), s[20..]),
          Drain(State(BodyPart, FrameHeader(s).argsSize, WithHeader(FrameHeader(s), r1)), s[20 + HeaderLen(s)..]),
          [r], Drain(State(FixedPart, HEADER_LEN, r), rest));
  }

  lemma {:induction false} Chain(a: Progress, b: Progress, out: seq<Request>, c: Progress)
    requires a == Behind([], b) && b == Behind(out, c)
    ensures a == Behind(out, c)
  {
    BehindNothing(b);
  }

  /** A wrong magic number is not refused: an empty request with the old fixed fields is handed over. */
  lemma {:induction false} BadMagicHandsOver(s: Bytes, ri: Request)
    requires |s| == HEADER_LEN && s[..4] != [0x48, 0x63, 0x52, 0x70]
    ensures var r := ri.(serviceName := [], methodName := [], body := []);
      Drain(State(FixedPart, HEADER_LEN, ri), s) == Progress(State(FixedPart, HEADER_LEN, r), [], [r])
  {
    var named := ri.(serviceName := [], methodName := []);
    MagicMeaning(s);
    assert s[..20] == s && s[20..] == [];
    Unroll(State(FixedPart, 20, ri), s, State(HeaderPart, 0, ri), []);
    HeaderSection([], ri);
    Unroll(State(HeaderPart, 0, ri), [], State(BodyPart, 0, named), []);
    Unroll(State(BodyPart, 0, named), [], State(FixedPart, HEADER_LEN, named.(body := [])), [named.(body := [])]);
  }

  /** A protobuf header of more than 65535 bytes ends the process, and nothing else does. */
  lemma {:induction false} LongHeaderAborts(s: Bytes, ri: Request)
    requires |s| == HEADER_LEN
    ensures Section(State(FixedPart, HEADER_LEN, ri), s).0.phase == Aborted <==>
              s[..4] == [0x48, 0x63, 0x52, 0x70] && Word(s[16], s[17], s[18], s[19]) > 65535
  {
    FixedMeaning(s, ri);
  }

  /** The sections of the frame at the start of the stream, one after the other. */
  lemma {:induction false} DrainFrame(s: Bytes, ri: Request, r: Request, rest: Bytes)
    requires Complete(s) && MagicOk(s) && HeaderLen(s) <= 65535 && FrameHeader(s).argsSize <= 65535
    requires r == ParseFrame(s, BLANK).request && rest == s[FrameLen(s)..]
    ensures Drain(State(FixedPart, HEADER_LEN, ri), s) == Behind([r], Drain(State(FixedPart, HEADER_LEN, r), rest))
  {
    var r1 := WithFixed(s, ri);
    WholeFrame(s, ri);
    FirstUnroll(s, ri);
    DrainRestOfFrame(s, r1, r, rest);
    Chain(Drain(State(FixedPart, HEADER_LEN, ri), s), Drain(State(HeaderPart, HeaderLen(s), r1), s[20..]),
          [r], Drain(State(FixedPart, HEADER_LEN, r), rest));
  }

  lemma {:induction false} BehindNothing(p: Progress)
    ensures Behind([], p) == p
  {
  }

  /** An incomplete frame yields nothing. */
  lemma {:induction false} DrainIncomplete(s: Bytes, ri: Request)
    requires WellFormed(s) && !Complete(s)
    ensures var p := Drain(State(FixedPart, HEADER_LEN, ri), s); p.out == [] && p.st.phase != Aborted
  {
    if |s| >= HEADER_LEN {
      FirstUnroll(s, ri);
      if |s| >= HEADER_LEN + HeaderLen(s) {
        SecondUnroll(s, WithFixed(s, ri));
      }
    }
  }

  /** On any stream of well-formed frames the state machine hands over what the one-shot parser finds. */
  lemma {:induction false} DrainIsBatch(s: Bytes, ri: Request)
    requires WellFormed(s)
    ensures var p := Drain(State(FixedPart, HEADER_LEN, ri), s); p.out == Batch(s) && p.st.phase != Aborted
    decreases |s|
  {
    if Complete(s) {
      DrainFrame(s, ri, ParseFrame(s, BLANK).request, s[FrameLen(s)..]);
      DrainIsBatch(s[FrameLen(s)..], ParseFrame(s, BLANK).request);
    } else {
      DrainIncomplete(s, ri);
    }
  }

  // ---------------------------------------------------------------------------------------------
  // Streams of generated frames

  predicate Fits(r: Request) { Sendable(r) && |EncodeHeader(HeaderOf(r))| <= 65535 && |r.body| <= 65535 }

  function Frames(rs: seq<Request>): Bytes { if rs == [] then [] else Frame(rs[0]) + Frames(rs[1..]) }

  /** The beginning of a frame that has not fully arrived. */
  predicate Unfinished(s: Bytes, r: Request) { Fits(r) && |s| < |Frame(r)| && s == Frame(r)[..|s|] }

  lemma {:induction false} UnfinishedIncomplete(s: Bytes, r: Request)
    requires Unfinished(s, r)
    ensures WellFormed(s) && !Complete(s)
  {
    var f := Frame(r);
    assert f + [] == f;
    FrameSections(f, r, [], BLANK);
    if |s| >= HEADER_LEN {
      SamePrefix(s, f, HEADER_LEN);
      FixedOnly(s, BLANK);
      FixedOnly(f, BLANK);
      if |s| >= HEADER_LEN + HeaderLen(s) {
        SameSubstr(s, f, HEADER_LEN, HeaderLen(s));
        TailLength(f, BodyAt(f), r.body);
      }
    }
  }

  lemma {:induction false} SamePrefix(s: Bytes, f: Bytes, n: nat)
    requires n <= |s| <= |f| && s == f[..|s|]
    ensures s[..n] == f[..n]
  {
  }

  lemma {:induction false} SameSubstr(s: Bytes, f: Bytes, pos: nat, n: nat)
    requires pos + n <= |s| <= |f| && s == f[..|s|]
    ensures Substr(s, pos, n) == Substr(f, pos, n)
  {
  }

  lemma {:induction false} TailLength(f: Bytes, pos: nat, body: Bytes)
    requires pos <= |f| && f[pos..] == body + []
    ensures |f| == pos + |body|
  {
  }

  lemma {:induction false} BatchOfFrame(s: Bytes, r: Request, rest: Bytes)
    requires Fits(r) && s == Frame(r) + rest
    ensures Complete(s) && MagicOk(s) && HeaderLen(s) <= 65535 && FrameHeader(s).argsSize <= 65535
    ensures ParseFrame(s, BLANK).request == r && s[FrameLen(s)..] == rest
  {
    FrameSections(s, r, rest, BLANK);
    FrameRoundTrip(s, r, rest, BLANK);
    assert |s[BodyAt(s)..]| == |r.body| + |rest|;
    assert s[FrameLen(s)..] == s[BodyAt(s)..][|r.body|..];
  }

  lemma {:induction false} BatchStep(s: Bytes, r: Request, rest: Bytes)
    requires Complete(s) && MagicOk(s) && HeaderLen(s) <= 65535 && FrameHeader(s).argsSize <= 65535
    requires ParseFrame(s, BLANK).request == r && s[FrameLen(s)..] == rest && WellFormed(rest)
    ensures WellFormed(s) && Batch(s) == [r] + Batch(rest)
  {
  }

  lemma {:induction false} HeadTail<T>(s: seq<T>)
    requires s != []
    ensures [s[0]] + s[1..] == s
  {
  }

  lemma {:induction false} BatchOfFrames(rs: seq<Request>, tail: Bytes, last: Request)
    requires (forall i :: 0 <= i < |rs| ==> Fits(rs[i])) && Unfinished(tail, last)
    ensures WellFormed(Frames(rs) + tail) && Batch(Frames(rs) + tail) == rs
    decreases |rs|
  {
    if rs == [] {
      assert Frames(rs) + tail == tail;
      UnfinishedIncomplete(tail, last);
    } else {
      var s, rest := Frames(rs) + tail, Frames(rs[1..]) + tail;
      Associate(Frame(rs[0]), Frames(rs[1..]), tail);
      BatchOfFrames(rs[1..], tail, last);
      BatchOfFrame(s, rs[0], rest);
      BatchStep(s, rs[0], rest);
      HeadTail(rs);
    }
  }

  /** The requests sent are the requests received, in order, however the bytes are cut into chunks. */
  lemma {:induction false} SentIsReceived(rs: seq<Request>, tail: Bytes, last: Request, chunks: seq<Bytes>, ri: Request)
    requires (forall i :: 0 <= i < |rs| ==> Fits(rs[i])) && Unfinished(tail, last)
    requires Concat(chunks) == Frames(rs) + tail
    ensures var p := Feed(State(FixedPart, HEADER_LEN, ri), [], chunks);
      p.out == rs && |p.left| < p.st.target
  {
    var st := State(FixedPart, HEADER_LEN, ri);
    ChunkingIrrelevant(st, [], chunks);
    assert [] + Concat(chunks) == Concat(chunks);
    BatchOfFrames(rs, tail, last);
    DrainIsBatch(Frames(rs) + tail, ri);
  }

  /**
   The next section can arrive in full exactly when the ring buffer has room for it; a longer one stops the
   connection for good.
   */
  lemma {:induction false} SectionArrives(st: State, left: Bytes)
    requires Settled(st, left) && st.phase != Aborted && |left| < MAX
    ensures (exists chunk: Bytes :: |left| + |chunk| < MAX && !Settled(st, left + chunk)) <==> st.target < MAX
  {
    if st.target < MAX {
      var chunk := Repeat(0, st.target - |left|);
      assert !Settled(st, left + chunk);
    }
  }

  // ---------------------------------------------------------------------------------------------
  // Chunk by chunk

  /** Each chunk fits into the space that the bytes left over from the chunks before it leave free. */
  predicate AllFit(st: State, chunks: seq<Bytes>)
    requires Ok(st)
  {
    forall i :: 0 <= i < |chunks| ==> |Drain(st, Concat(chunks[..i])).left| + |chunks[i]| < MAX
  }

  lemma {:induction false} ConcatMore(chunks: seq<Bytes>, more: seq<Bytes>)
    ensures Concat(chunks + more) == Concat(chunks) + Concat(more)
  {
    if chunks == [] {
      assert chunks + more == more;
    } else {
      assert (chunks + more)[1..] == chunks[1..] + more;
      ConcatMore(chunks[1..], more);
      Associate(chunks[0], Concat(chunks[1..]), Concat(more));
    }
  }

  lemma {:induction false} DrainNothing(st: State)
    requires Ok(st) && st.phase == FixedPart
    ensures Drain(st, Concat([])) == Progress(st, [], [])
  {
  }

  lemma {:induction false} ConcatOne(chunks: seq<Bytes>, i: nat)
    requires i < |chunks|
    ensures Concat(chunks[..i + 1]) == Concat(chunks[..i]) + chunks[i]
  {
    assert chunks[..i + 1] == chunks[..i] + [chunks[i]];
    ConcatMore(chunks[..i], [chunks[i]]);
    assert Concat([chunks[i]]) == chunks[i] + Concat([]);
  }

  /** Draining one more chunk goes on from what the chunks before it left. */
  lemma {:induction false} OneMoreChunk(st: State, chunks: seq<Bytes>, i: nat, before: seq<Request>)
    requires Ok(st) && i < |chunks|
    ensures var p, q := Drain(st, Concat(chunks[..i])), Drain(st, Concat(chunks[..i + 1]));
      var next := Drain(p.st, p.left + chunks[i]);
      q.st == next.st && q.left == next.left && before + q.out == (before + p.out) + next.out
  {
    var p := Drain(st, Concat(chunks[..i]));
    ConcatOne(chunks, i);
    DrainConcat(st, Concat(chunks[..i]), chunks[i]);
    Associate(before, p.out, Drain(p.st, p.left + chunks[i]).out);
  }

  lemma {:induction false} AbortedStays(st: State, a: Bytes, b: Bytes)
    requires Ok(st) && Drain(st, a).st.phase == Aborted
    ensures Drain(st, a + b).st.phase == Aborted
  {
    DrainConcat(st, a, b);
  }

  /** What the frames of rs and the beginning of another one come to. */
  lemma {:induction false} StreamReceived(st: State, chunks: seq<Bytes>, rs: seq<Request>, tail: Bytes, last: Request)
    requires Ok(st) && st.phase == FixedPart && Concat(chunks) == Frames(rs) + tail
    requires (forall i :: 0 <= i < |rs| ==> Fits(rs[i])) && Unfinished(tail, last)
    ensures var p := Drain(st, Concat(chunks)); p.out == rs && |p.left| < p.st.target && p.st.phase != Aborted
  {
    BatchOfFrames(rs, tail, last);
    DrainIsBatch(Frames(rs) + tail, st.ri);
  }

  lemma {:induction false} NeverAborts(st: State, chunks: seq<Bytes>, i: nat, rs: seq<Request>, tail: Bytes,
                                       last: Request)
    requires Ok(st) && st.phase == FixedPart && Concat(chunks) == Frames(rs) + tail && i <= |chunks|
    requires (forall j :: 0 <= j < |rs| ==> Fits(rs[j])) && Unfinished(tail, last)
    ensures Drain(st, Concat(chunks[..i])).st.phase != Aborted
  {
    assert chunks == chunks[..i] + chunks[i..];
    ConcatMore(chunks[..i], chunks[i..]);
    StreamReceived(st, chunks, rs, tail, last);
    if Drain(st, Concat(chunks[..i])).st.phase == Aborted {
      AbortedStays(st, Concat(chunks[..i]), Concat(chunks[i..]));
    }
  }

  /** What a read makes of the bytes at hand: a chunk that fills the buffer to its last slot makes it look empty. */
  function Arrived(left: Bytes, chunk: Bytes): Bytes
    requires |left| + |chunk| <= MAX
  {
    if |left| + |chunk| < MAX then left + chunk else []
  }

  /** The bytes at hand survive a read if and only if the chunk fits; otherwise they are gone. */
  lemma {:induction false} SurvivesIfFits(st: State, left: Bytes, chunk: Bytes)
    requires Ok(st) && Settled(st, left) && st.phase != Aborted && |left| + |chunk| <= MAX
    ensures Arrived(left, chunk) == left + chunk <==> |left| + |chunk| < MAX
    ensures |left| + |chunk| == MAX ==> Drain(st, Arrived(left, chunk)) == Progress(st, [], [])
  {
  }

  lemma {:induction false} SectionStep(before: seq<Request>, st: State, c: Bytes)
    requires Ok(st) && !Settled(st, c)
    ensures var (st', out) := Section(st, c[..st.target]);
      && Behind(before, Drain(st, c)) == Behind(before + out, Drain(st', c[st.target..]))
      && (st.target == 0 ==> Rank(st'.phase) < Rank(st.phase))
  {
    var (st', out) := Section(st, c[..st.target]);
    Unroll(st, c, st', out);
    AppendOut(Behind(before, Drain(st, c)), before, out, Drain(st', c[st.target..]));
  }

  // ---------------------------------------------------------------------------------------------
  // The connection object

  class TcpConnection {
    const buffer: Buffer
    var phase: Phase
    var target: nat
    var ri: Request
    var handled: seq<Request>

    ghost predicate Valid()
      reads this, buffer, buffer.buf
    {
      buffer.Valid() && Ok(State(phase, target, ri)) && Settled(State(phase, target, ri), buffer.Contents())
    }

    constructor ()
      ensures Valid() && fresh(buffer) && fresh(buffer.buf) && buffer.Contents() == []
      ensures phase == FixedPart && target == HEADER_LEN && handled == []
    {
      buffer := new Buffer();
      phase, target, ri, handled := FixedPart, HEADER_LEN, BLANK, [];
    }

    /** One section is parsed. */
    method ParseSection(section: Bytes)
      requires Ok(State(phase, target, ri)) && phase != Aborted && |section| == target
      modifies `phase, `target, `ri, `handled
      ensures var (st', out) := Section(old(State(phase, target, ri)), section);
        State(phase, target, ri) == st' && handled == old(handled) + out
    {
      if phase == FixedPart {
        var stage;
        stage, ri := ParserProtocalHeader(section, ri);
        match stage {
          case Length(n) => phase, target := HeaderPart, n;
          case Abort => phase, target := Aborted, 0;
        }
      } else if phase == HeaderPart {
        target, ri := ParserProtocalRpcHeader(section, ri);
        phase := BodyPart;
      } else {
        ri := ParserProtocalBody(section, ri);
        phase, target := FixedPart, HEADER_LEN;
        handled := handled + [ri];
      }
    }

    /** Everything handed over so far and yet to be handed over for the bytes at hand. */
    ghost function Outcome(): Progress
      requires buffer.Valid() && Ok(State(phase, target, ri))
      reads this, buffer, buffer.buf
    {
      Behind(handled, Drain(State(phase, target, ri), buffer.Contents()))
    }

    /** One section is read from the buffer and parsed. */
    method ReadSection()
      requires buffer.Valid() && Ok(State(phase, target, ri)) && !Settled(State(phase, target, ri), buffer.Contents())
      modifies `phase, `target, `ri, `handled, buffer`readIndex
      ensures buffer.Valid() && Ok(State(phase, target, ri))
      ensures |buffer.Contents()| == old(|buffer.Contents()|) - old(target)
      ensures old(target) == 0 ==> Rank(phase) < old(Rank(phase))
      ensures Outcome() == old(Outcome())
    {
      ghost var st, c := State(phase, target, ri), buffer.Contents();
      var section := buffer.Read(target);
      SectionStep(handled, st, c);
      ParseSection(section);
    }

    method ReadSections()
      requires buffer.Valid() && Ok(State(phase, target, ri))
      modifies `phase, `target, `ri, `handled, buffer`readIndex
      ensures Valid() && Outcome() == old(Outcome())
    {
      var readable := buffer.ReadableBytes();
      while phase != Aborted && readable >= target
        invariant buffer.Valid() && readable == |buffer.Contents()| && Ok(State(phase, target, ri))
        invariant Outcome() == old(Outcome())
        decreases readable, Rank(phase)
      {
        readable := readable - target;
        ReadSection();
      }
    }

    /**
     The kernel has put `res` bytes into the slots that writevBegin offered.  One byte more than is free, and the ring
     looks empty: all bytes at hand are lost, those of this read and those of sections that are not complete yet.
     */
    method CallbackRead(res: nat)
      requires Valid() && phase != Aborted && res <= |buffer.Free()| + 1
      modifies this, buffer
      ensures Valid()
      ensures var c, free := old(buffer.Contents()), old(buffer.Free());
        var p := Drain(old(State(phase, target, ri)), if res <= |free| then c + free[..res] else []);
        State(phase, target, ri) == p.st && buffer.Contents() == p.left && handled == old(handled) + p.out
    {
      buffer.HasWritten(res);
      ReadSections();
      assert handled + [] == handled;
    }

    /** One read of the kernel and its completion, for a chunk that fits. */
    method ReceiveChunk(chunk: Bytes)
      requires Valid() && phase != Aborted && |chunk| <= |buffer.Free()|
      modifies this, buffer, buffer.buf
      ensures Valid()
      ensures var p := Drain(old(State(phase, target, ri)), old(buffer.Contents()) + chunk);
        State(phase, target, ri) == p.st && buffer.Contents() == p.left && handled == old(handled) + p.out
    {
      buffer.Fill(chunk);
      CallbackRead(|chunk|);
    }

    /**
     A connection from its first byte on: chunks of the frames of rs and of the beginning of another one, each of which
     fits into the free space on its arrival.
     */
    method Receive(chunks: seq<Bytes>, ghost rs: seq<Request>, ghost tail: Bytes, ghost last: Request)
      requires Valid() && phase == FixedPart && buffer.Contents() == []
      requires (forall i :: 0 <= i < |rs| ==> Fits(rs[i])) && Unfinished(tail, last)
      requires Concat(chunks) == Frames(rs) + tail && AllFit(State(phase, target, ri), chunks)
      modifies this, buffer, buffer.buf
      ensures Valid() && handled == old(handled) + rs && |buffer.Contents()| < target
    {
      ghost var st, before := State(phase, target, ri), handled;
      DrainNothing(st);
      var i := 0;
      while i < |chunks|
        invariant Valid() && i <= |chunks|
        invariant var p := Drain(st, Concat(chunks[..i]));
          State(phase, target, ri) == p.st && buffer.Contents() == p.left && handled == before + p.out
      {
        NeverAborts(st, chunks, i, rs, tail, last);
        OneMoreChunk(st, chunks, i, before);
        ReceiveChunk(chunks[i]);
        i := i + 1;
      }
      assert chunks[..i] == chunks;
      StreamReceived(st, chunks, rs, tail, last);
    }
  }
}
