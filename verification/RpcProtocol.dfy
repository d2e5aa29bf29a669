/**
 The RPC frame (src/Rpc/rpc_protocal.cc): 20 bytes of fixed fields, the protobuf header, the body.
 The host is little-endian; copying an integer into the string stores its bytes in that order.
 */
module RpcProtocol {
  import opened Common
  import opened Varint
  import opened RpcHeader

  const MAGIC: nat := 0x48635270
  const HEADER_LEN: nat := 20

  datatype Request = Request(
    requestId: nat, version: Byte, messageType: Byte, status: Byte, flag: Byte,
    serviceName: Bytes, methodName: Bytes, body: Bytes)

  // ---------------------------------------------------------------------------------------------
  // Generating

  /** args_size is a 32-bit field. */
  function HeaderOf(r: Request): Header { Header(r.serviceName, r.methodName, Low32(|r.body|)) }

  /** The fixed fields in front of a protobuf header of that size. */
  function Fixed(r: Request, headerLen: nat): Bytes {
    BigEndian(MAGIC, 4) + [r.version, r.messageType, r.status, r.flag]
    + BigEndian(r.requestId, 8) + BigEndian(headerLen, 4)
  }

  function Frame(r: Request): Bytes {
    var h := EncodeHeader(HeaderOf(r));
    Fixed(r, Low32(|h|)) + h + r.body
  }

  /** memcpy of n bytes to offset `at`. */
  function Copied(s: Bytes, at: nat, bytes: Bytes): Bytes
    requires at + |bytes| <= |s|
  {
    s[..at] + bytes + s[at + |bytes|..]
  }

  /** One more piece behind what has been filled in. */
  lemma {:induction false} Filled(s: Bytes, front: Bytes, bytes: Bytes)
    requires |front| + |bytes| <= |s| && s[..|front|] == front
    ensures |Copied(s, |front|, bytes)| == |s|
    ensures Copied(s, |front|, bytes)[..|front + bytes|] == front + bytes
  {
  }

  /** The first twenty bytes. */
  method PutFixed(blank: Bytes, r: Request, headerLen: nat) returns (s: Bytes)
    requires |blank| >= 20 && r.requestId < Pow256(8) && headerLen < Pow256(4)
    ensures |s| == |blank| && s[..20] == Fixed(r, headerLen)
  {
    Pow256Four();
    SwappedIsNetworkOrder(MAGIC, 4);
    SwappedIsNetworkOrder(r.requestId, 8);
    SwappedIsNetworkOrder(headerLen, 4);
    HtonllSwaps(r.requestId);
    ghost var p := BigEndian(MAGIC, 4);
    Filled(blank, [], p);
    s := Copied(blank, 0, LittleEndian(Swapped(MAGIC, 4), 4));
    s := PutBytes(s, r, p);
    p := p + [r.version, r.messageType, r.status, r.flag];
    Filled(s, p, BigEndian(r.requestId, 8));
    s := Copied(s, 8, LittleEndian(Htonll(r.requestId), 8));
    p := p + BigEndian(r.requestId, 8);
    Filled(s, p, BigEndian(headerLen, 4));
    s := Copied(s, 16, LittleEndian(Swapped(headerLen, 4), 4));
  }

  method PutBytes(blank: Bytes, r: Request, ghost p: Bytes) returns (s: Bytes)
    requires |blank| >= 8 && |p| == 4 && blank[..4] == p
    ensures |s| == |blank| && s[..8] == p + [r.version, r.messageType, r.status, r.flag]
  {
    s := blank[4 := r.version][5 := r.messageType][6 := r.status][7 := r.flag];
  }

  method GenerateStringFromProtocal(r: Request) returns (s: Bytes)
    requires r.requestId < Pow256(8)
    ensures s == Frame(r)
  {
    var header := new Message();
    header.serviceName, header.methodName, header.argsSize := r.serviceName, r.methodName, Low32(|r.body|);
    var h := header.InternalSerialize();
    Pow256Four();
    s := Repeat(0, 20 + |h| + |r.body|);
    s := PutFixed(s, r, Low32(|h|));
    PutSections(s, Fixed(r, Low32(|h|)), h, r.body);
    s := Copied(s, 20, h);
    s := Copied(s, 20 + |h|, r.body);
  }

  /** The copies of the protobuf header and of the body complete the frame. */
  lemma {:induction false} PutSections(s: Bytes, front: Bytes, h: Bytes, body: Bytes)
    requires |s| == |front| + |h| + |body| && s[..|front|] == front
    ensures Copied(Copied(s, |front|, h), |front| + |h|, body) == front + h + body
  {
    Filled(s, front, h);
    var s1 := Copied(s, |front|, h);
    Filled(s1, front + h, body);
    var s2 := Copied(s1, |front + h|, body);
    assert s2[..|s2|] == s2;
  }

  lemma {:induction false} Pow256Four()
    ensures Pow256(4) == TWO32 && Pow256(8) == TWO32 * TWO32
  {
    assert Pow256(2) == 256 * 256;
    assert Pow256(4) == 256 * 256 * Pow256(2);
    assert Pow256(6) == 256 * 256 * Pow256(4);
  }

  // ---------------------------------------------------------------------------------------------
  // Parsing in one go

  predicate MagicOk(s: Bytes)
    requires |s| >= 4
  {
    FromBigEndian(s[..4]) == MAGIC
  }

  function HeaderLen(s: Bytes): nat
    requires |s| >= HEADER_LEN
  {
    FromBigEndian(s[16..20])
  }

  function WithFixed(s: Bytes, r: Request): Request
    requires |s| >= HEADER_LEN
  {
    r.(version := s[4], messageType := s[5], status := s[6], flag := s[7], requestId := FromBigEndian(s[8..16]))
  }

  function WithHeader(h: Header, r: Request): Request {
    r.(serviceName := h.serviceName, methodName := h.methodName)
  }

  /** std::string::substr, for a position inside the string. */
  function Substr(s: Bytes, pos: nat, n: nat): Bytes
    requires pos <= |s|
  {
    s[pos..Min(pos + n, |s|)]
  }

  datatype Parse = Parse(ok: bool, request: Request)

  /** The protobuf header of a frame, whatever its parser says about it. */
  function FrameHeader(s: Bytes): Header
    requires |s| >= HEADER_LEN
  {
    ParseHeader(Substr(s, HEADER_LEN, HeaderLen(s))).header
  }

  /** Where the body is looked for: the sum is taken in 32 bits. */
  function BodyAt(s: Bytes): nat
    requires |s| >= HEADER_LEN
  {
    Low32(HEADER_LEN + HeaderLen(s))
  }

  /** A frame that is too short for its fixed fields is read past its end, unless its magic number is wrong. */
  predicate Readable(s: Bytes) { |s| >= 4 && (MagicOk(s) ==> |s| >= HEADER_LEN) }

  function ParseFrame(s: Bytes, r: Request): Parse
    requires Readable(s)
  {
    if !MagicOk(s) then Parse(false, r)
    else
      var r1 := WithHeader(FrameHeader(s), WithFixed(s, r));
      if BodyAt(s) > |s| then Parse(false, r1)
      else Parse(true, r1.(body := Substr(s, BodyAt(s), FrameHeader(s).argsSize)))
  }

  lemma {:induction false} LoadSwapped(s: Bytes)
    ensures Swapped(FromLittleEndian(s), |s|) == FromBigEndian(s)
    ensures |s| == 8 ==> Htonll(FromLittleEndian(s)) == FromBigEndian(s)
  {
    LoadStore(s);
    if |s| == 8 {
      HtonllSwaps(FromLittleEndian(s));
    }
  }

  /** The fields behind the magic number, and the length of the protobuf header. */
  method ReadFixed(s: Bytes, r0: Request) returns (headerLen: nat, r: Request)
    requires |s| >= HEADER_LEN
    ensures headerLen == HeaderLen(s) && r == WithFixed(s, r0)
  {
    r := r0.(version := s[4], messageType := s[5], status := s[6], flag := s[7]);
    LoadSwapped(s[8..16]);
    r := r.(requestId := Htonll(FromLittleEndian(s[8..16])));
    LoadSwapped(s[16..20]);
    headerLen := Swapped(FromLittleEndian(s[16..20]), 4);
  }

  /** The protobuf header, whatever its parser says about it. */
  method ReadNames(s: Bytes, r0: Request) returns (argsSize: Uint32, r: Request)
    ensures argsSize == ParseHeader(s).header.argsSize && r == WithHeader(ParseHeader(s).header, r0)
  {
    var header := new Message();
    var _ := header.ParseFromString(s);
    r := r0.(serviceName := header.serviceName, methodName := header.methodName);
    argsSize := header.argsSize;
  }

  method ParserProtocalFromString(s: Bytes, r0: Request) returns (ok: bool, r: Request)
    requires Readable(s)
    ensures Parse(ok, r) == ParseFrame(s, r0)
  {
    r := r0;
    LoadSwapped(s[..4]);
    if Swapped(FromLittleEndian(s[..4]), 4) != MAGIC {
      return false, r;
    }
    var headerLen;
    headerLen, r := ReadFixed(s, r);
    var argsSize;
    argsSize, r := ReadNames(Substr(s, 20, headerLen), r);
    assert r == WithHeader(FrameHeader(s), WithFixed(s, r0)) && argsSize == FrameHeader(s).argsSize;
    var at := Low32(20 + headerLen);
    assert at == BodyAt(s);
    if at > |s| {
      return false, r;
    }
    r := r.(body := Substr(s, at, argsSize));
    ok := true;
  }

  // ---------------------------------------------------------------------------------------------
  // Round trip

  /** What the fields and the protobuf runtime can carry; the body may be of any length. */
  predicate Sendable(r: Request) {
    r.requestId < Pow256(8) && Encodable(HeaderOf(r)) && |EncodeHeader(HeaderOf(r))| <= 0x7FFF_FFFF
  }

  lemma {:induction false} FixedFields(r: Request, headerLen: nat, rest: Bytes, r0: Request)
    requires r.requestId < Pow256(8) && headerLen < TWO32
    ensures var s := Fixed(r, headerLen) + rest;
      && |Fixed(r, headerLen)| == 20 && MagicOk(s) && HeaderLen(s) == headerLen
      && WithFixed(s, r0) == r.(serviceName := r0.serviceName, methodName := r0.methodName, body := r0.body)
  {
    Pow256Four();
    BigEndianRoundTrip(MAGIC, 4);
    BigEndianRoundTrip(r.requestId, 8);
    BigEndianRoundTrip(headerLen, 4);
    FixedSlices(r, headerLen, rest);
  }

  lemma {:induction false} FixedSlices(r: Request, headerLen: nat, rest: Bytes)
    requires |BigEndian(MAGIC, 4)| == 4 && |BigEndian(r.requestId, 8)| == 8 && |BigEndian(headerLen, 4)| == 4
    ensures var s := Fixed(r, headerLen) + rest;
      && |Fixed(r, headerLen)| == 20 && s[..4] == BigEndian(MAGIC, 4)
      && s[4] == r.version && s[5] == r.messageType && s[6] == r.status && s[7] == r.flag
      && s[8..16] == BigEndian(r.requestId, 8) && s[16..20] == BigEndian(headerLen, 4)
  {
  }

  lemma {:induction false} MagicBytes()
    ensures BigEndian(MAGIC, 4) == [0x48, 0x63, 0x52, 0x70]
  {
    assert LittleEndian(0x48, 1) == [0x48];
    assert LittleEndian(0x4863, 2) == [0x63, 0x48];
    assert LittleEndian(0x486352, 3) == [0x52, 0x63, 0x48];
    assert LittleEndian(MAGIC, 4) == [0x70, 0x52, 0x63, 0x48];
  }

  lemma {:induction false} ThreeSections(f: Bytes, h: Bytes, b: Bytes)
    requires |f| == 20
    ensures (f + h + b)[..20] == f && (f + h + b)[20..20 + |h|] == h && (f + h + b)[20 + |h|..] == b
  {
  }

  /** The layout of a frame. */
  lemma {:induction false} FrameLayout(r: Request)
    ensures var s, h := Frame(r), EncodeHeader(HeaderOf(r));
      && |s| == 20 + |h| + |r.body| && s[20..20 + |h|] == h && s[20 + |h|..] == r.body
      && s[..4] == [0x48, 0x63, 0x52, 0x70]
      && s[4] == r.version && s[5] == r.messageType && s[6] == r.status && s[7] == r.flag
      && IsNetworkOrder(s[8..16], r.requestId) && IsNetworkOrder(s[16..20], Low32(|h|))
  {
    var h := EncodeHeader(HeaderOf(r));
    var f := Fixed(r, Low32(|h|));
    MagicBytes();
    BigEndianIs(r.requestId, 8);
    BigEndianIs(Low32(|h|), 4);
    FixedSlices(r, Low32(|h|), h + r.body);
    Associate(f, h, r.body);
    ThreeSections(f, h, r.body);
  }

  /** The number with these digits to the base 256. */
  function Word(a: nat, b: nat, c: nat, d: nat): nat { a * 0x100_0000 + b * 0x1_0000 + c * 0x100 + d }

  lemma {:induction false} FourBytes(s: Bytes)
    requires |s| == 4
    ensures FromBigEndian(s) == Word(s[0], s[1], s[2], s[3])
  {
    FourLoaded(s[3], s[2], s[1], s[0], []);
    assert Reversed(s) == [s[3], s[2], s[1], s[0]] + [];
  }

  lemma {:induction false} EightBytesBack(s: Bytes)
    requires |s| == 8
    ensures FromBigEndian(s) == FromBigEndian(s[..4]) * TWO32 + FromBigEndian(s[4..])
  {
    FourBytes(s[..4]);
    FourBytes(s[4..]);
    EightLoaded(s[7], s[6], s[5], s[4], s[3], s[2], s[1], s[0]);
    assert Reversed(s) == [s[7], s[6], s[5], s[4], s[3], s[2], s[1], s[0]];
  }

  lemma {:induction false} MagicDigits(a: Byte, b: Byte, c: Byte, d: Byte)
    ensures Word(a, b, c, d) == MAGIC <==> a == 0x48 && b == 0x63 && c == 0x52 && d == 0x70
  {
  }

  lemma {:induction false} MagicMeaning(s: Bytes)
    requires |s| >= 4
    ensures MagicOk(s) <==> s[..4] == [0x48, 0x63, 0x52, 0x70]
  {
    FourBytes(s[..4]);
    MagicDigits(s[0], s[1], s[2], s[3]);
    assert s[..4] == [s[0], s[1], s[2], s[3]];
  }

  /** What the fixed fields of any twenty bytes mean. */
  lemma {:induction false} FixedMeaning(s: Bytes, r: Request)
    requires |s| >= HEADER_LEN
    ensures MagicOk(s) <==> s[..4] == [0x48, 0x63, 0x52, 0x70]
    ensures HeaderLen(s) == Word(s[16], s[17], s[18], s[19])
    ensures WithFixed(s, r).requestId == Word(s[8], s[9], s[10], s[11]) * TWO32 + Word(s[12], s[13], s[14], s[15])
  {
    MagicMeaning(s);
    FourBytes(s[16..20]);
    FourBytes(s[8..16][..4]);
    FourBytes(s[8..16][4..]);
    EightBytesBack(s[8..16]);
  }

  /** When the one-shot parser succeeds. */
  lemma {:induction false} OneShotOutcome(s: Bytes, r: Request)
    requires Readable(s)
    ensures ParseFrame(s, r).ok <==> |s| >= 20 && s[..4] == [0x48, 0x63, 0x52, 0x70] && BodyAt(s) <= |s|
  {
    MagicMeaning(s);
  }

  /** Every field of its result is the named stretch of the string. */
  lemma {:induction false} OneShotFields(s: Bytes, r: Request)
    requires Readable(s)
    ensures ParseFrame(s, r).ok ==>
      var p, h := ParseFrame(s, r).request, ParseHeader(s[20..Min(20 + HeaderLen(s), |s|)]).header;
      && p.version == s[4] && p.messageType == s[5] && p.status == s[6] && p.flag == s[7]
      && p.requestId == FromBigEndian(s[8..16]) && p.serviceName == h.serviceName && p.methodName == h.methodName
      && p.body == s[BodyAt(s)..Min(BodyAt(s) + h.argsSize, |s|)]
  {
  }

  /** Where the sections of a generated frame are found again. */
  lemma {:induction false} FrameSections(s: Bytes, r: Request, trailing: Bytes, r0: Request)
    requires Sendable(r) && s == Frame(r) + trailing
    ensures |s| >= HEADER_LEN && MagicOk(s)
    ensures HeaderLen(s) == |EncodeHeader(HeaderOf(r))| && BodyAt(s) == 20 + HeaderLen(s)
    ensures FrameHeader(s) == HeaderOf(r) && s[BodyAt(s)..] == r.body + trailing
    ensures WithFixed(s, r0) == r.(serviceName := r0.serviceName, methodName := r0.methodName, body := r0.body)
  {
    var h := EncodeHeader(HeaderOf(r));
    Sections(s, Fixed(r, |h|), h, r.body, trailing);
    FixedFields(r, |h|, h + r.body + trailing, r0);
    HeaderRoundTrip(HeaderOf(r));
  }

  lemma {:induction false} Sections(s: Bytes, f: Bytes, h: Bytes, b: Bytes, t: Bytes)
    requires s == f + h + b + t
    ensures s == f + (h + b + t) && Substr(s, |f|, |h|) == h && s[|f| + |h|..] == b + t
  {
  }

  lemma {:induction false} SubstrTail(s: Bytes, pos: nat, body: Bytes, trailing: Bytes, n: nat)
    requires pos <= |s| && s[pos..] == body + trailing && n <= |body|
    ensures Substr(s, pos, n) == body[..n]
  {
    assert s[pos..pos + n] == s[pos..][..n];
  }

  /**
   Parsing a generated frame with anything behind it gives every field back.  The length of the body is kept in 32
   bits, so a longer body is cut; the frame survives if and only if its body is shorter than 2^32.
   */
  lemma {:induction false} FrameRoundTrip(s: Bytes, r: Request, trailing: Bytes, r0: Request)
    requires Sendable(r) && s == Frame(r) + trailing
    ensures Readable(s) && ParseFrame(s, r0) == Parse(true, r.(body := r.body[..Low32(|r.body|)]))
    ensures ParseFrame(s, r0) == Parse(true, r) <==> |r.body| < TWO32
  {
    FrameSections(s, r, trailing, r0);
    var n := Low32(|r.body|);
    SubstrTail(s, BodyAt(s), r.body, trailing, n);
    BodyCut(r, n);
  }

  lemma {:induction false} BodyCut(r: Request, n: nat)
    requires n <= |r.body|
    ensures r.(body := r.body[..n]) == r <==> n == |r.body|
  {
    assert r.body[..|r.body|] == r.body;
  }

  // ---------------------------------------------------------------------------------------------
  // Parsing in stages

  /** What a stage says about the length of the next section; Abort stands for a failed assertion. */
  datatype Stage = Length(n: nat) | Abort

  /** A wrong magic number is reported as a header of length 0. */
  function StageHeader(s: Bytes): Stage
    requires |s| == HEADER_LEN
  {
    if !MagicOk(s) then Length(0) else if HeaderLen(s) > 65535 then Abort else Length(HeaderLen(s))
  }

  method ParserProtocalHeader(s: Bytes, r0: Request) returns (stage: Stage, r: Request)
    requires |s| == HEADER_LEN
    ensures stage == StageHeader(s) && r == if MagicOk(s) then WithFixed(s, r0) else r0
  {
    r := r0;
    LoadSwapped(s[..4]);
    if Swapped(FromLittleEndian(s[..4]), 4) != MAGIC {
      return Length(0), r;
    }
    var headerLen;
    headerLen, r := ReadFixed(s, r);
    stage := if headerLen <= 65535 then Length(headerLen) else Abort;
  }

  /** The length of the body is returned in 16 bits. */
  method ParserProtocalRpcHeader(s: Bytes, r0: Request) returns (length: nat, r: Request)
    ensures length == ParseHeader(s).header.argsSize % 65536 && r == WithHeader(ParseHeader(s).header, r0)
  {
    var argsSize;
    argsSize, r := ReadNames(s, r0);
    length := argsSize % 65536;
  }

  method ParserProtocalBody(s: Bytes, r0: Request) returns (r: Request)
    ensures r == r0.(body := s)
  {
    r := r0.(body := s);
  }

  /** What the three stages make of the sections of a frame. */
  function Staged(s: Bytes, headerLen: nat, bodyLen: nat, r: Request): Request
    requires HEADER_LEN + headerLen + bodyLen <= |s|
  {
    var fixed, header, body := s[..20], s[20..20 + headerLen], s[20 + headerLen..20 + headerLen + bodyLen];
    WithHeader(ParseHeader(header).header, if MagicOk(fixed) then WithFixed(fixed, r) else r).(body := body)
  }

  lemma {:induction false} FixedOnly(s: Bytes, r: Request)
    requires |s| >= HEADER_LEN
    ensures MagicOk(s[..20]) == MagicOk(s) && HeaderLen(s[..20]) == HeaderLen(s)
    ensures WithFixed(s[..20], r) == WithFixed(s, r)
  {
    assert s[..20][..4] == s[..4] && s[..20][8..16] == s[8..16] && s[..20][16..20] == s[16..20];
  }

  lemma {:induction false} BodySlices(s: Bytes, at: nat, n: nat)
    requires at + n <= |s|
    ensures Substr(s, at, n) == s[at..at + n % 65536] <==> n <= 65535
  {
    assert |Substr(s, at, n)| == n && |s[at..at + n % 65536]| == n % 65536;
  }

  /**
   On a complete frame with the right magic number the stages agree with the one-shot parser exactly when the body
   length they announce survives its 16 bits; they abort on longer protobuf headers.
   */
  lemma {:induction false} StagesAgree(s: Bytes, r: Request)
    requires |s| >= HEADER_LEN && MagicOk(s) && HEADER_LEN + HeaderLen(s) + FrameHeader(s).argsSize <= |s|
    requires HEADER_LEN + HeaderLen(s) < TWO32
    ensures StageHeader(s[..20]) == if HeaderLen(s) <= 65535 then Length(HeaderLen(s)) else Abort
    ensures var n := FrameHeader(s).argsSize;
      && ParseHeader(s[20..20 + HeaderLen(s)]).header.argsSize == n
      && (ParseFrame(s, r) == Parse(true, Staged(s, HeaderLen(s), n % 65536, r)) <==> n <= 65535)
  {
    var hl, n := HeaderLen(s), FrameHeader(s).argsSize;
    FixedOnly(s, r);
    BodySlices(s, 20 + hl, n);
    var r1 := WithHeader(FrameHeader(s), WithFixed(s, r));
    assert ParseFrame(s, r) == Parse(true, r1.(body := Substr(s, 20 + hl, n)));
    assert Staged(s, hl, n % 65536, r) == r1.(body := s[20 + hl..20 + hl + n % 65536]);
  }

  /** A generated frame alone, with a body shorter than 2^32 bytes. */
  lemma {:induction false} FrameAlone(r: Request, r0: Request)
    requires Sendable(r) && |r.body| < TWO32
    ensures var s, hl := Frame(r), |EncodeHeader(HeaderOf(r))|;
      && |s| == HEADER_LEN + hl + |r.body| && MagicOk(s) && HeaderLen(s) == hl && HEADER_LEN + hl < TWO32
      && FrameHeader(s).argsSize == |r.body| && ParseFrame(s, r0) == Parse(true, r)
  {
    var s := Frame(r);
    assert s + [] == s && r.body + [] == r.body;
    FrameSections(s, r, [], r0);
    FrameRoundTrip(s, r, [], r0);
    assert |s[BodyAt(s)..]| == |r.body|;
  }

  /** Fed with the sections of a generated frame, the stages give back the request that was sent, every field of it. */
  lemma {:induction false} StagedRoundTrip(r: Request, r0: Request)
    requires Sendable(r) && |EncodeHeader(HeaderOf(r))| <= 65535 && |r.body| <= 65535
    ensures var s, hl := Frame(r), |EncodeHeader(HeaderOf(r))|;
      && |s| == HEADER_LEN + hl + |r.body| && StageHeader(s[..20]) == Length(hl)
      && ParseHeader(s[20..20 + hl]).header.argsSize % 65536 == |r.body|
      && Staged(s, hl, |r.body|, r0) == r
  {
    FrameAlone(r, r0);
    SmallSections(Frame(r), |EncodeHeader(HeaderOf(r))|, |r.body|, r, r0);
  }

  lemma {:induction false} SmallSections(s: Bytes, hl: nat, n: nat, r: Request, r0: Request)
    requires |s| == HEADER_LEN + hl + n && MagicOk(s) && HeaderLen(s) == hl <= 65535
    requires FrameHeader(s).argsSize == n <= 65535 && ParseFrame(s, r0) == Parse(true, r)
    ensures StageHeader(s[..20]) == Length(hl) && ParseHeader(s[20..20 + hl]).header.argsSize % 65536 == n
    ensures Staged(s, hl, n, r0) == r
  {
    assert n % 65536 == n;
    StagesAgree(s, r0);
  }

  /** The request of a client that sends nothing but a body of so many zeros. */
  function Zeros(n: nat): Request { Request(0, 0, 0, 0, 0, [], [], Repeat(0, n)) }

  lemma {:induction false} ZerosSendable(n: nat)
    ensures Sendable(Zeros(n)) && |EncodeHeader(HeaderOf(Zeros(n)))| <= 6
  {
    EncodedSize(Low32(n));
    Pow256Four();
  }

  /** The stages lose a body of 65536 bytes altogether: they announce a length of 0. */
  lemma {:induction false} LongBodyLost(r0: Request)
    ensures var r := Zeros(65536); var s, hl := Frame(r), |EncodeHeader(HeaderOf(r))|;
      && |s| >= HEADER_LEN + hl && StageHeader(s[..20]) == Length(hl)
      && ParseHeader(s[20..20 + hl]).header.argsSize % 65536 == 0
      && Staged(s, hl, 0, r0) != r && Readable(s) && ParseFrame(s, r0) == Parse(true, r)
  {
    ZerosSendable(65536);
    FrameAlone(Zeros(65536), r0);
    StagesAgree(Frame(Zeros(65536)), r0);
  }

  /** A body of 2^32 bytes arrives empty. */
  lemma {:induction false} HugeBodyLost(r0: Request)
    ensures var r := Zeros(TWO32);
      Readable(Frame(r)) && ParseFrame(Frame(r), r0) == Parse(true, r.(body := [])) && r.body != []
  {
    var r := Zeros(TWO32);
    ZerosSendable(TWO32);
    assert Frame(r) + [] == Frame(r) && r.body[..0] == [];
    FrameRoundTrip(Frame(r), r, [], r0);
  }

  /** The stages do not notice a wrong magic number, the one-shot parser refuses it. */
  lemma {:induction false} BadMagicUnnoticed(s: Bytes, r: Request)
    requires |s| == HEADER_LEN && !MagicOk(s)
    ensures !ParseFrame(s, r).ok && StageHeader(s) == Length(0)
  {
  }
}
