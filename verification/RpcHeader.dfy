/**
 The protobuf message RpcHeader (src/Rpc/generic_rpc.pb.cc): service_name = 1, method_name = 2, args_size = 3.

 Lengths and tags follow "Base 128 Varints" and "Length-Delimited Records" of the Protocol Buffers Encoding
 specification; proto3 leaves out fields that hold their default value.
 */
module RpcHeader {
  import opened Common
  import opened Varint

  datatype Header = Header(serviceName: Bytes, methodName: Bytes, argsSize: Uint32)

  const EMPTY := Header([], [], 0)

  /** The runtime refuses longer strings. */
  const LENGTH_LIMIT: nat := 0x7FFF_FFFF - 16

  /** How parsing ends: at the end of the input, at a tag that ends a group, or by an error. */
  datatype Outcome = Done | EndTag | Failed

  // ---------------------------------------------------------------------------------------------
  // The wire format

  function Delimited(tag: Byte, s: Bytes): Bytes { [tag] + Encode(|s|) + s }

  function EncodeHeader(h: Header): Bytes {
    (if h.serviceName != [] then Delimited(10, h.serviceName) else [])
    + (if h.methodName != [] then Delimited(18, h.methodName) else [])
    + (if h.argsSize != 0 then [24] + Encode(h.argsSize) else [])
  }

  datatype Field = Field(content: Bytes, rest: Bytes)

  /** A length and that many bytes. */
  function ReadDelimited(s: Bytes): (r: Option<Field>)
    ensures r.Some? ==> |r.value.rest| < |s|
  {
    match Decode(s, 5)
    case None => None
    case Some(r) =>
      if r.value >= LENGTH_LIMIT || r.value > |r.rest| then None
      else Some(Field(r.rest[..r.value], r.rest[r.value..]))
  }

  /** What the runtime skips over for a field the message does not declare; groups are not part of this model. */
  function SkipField(tag: nat, s: Bytes): (r: Option<Bytes>)
    ensures r.Some? ==> |r.value| <= |s|
  {
    if tag / 8 == 0 then None
    else match tag % 8
      case 0 => (match Decode(s, 10) case None => None case Some(r) => Some(r.rest))
      case 1 => if |s| < 8 then None else Some(s[8..])
      case 2 => (match ReadDelimited(s) case None => None case Some(f) => Some(f.rest))
      case 5 => if |s| < 4 then None else Some(s[4..])
      case _ => None
  }

  /** The effect of one field on the message. */
  datatype Parsed = Parsed(header: Header, outcome: Outcome)

  function ParseFrom(h: Header, s: Bytes): Parsed
    decreases |s|
  {
    if s == [] then Parsed(h, Done)
    else
      match Decode(s, 5)
      case None => Parsed(h, Failed)
      case Some(t) =>
        var tag := Low32(t.value);
        if tag == 10 then
          match ReadDelimited(t.rest)
          case None => Parsed(h, Failed)
          case Some(f) => ParseFrom(h.(serviceName := f.content), f.rest)
        else if tag == 18 then
          match ReadDelimited(t.rest)
          case None => Parsed(h, Failed)
          case Some(f) => ParseFrom(h.(methodName := f.content), f.rest)
        else if tag == 24 then
          match Decode(t.rest, 10)
          case None => Parsed(h, Failed)
          case Some(r) => ParseFrom(h.(argsSize := Low32(r.value)), r.rest)
        else if tag == 0 || tag % 8 == 4 then Parsed(h, EndTag)
        else
          match SkipField(tag, t.rest)
          case None => Parsed(h, Failed)
          case Some(rest) => ParseFrom(h, rest)
  }

  function ParseHeader(s: Bytes): Parsed { ParseFrom(EMPTY, s) }

  // ---------------------------------------------------------------------------------------------
  // Round trip

  predicate Encodable(h: Header) { |h.serviceName| < LENGTH_LIMIT && |h.methodName| < LENGTH_LIMIT }

  lemma {:induction false} DelimitedRoundTrip(s: Bytes, rest: Bytes)
    requires |s| < LENGTH_LIMIT
    ensures ReadDelimited(Encode(|s|) + s + rest) == Some(Field(s, rest))
  {
    FiveBytes(|s|, 5);
    RoundTrip(|s|, 5, s + rest);
    assert Encode(|s|) + s + rest == Encode(|s|) + (s + rest);
  }

  lemma {:induction false} TagRead(tag: Byte, rest: Bytes)
    requires tag < 128
    ensures Decode([tag] + rest, 5) == Some(Read(tag, rest))
  {
    assert ([tag] + rest)[1..] == rest;
  }

  lemma {:induction false} TagFirst(tag: Byte, a: Bytes, b: Bytes, rest: Bytes)
    ensures [tag] + a + b + rest == [tag] + (a + b + rest)
  {
  }

  lemma {:induction false} ServiceField(h: Header, s: Bytes, rest: Bytes)
    requires |s| < LENGTH_LIMIT
    ensures ParseFrom(h, Delimited(10, s) + rest) == ParseFrom(h.(serviceName := s), rest)
    ensures ParseFrom(h, Delimited(18, s) + rest) == ParseFrom(h.(methodName := s), rest)
  {
    DelimitedRoundTrip(s, rest);
    TagRead(10, Encode(|s|) + s + rest);
    TagRead(18, Encode(|s|) + s + rest);
    TagFirst(10, Encode(|s|), s, rest);
    TagFirst(18, Encode(|s|), s, rest);
  }

  lemma {:induction false} ArgsField(h: Header, n: nat, rest: Bytes)
    requires n < Pow128(10)
    ensures ParseFrom(h, [24] + Encode(n) + rest) == ParseFrom(h.(argsSize := Low32(n)), rest)
  {
    RoundTrip(n, 10, rest);
    TagRead(24, Encode(n) + rest);
    TagFirst(24, Encode(n), [], rest);
    assert Encode(n) + [] == Encode(n) && [24] + Encode(n) + [] == [24] + Encode(n);
  }

  /** A string field that is left out when it is empty. */
  lemma {:induction false} OptionalNames(h: Header, s: Bytes, rest: Bytes)
    requires |s| < LENGTH_LIMIT
    ensures h.serviceName == [] ==>
              ParseFrom(h, (if s != [] then Delimited(10, s) else []) + rest) == ParseFrom(h.(serviceName := s), rest)
    ensures h.methodName == [] ==>
              ParseFrom(h, (if s != [] then Delimited(18, s) else []) + rest) == ParseFrom(h.(methodName := s), rest)
  {
    if s != [] {
      ServiceField(h, s, rest);
    } else {
      assert [] + rest == rest;
    }
  }

  /** The last field, left out when it is zero. */
  lemma {:induction false} OptionalArgs(h: Header, n: Uint32)
    requires h.argsSize == 0
    ensures ParseFrom(h, if n != 0 then [24] + Encode(n) else []) == Parsed(h.(argsSize := n), Done)
  {
    if n != 0 {
      FiveBytes(n, 10);
      ArgsField(h, n, []);
      assert [24] + Encode(n) + [] == [24] + Encode(n);
    }
  }

  /** Parsing an encoded header gives it back, defaults included. */
  lemma {:induction false} HeaderRoundTrip(h: Header)
    requires Encodable(h)
    ensures ParseHeader(EncodeHeader(h)) == Parsed(h, Done)
  {
    var a := if h.serviceName != [] then Delimited(10, h.serviceName) else [];
    var b := if h.methodName != [] then Delimited(18, h.methodName) else [];
    var c := if h.argsSize != 0 then [24] + Encode(h.argsSize) else [];
    assert EncodeHeader(h) == a + (b + c);
    OptionalNames(EMPTY, h.serviceName, b + c);
    OptionalNames(EMPTY.(serviceName := h.serviceName), h.methodName, c);
    OptionalArgs(Header(h.serviceName, h.methodName, 0), h.argsSize);
  }

  // ---------------------------------------------------------------------------------------------
  // Messages as sequences of records

  /** The records of "Message Structure" in the same specification, with the number of their field. */
  datatype Record =
    | Number(field: nat, value: nat)
    | Fixed64(field: nat, bytes: Bytes)
    | Text(field: nat, bytes: Bytes)
    | Fixed32(field: nat, bytes: Bytes)

  function WireType(r: Record): nat {
    match r case Number(_, _) => 0 case Fixed64(_, _) => 1 case Text(_, _) => 2 case Fixed32(_, _) => 5
  }

  function Tag(r: Record): nat { 8 * r.field + WireType(r) }

  function Payload(r: Record): Bytes {
    match r
    case Number(_, value) => Encode(value)
    case Text(_, bytes) => Encode(|bytes|) + bytes
    case _ => r.bytes
  }

  function Wire(rs: seq<Record>): Bytes {
    if rs == [] then [] else Encode(Tag(rs[0])) + Payload(rs[0]) + Wire(rs[1..])
  }

  /** Field numbers have 29 bits, numbers 64, and strings are as long as the runtime takes them. */
  predicate Legal(r: Record) {
    && 0 < r.field < 0x2000_0000
    && match r
       case Number(_, value) => value < Pow128(10)
       case Fixed64(_, bytes) => |bytes| == 8
       case Text(_, bytes) => |bytes| < LENGTH_LIMIT
       case Fixed32(_, bytes) => |bytes| == 4
  }

  /** The message declares service_name = 1, method_name = 2 and args_size = 3; a record of another kind is unknown. */
  function AppliedOne(h: Header, r: Record): Header {
    match r
    case Text(1, bytes) => h.(serviceName := bytes)
    case Text(2, bytes) => h.(methodName := bytes)
    case Number(3, value) => h.(argsSize := Low32(value))
    case _ => h
  }

  function Applied(h: Header, rs: seq<Record>): Header
    decreases |rs|
  {
    if rs == [] then h else Applied(AppliedOne(h, rs[0]), rs[1..])
  }

  /** The records of a header: the fields that do not hold their default, by number. */
  function Records(h: Header): seq<Record> {
    (if h.serviceName != [] then [Text(1, h.serviceName)] else [])
    + (if h.methodName != [] then [Text(2, h.methodName)] else [])
    + (if h.argsSize != 0 then [Number(3, h.argsSize)] else [])
  }

  lemma {:induction false} WireConcat(rs: seq<Record>, more: seq<Record>)
    ensures Wire(rs + more) == Wire(rs) + Wire(more)
  {
    if rs == [] {
      assert rs + more == more;
    } else {
      assert (rs + more)[1..] == rs[1..] + more;
      WireConcat(rs[1..], more);
      Associate(Encode(Tag(rs[0])) + Payload(rs[0]), Wire(rs[1..]), Wire(more));
    }
  }

  lemma {:induction false} WireOne(r: Record)
    ensures Wire([r]) == Encode(Tag(r)) + Payload(r)
  {
    assert [r][1..] == [] && Encode(Tag(r)) + Payload(r) + [] == Encode(Tag(r)) + Payload(r);
  }

  /** What is serialized is the wire format of the header's records. */
  lemma {:induction false} HeaderOnWire(h: Header)
    ensures EncodeHeader(h) == Wire(Records(h))
  {
    var a := if h.serviceName != [] then [Text(1, h.serviceName)] else [];
    var b := if h.methodName != [] then [Text(2, h.methodName)] else [];
    var c := if h.argsSize != 0 then [Number(3, h.argsSize)] else [];
    WireConcat(a + b, c);
    WireConcat(a, b);
    WireOne(Text(1, h.serviceName));
    WireOne(Text(2, h.methodName));
    WireOne(Number(3, h.argsSize));
    Associate([10], Encode(|h.serviceName|), h.serviceName);
    Associate([18], Encode(|h.methodName|), h.methodName);
  }

  /** An unknown record is skipped. */
  lemma {:induction false} Skipped(r: Record, rest: Bytes)
    requires Legal(r)
    ensures SkipField(Tag(r), Payload(r) + rest) == Some(rest)
  {
    assert Tag(r) / 8 == r.field && Tag(r) % 8 == WireType(r);
    match r
    case Number(_, value) => RoundTrip(value, 10, rest);
    case Text(_, bytes) => DelimitedRoundTrip(bytes, rest);
    case _ =>
  }

  lemma {:induction false} TagOf(r: Record, rest: Bytes)
    requires Legal(r)
    ensures Decode(Encode(Tag(r)) + rest, 5) == Some(Read(Tag(r), rest)) && Low32(Tag(r)) == Tag(r)
    ensures 0 < Tag(r) && Tag(r) % 8 == WireType(r) && Tag(r) / 8 == r.field
  {
    FiveBytes(Tag(r), 5);
    RoundTrip(Tag(r), 5, rest);
  }

  /** A record of a declared field and type is read. */
  lemma {:induction false} DeclaredRecord(h: Header, r: Record, rest: Bytes)
    requires Legal(r) && (Tag(r) == 10 || Tag(r) == 18 || Tag(r) == 24)
    ensures ParseFrom(h, Encode(Tag(r)) + (Payload(r) + rest)) == ParseFrom(AppliedOne(h, r), rest)
  {
    assert Tag(r) / 8 == r.field && Tag(r) % 8 == WireType(r);
    assert Encode(Tag(r)) == [Tag(r)];
    if r.Text? {
      ServiceField(h, r.bytes, rest);
      TagFirst(Tag(r), Encode(|r.bytes|), r.bytes, rest);
    } else {
      ArgsField(h, r.value, rest);
      TagFirst(Tag(r), Encode(r.value), [], rest);
      assert Encode(r.value) + [] == Encode(r.value) && [24] + Encode(r.value) + [] == [24] + Encode(r.value);
    }
  }

  /** Any other record is skipped. */
  lemma {:induction false} OtherRecord(h: Header, r: Record, rest: Bytes)
    requires Legal(r) && Tag(r) != 10 && Tag(r) != 18 && Tag(r) != 24
    ensures ParseFrom(h, Encode(Tag(r)) + (Payload(r) + rest)) == ParseFrom(h, rest) && AppliedOne(h, r) == h
  {
    TagOf(r, Payload(r) + rest);
    Skipped(r, rest);
  }

  lemma {:induction false} OneRecord(h: Header, r: Record, rest: Bytes)
    requires Legal(r)
    ensures ParseFrom(h, Encode(Tag(r)) + (Payload(r) + rest)) == ParseFrom(AppliedOne(h, r), rest)
  {
    if Tag(r) == 10 || Tag(r) == 18 || Tag(r) == 24 {
      DeclaredRecord(h, r, rest);
    } else {
      OtherRecord(h, r, rest);
    }
  }

  /**
   What parsing makes of any message, in any order, with repeated, missing and unknown fields: the last record of a
   declared field and type counts, numbers are cut to 32 bits, and the rest is skipped.
   */
  lemma {:induction false} ParsesRecords(h: Header, rs: seq<Record>)
    requires forall i :: 0 <= i < |rs| ==> Legal(rs[i])
    ensures ParseFrom(h, Wire(rs)) == Parsed(Applied(h, rs), Done)
    decreases |rs|
  {
    if rs != [] {
      OneRecord(h, rs[0], Wire(rs[1..]));
      Associate(Encode(Tag(rs[0])), Payload(rs[0]), Wire(rs[1..]));
      ParsesRecords(AppliedOne(h, rs[0]), rs[1..]);
    }
  }

  /** A string that is shorter than announced is an error. */
  lemma {:induction false} ShortTextFails(h: Header, field: nat, n: nat, s: Bytes)
    requires 0 < field < 0x2000_0000 && |s| < n < TWO32
    ensures ParseFrom(h, Encode(8 * field + 2) + (Encode(n) + s)).outcome == Failed
  {
    var tag := 8 * field + 2;
    FiveBytes(tag, 5);
    RoundTrip(tag, 5, Encode(n) + s);
    FiveBytes(n, 5);
    RoundTrip(n, 5, s);
    assert tag % 8 == 2 && tag / 8 == field;
  }

  // ---------------------------------------------------------------------------------------------
  // The message object

  class Message {
    var serviceName: Bytes
    var methodName: Bytes
    var argsSize: Uint32

    function Value(): Header
      reads this
    {
      Header(serviceName, methodName, argsSize)
    }

    constructor ()
      ensures Value() == EMPTY
    {
      serviceName, methodName, argsSize := [], [], 0;
    }

    method Clear()
      modifies this
      ensures Value() == EMPTY
    {
      serviceName, methodName, argsSize := [], [], 0;
    }

    /** The parse loop: p is what the pointer still has in front of it. */
    method InternalParse(s: Bytes) returns (outcome: Outcome)
      modifies this
      ensures Parsed(Value(), outcome) == ParseFrom(old(Value()), s)
    {
      var p := s;
      while p != []
        invariant ParseFrom(Value(), p) == ParseFrom(old(Value()), s)
        decreases |p|
      {
        var t := Decode(p, 5);
        if t.None? { return Failed; }
        p := t.value.rest;
        var tag := Low32(t.value.value);
        if tag == 10 {
          var f := ReadDelimited(p);
          if f.None? { return Failed; }
          serviceName, p := f.value.content, f.value.rest;
        } else if tag == 18 {
          var f := ReadDelimited(p);
          if f.None? { return Failed; }
          methodName, p := f.value.content, f.value.rest;
        } else if tag == 24 {
          var r := Decode(p, 10);
          if r.None? { return Failed; }
          argsSize, p := Low32(r.value.value), r.value.rest;
        } else if tag == 0 || tag % 8 == 4 {
          return EndTag;
        } else {
          var rest := SkipField(tag, p);
          if rest.None? { return Failed; }
          p := rest.value;
        }
      }
      outcome := Done;
    }

    method ParseFromString(s: Bytes) returns (ok: bool)
      modifies this
      ensures Value() == ParseHeader(s).header && (ok <==> ParseHeader(s).outcome == Done)
    {
      Clear();
      var outcome := InternalParse(s);
      ok := outcome == Done;
    }

    method InternalSerialize() returns (target: Bytes)
      ensures target == EncodeHeader(Value())
    {
      target := [];
      if serviceName != [] {
        target := target + Delimited(10, serviceName);
      }
      if methodName != [] {
        target := target + Delimited(18, methodName);
      }
      if argsSize != 0 {
        target := target + ([24] + Encode(argsSize));
      }
    }

    /** The size computed before serializing is the number of bytes written. */
    method ByteSizeLong() returns (total: nat)
      requires |serviceName| < TWO32 && |methodName| < TWO32
      ensures total == |EncodeHeader(Value())|
    {
      total := 0;
      EncodedSize(|serviceName|);
      EncodedSize(|methodName|);
      EncodedSize(argsSize);
      if serviceName != [] {
        total := total + 1 + Size32(|serviceName|) + |serviceName|;
      }
      if methodName != [] {
        total := total + 1 + Size32(|methodName|) + |methodName|;
      }
      if argsSize != 0 {
        total := total + 1 + Size32(argsSize);
      }
    }
  }
}
