/** Client packets: `Cbor::encodeArray` against the event-driven `PacketBuilder` and the buffer handling of
    `ClientSocket::handleBuffer`. */
module Packets {
  import opened Basics
  import opened Cbor

  // ---------------------------------------------------------------- writing

  datatype Value = VInt(n: int) | VBytes(data: seq<byte>) | VText(data: seq<byte>) | VBool(b: bool)

  /** What the C++ variant can hold: signed and unsigned integers up to 64 bits, strings by size. */
  predicate Writable(v: Value) {
    match v
    case VInt(n) => -0x8000_0000_0000_0000 <= n < W64
    case VBytes(data) => |data| < W64
    case VText(data) => |data| < W64
    case VBool(_) => true
  }

  predicate AllWritable(vs: seq<Value>) {
    forall i :: 0 <= i < |vs| ==> Writable(vs[i])
  }

  function EventOf(v: Value): (e: Event)
    requires Writable(v)
    ensures Canonical(e)
  {
    match v
    case VInt(n) => if n >= 0 then UintEvent(n) else NegEvent(-1 - n)
    case VBytes(data) => Bytes(data)
    case VText(data) => Text(data)
    case VBool(b) => Bool(b)
  }

  function EventsOf(vs: seq<Value>): (es: seq<Event>)
    requires AllWritable(vs)
    ensures |es| == |vs| && AllCanonical(es) && forall i :: 0 <= i < |vs| ==> es[i] == EventOf(vs[i])
  {
    seq(|vs|, i requires 0 <= i < |vs| => EventOf(vs[i]))
  }

  function ArrayEvents(vs: seq<Value>): (es: seq<Event>)
    requires AllWritable(vs) && |vs| < W64
    ensures AllCanonical(es)
  {
    [ArrayStart(|vs|)] + EventsOf(vs)
  }

  // ---------------------------------------------------------------- what a reader finds

  /** The value that an item stands for; heads of containers and what is ignored are none. */
  function ValueOf(e: Event): Option<Value> {
    match e
    case Uint(_, n) => Some(VInt(n))
    case NegInt(_, n) => Some(VInt(-1 - n))
    case Bytes(data) => Some(VBytes(data))
    case Text(data) => Some(VText(data))
    case Bool(b) => Some(VBool(b))
    case _ => None
  }

  /** The values of all the bytes, if they are whole items and all of them values. */
  function Values(s: seq<byte>): Option<seq<Value>>
    decreases |s|
  {
    if s == [] then Some([])
    else match Decode(s)
      case Item(e, read) =>
        var rest := Values(s[read..]);
        if ValueOf(e).None? || rest.None? then None else Some([ValueOf(e).value] + rest.value)
      case _ => None
  }

  /** An array head for as many values as there are, and then exactly these. */
  predicate Reads(s: seq<byte>, vs: seq<Value>) {
    var head := Decode(s);
    head.Item? && head.event == ArrayStart(|vs|) && Values(s[head.read..]) == Some(vs)
  }

  lemma EventStandsFor(v: Value)
    requires Writable(v)
    ensures ValueOf(EventOf(v)) == Some(v)
  {
  }

  lemma {:induction false} ValuesRead(vs: seq<Value>)
    requires AllWritable(vs)
    ensures Values(EncodeAll(EventsOf(vs))) == Some(vs)
    decreases |vs|
  {
    hide Decode, Encode, EventOf, ValueOf, Writable;
    var es := EventsOf(vs);
    if vs != [] {
      var head := Encode(es[0]);
      assert es[1..] == EventsOf(vs[1..]);
      ItemRoundTrip(es[0], EncodeAll(es[1..]));
      assert EncodeAll(es)[|head|..] == EncodeAll(es[1..]);
      EventStandsFor(vs[0]);
      ValuesRead(vs[1..]);
      assert [vs[0]] + vs[1..] == vs;
    }
  }

  /** Whatever values are written, a reader of the bytes finds these values, in order, and nothing else. */
  lemma ArrayRoundTrip(vs: seq<Value>)
    requires AllWritable(vs) && |vs| < W64
    ensures Reads(EncodeAll(ArrayEvents(vs)), vs)
  {
    hide Decode, Encode, EventsOf, Values;
    var es := ArrayEvents(vs);
    assert es[1..] == EventsOf(vs);
    ItemRoundTrip(es[0], EncodeAll(es[1..]));
    assert EncodeAll(es)[|Encode(es[0])|..] == EncodeAll(es[1..]);
    ValuesRead(vs);
  }

  method EncodeValue(v: Value) returns (out: seq<byte>)
    requires Writable(v)
    ensures out == Encode(EventOf(v))
  {
    hide Head;
    match v
    case VInt(n) =>
      if n >= 0 {
        out := Head(0, n);
      } else {
        out := Head(1, -1 - n);
      }
    case VBytes(data) =>
      AddMajor(2, |data|);
      out := WithMajor(Head(0, |data|), 0x40) + data;
    case VText(data) =>
      AddMajor(3, |data|);
      out := WithMajor(Head(0, |data|), 0x60) + data;
    case VBool(b) =>
      out := [if b then 0xF5 else 0xF4];
  }

  /** The bytes written are those of an array head and one item per value, which a reader takes for the very
      values. */
  method EncodeArray(vs: seq<Value>) returns (out: seq<byte>)
    requires AllWritable(vs) && |vs| < W64
    ensures out == EncodeAll(ArrayEvents(vs)) && Reads(out, vs)
  {
    hide Head, Encode, EventOf, EncodeAll, Canonical, Reads;
    ArrayRoundTrip(vs);
    ghost var es := ArrayEvents(vs);
    AddMajor(4, |vs|);
    out := WithMajor(Head(0, |vs|), 0x80);
    assert es[..1] == [es[0]];
    EncodeAllSingle(es[0]);
    assert Encode(ArrayStart(|vs|)) == Head(4, |vs|) by {
      ArrayHead(|vs|);
    }
    for i := 0 to |vs|
      invariant out == EncodeAll(es[..i + 1])
    {
      var one := EncodeValue(vs[i]);
      EncodeAllSingle(es[i + 1]);
      EncodeAllConcat(es[..i + 1], [es[i + 1]]);
      assert es[..i + 2] == es[..i + 1] + [es[i + 1]];
      out := out + one;
    }
    assert es[..|vs| + 1] == es;
  }

  lemma ArrayHead(n: nat)
    requires n < W64
    ensures Encode(ArrayStart(n)) == Head(4, n)
  {
  }

  // ---------------------------------------------------------------- packets

  datatype Timing = Untimed | Timed(timeout: int, timestamp: int)

  datatype Packet = Packet(requestId: int, type_: int, command: seq<byte>, data: seq<byte>, timing: Timing)

  predicate Sendable(p: Packet) {
    && IsInt32(p.requestId) && IsInt32(p.type_) && |p.command| < W64 && |p.data| < W64
    && (p.timing.Timed? ==> IsInt32(p.timing.timeout) && IsInt64(p.timing.timestamp))
  }

  /** The fields in the order of the wire. */
  function Fields(p: Packet): (vs: seq<Value>)
    requires Sendable(p)
    ensures AllWritable(vs) && |vs| == if p.timing.Timed? then 6 else 4
  {
    [VInt(p.requestId), VInt(p.type_), VBytes(p.command), VBytes(p.data)]
    + if p.timing.Timed? then [VInt(p.timing.timeout), VInt(p.timing.timestamp)] else []
  }

  function PacketEvents(p: Packet): (es: seq<Event>)
    requires Sendable(p)
    ensures AllCanonical(es) && |es| == 1 + |Fields(p)|
  {
    ArrayEvents(Fields(p))
  }

  function EncodePacket(p: Packet): seq<byte>
    requires Sendable(p)
  {
    EncodeAll(PacketEvents(p))
  }

  // ---------------------------------------------------------------- the builder, as a function

  datatype Message = Message(
    requestId: int, type_: int, timeout: int, len: int, timestamp: int, command: seq<byte>, data: seq<byte>)

  /** `delivered` logs the calls of the message callback. */
  datatype Builder = Builder(pkt: Message, field: nat, valid: bool, handled: nat, delivered: seq<Message>)

  function Reset(b: Builder): Builder {
    b.(pkt := b.pkt.(type_ := 0, len := 0, command := [], data := []), field := 0, valid := false)
  }

  function NextField(b: Builder): Builder {
    if b.field + 1 == b.pkt.len
    then Reset(b.(handled := b.handled + 1, delivered := b.delivered + [b.pkt]))
    else b.(field := b.field + 1)
  }

  function HandleInteger(b: Builder, value: int): Builder {
    if !b.valid then b
    else match b.field
      case 0 => NextField(b.(pkt := b.pkt.(requestId := ToInt32(value))))
      case 1 => NextField(b.(pkt := b.pkt.(type_ := ToInt32(value))))
      case 4 => NextField(b.(pkt := b.pkt.(timeout := ToInt32(value))))
      case 5 => NextField(b.(pkt := b.pkt.(timestamp := value)))
      case _ => b.(valid := false)
  }

  function HandleBytes(b: Builder, data: seq<byte>): Builder {
    if !b.valid then b
    else match b.field
      case 2 => NextField(b.(pkt := b.pkt.(command := data)))
      case 3 => NextField(b.(pkt := b.pkt.(data := data)))
      case _ => b.(valid := false)
  }

  function StartArray(b: Builder, size: nat): Builder {
    b.(pkt := b.pkt.(len := ToInt32(size)), valid := size == 4 || size == 6)
  }

  function OnEvent(b: Builder, e: Event): Builder {
    match e
    case Uint(width, n) => HandleInteger(b, CallbackInt(false, width, n))
    case NegInt(width, n) => HandleInteger(b, CallbackInt(true, width, n))
    case Bytes(data) => HandleBytes(b, data)
    case ArrayStart(size) => StartArray(b, size)
    case _ => b
  }

  function OnEvents(b: Builder, es: seq<Event>): Builder {
    if es == [] then b else OnEvent(OnEvents(b, es[..|es| - 1]), es[|es| - 1])
  }

  // ---------------------------------------------------------------- the buffer, as a function

  datatype Status = NoData | Error

  /** Where the decode loop stops: `left` bytes are not decoded, `settled` is `real_consumed`. */
  datatype Run = Run(builder: Builder, left: nat, settled: nat, status: Status)

  function Drain(b: Builder, s: seq<byte>, total: nat, settled: nat): Run
    decreases |s|
  {
    match Decode(s)
    case Malformed => Run(b, |s|, settled, Error)
    case NeedData => Run(b, |s|, settled, NoData)
    case Item(e, read) =>
      var b' := OnEvent(b, e);
      Drain(b', s[read..], total + read, if b'.handled != 0 then total + read else settled)
  }

  /** The members of a local packet are indeterminate until they are read. */
  function FreshBuilder(junk: Message): Builder {
    Reset(Builder(junk, 0, false, 0, []))
  }

  datatype Outcome = Outcome(delivered: seq<Message>, buffer: seq<byte>, status: Status)

  function HandleBuffer(bytes: seq<byte>, junk: Message): Outcome {
    var run := Drain(FreshBuilder(junk), bytes, 0, 0);
    var b := run.builder;
    var keep :=
      if run.status == Error || (b.handled == 0 && !b.valid) then bytes
      else if run.settled < run.left && run.settled <= |bytes| then bytes[run.settled..]
      else [];
    Outcome(b.delivered, keep, run.status)
  }
}
