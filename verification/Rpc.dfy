/** JSON-RPC 2.0 between the server and the Lua process: a CBOR map with integer keys.  The writers of
    requests, the event-driven packet builder and the reader, as functions. */
module Rpc {
  import opened Basics
  import opened Cbor

  // JSON-RPC member names and error members, as numbers
  const JSONRPC := 100
  const METHOD := 101
  const PARAMS := 102
  const ERROR := 103
  const ID := 104
  const RESULT := 105
  const ERROR_CODE := 200
  const ERROR_MESSAGE := 201
  const ERROR_DATA := 202

  /** The protocol version, as bytes. */
  const VERSION: seq<byte> := [0x32, 0x2E, 0x30]

  datatype Param = PInt(n: int) | PInt64(n: int) | PBytes(data: seq<byte>) | PBool(b: bool) | PNull

  /** A packet has five parameter slots; `count` of them are meant. */
  datatype Call = Call(id: int, count: nat, name: seq<byte>, params: seq<Param>, errorCode: int, errorMessage: seq<byte>)

  predicate Slots(c: Call) {
    |c.params| == 5
  }

  const BLANK := Call(-1, 0, [], [PNull, PNull, PNull, PNull, PNull], 0, [])

  /** `JsonRpcPacket::reset` leaves the parameter slots alone. */
  function ResetCall(c: Call): Call {
    c.(id := -1, count := 0, name := [], errorCode := 0, errorMessage := [])
  }

  // ---------------------------------------------------------------- making requests

  /** Parameters up to the first null. */
  function Given(ps: seq<Param>): (r: seq<Param>)
    ensures |r| <= |ps| && forall i :: 0 <= i < |r| ==> r[i] == ps[i] && !r[i].PNull?
    ensures |r| < |ps| ==> ps[|r|].PNull?
  {
    if ps == [] || ps[0].PNull? then [] else [ps[0]] + Given(ps[1..])
  }

  function Notification(name: seq<byte>, a: Param, b: Param, c: Param): Call {
    if a.PNull? then BLANK.(name := name)
    else if b.PNull? then BLANK.(name := name, count := 1, params := [a, PNull, PNull, PNull, PNull])
    else if c.PNull? then BLANK.(name := name, count := 2, params := [a, b, PNull, PNull, PNull])
    else BLANK.(name := name, count := 3, params := [a, b, c, PNull, PNull])
  }

  const LAST_ID := 10_000_000

  /** The request and the next free id. */
  function Request(name: seq<byte>, a: Param, b: Param, c: Param, id: int, nextId: int): (Call, int) {
    var call := Notification(name, a, b, c);
    if id != -1 then (call.(id := id), nextId)
    else (call.(id := nextId), if nextId + 1 > LAST_ID then 1 else nextId + 1)
  }

  // ---------------------------------------------------------------- writing requests

  /** Ids and integer parameters are converted to an unsigned 64-bit argument. */
  function ToUint64(n: int): (r: nat)
    ensures r < W64
  {
    n % W64
  }

  /** A 64-bit parameter has no branch in the writer: nothing is written for it.  A null is written, but the
      reader has no callback for it. */
  function ParamEvents(p: Param): seq<Event> {
    match p
    case PInt(n) => [if n >= 0 then UintEvent(n) else NegEvent(-1 - n)]
    case PInt64(_) => []
    case PBytes(data) => [Bytes(data)]
    case PBool(b) => [Bool(b)]
    case PNull => [Null]
  }

  function ParamsEvents(ps: seq<Param>): seq<Event> {
    if ps == [] then [] else ParamEvents(ps[0]) + ParamsEvents(ps[1..])
  }

  predicate WritableParam(p: Param) {
    match p
    case PInt(n) => IsInt32(n)
    case PInt64(n) => IsInt64(n)
    case PBytes(data) => |data| < W64
    case PBool(_) => true
    case PNull => true
  }

  /** What the C++ types of a request allow, and what `request` makes of its arguments. */
  predicate Sendable(c: Call) {
    && IsInt32(c.id) && |c.name| < W64 && c.count <= 3 && Slots(c)
    && forall i :: 0 <= i < c.count ==> WritableParam(c.params[i])
  }

  /** The map of a request up to the parameter list. */
  function EnvelopeEvents(c: Call): (es: seq<Event>)
    requires Sendable(c)
    ensures |es| == 9 && AllCanonical(es)
  {
    [MapStart(4), UintEvent(JSONRPC), Bytes(VERSION), UintEvent(METHOD), Bytes(c.name),
     UintEvent(ID), UintEvent(ToUint64(c.id)), UintEvent(PARAMS), ArrayStart(c.count)]
  }

  function RequestEvents(c: Call): (es: seq<Event>)
    requires Sendable(c)
    ensures AllCanonical(es)
  {
    ParamsCanonical(c.params[..c.count]);
    EnvelopeEvents(c) + ParamsEvents(c.params[..c.count])
  }

  lemma {:induction false} ParamsCanonical(ps: seq<Param>)
    requires forall i :: 0 <= i < |ps| ==> WritableParam(ps[i])
    ensures AllCanonical(ParamsEvents(ps))
    decreases |ps|
  {
    if ps != [] {
      ParamsCanonical(ps[1..]);
      assert WritableParam(ps[0]);
    }
  }

  function EncodeRequest(c: Call): seq<byte>
    requires Sendable(c)
  {
    EncodeAll(RequestEvents(c))
  }

  // ---------------------------------------------------------------- the builder, as a function

  datatype State = NotStart | WaitKey | WaitValue | ReadingParams | ReadingErrorKey | ReadingErrorValue | Fin | Failed

  datatype Builder = Builder(
    pkt: Call, state: State, keyCount: nat, paramCount: nat, valid: bool, key: int, valuesRead: nat,
    paramIndex: nat, errorKeyCount: nat, errorKey: int, errorValuesRead: nat)

  function Fail(b: Builder): Builder {
    if b.state.Failed? then b else b.(state := Failed, valid := false)
  }

  function NextKey(b: Builder): Builder {
    b.(valuesRead := b.valuesRead + 1, state := if b.valuesRead + 1 == b.keyCount then Fin else WaitKey)
  }

  function ReadParam(b: Builder, p: Param): Builder
    requires Slots(b.pkt)
  {
    if b.paramIndex >= 5 then Fail(b)
    else
      var b' := b.(pkt := b.pkt.(params := b.pkt.params[b.paramIndex := p]), paramIndex := b.paramIndex + 1);
      if b'.paramIndex == b'.paramCount then NextKey(b') else b'
  }

  function ErrorValueRead(b: Builder): Builder {
    var b' := b.(errorValuesRead := b.errorValuesRead + 1);
    if b'.errorValuesRead == b'.errorKeyCount then NextKey(b') else b'.(state := ReadingErrorKey)
  }

  function OnInteger(b: Builder, value: int): Builder
    requires Slots(b.pkt)
  {
    match b.state
    case WaitKey => b.(key := ToInt32(value), state := WaitValue)
    case ReadingErrorKey => b.(errorKey := ToInt32(value), state := ReadingErrorValue)
    case WaitValue =>
      if b.key == ID then NextKey(b.(pkt := b.pkt.(id := ToInt32(value))))
      else if b.key == RESULT then NextKey(b)
      else Fail(b)
    case ReadingErrorValue =>
      if b.errorKey == ERROR_CODE then ErrorValueRead(b.(pkt := b.pkt.(errorCode := ToInt32(value))))
      else if b.errorKey == ERROR_DATA then ErrorValueRead(b)
      else Fail(b)
    case ReadingParams => ReadParam(b, if value < 0xFFFF_FFFF then PInt(ToInt32(value)) else PInt64(value))
    case _ => Fail(b)
  }

  function OnBool(b: Builder, value: bool): Builder
    requires Slots(b.pkt)
  {
    match b.state
    case WaitValue => if b.key == RESULT then NextKey(b) else Fail(b)
    case ReadingParams => ReadParam(b, PBool(value))
    case _ => Fail(b)
  }

  function OnBytes(b: Builder, data: seq<byte>): Builder
    requires Slots(b.pkt)
  {
    match b.state
    case WaitValue =>
      if b.key == JSONRPC then (if data == VERSION then NextKey(b) else Fail(b))
      else if b.key == METHOD then NextKey(b.(pkt := b.pkt.(name := data)))
      else if b.key == RESULT then NextKey(b)
      else Fail(b)
    case ReadingParams => ReadParam(b, PBytes(data))
    case ReadingErrorValue =>
      if b.errorKey == ERROR_MESSAGE then ErrorValueRead(b.(pkt := b.pkt.(errorMessage := data)))
      else if b.errorKey == ERROR_DATA then ErrorValueRead(b)
      else Fail(b)
    case _ => Fail(b)
  }

  function OnArray(b: Builder, size: nat): Builder {
    if !b.state.WaitValue? then b.(state := Failed, valid := false)
    else if b.key != PARAMS then Fail(b)
    else
      var b' := b.(paramCount := size, pkt := b.pkt.(count := size));
      if size > 0 then b'.(state := ReadingParams) else NextKey(b')
  }

  function OnMap(b: Builder, size: nat): Builder {
    if b.state.NotStart? then b.(keyCount := size, valid := true, state := WaitKey)
    else if b.state.WaitValue? && b.key == ERROR then b.(errorKeyCount := size, state := ReadingErrorKey)
    else Fail(b)
  }

  function OnEvent(b: Builder, e: Event): (b': Builder)
    requires Slots(b.pkt)
    ensures Slots(b'.pkt)
  {
    match e
    case Uint(width, n) => OnInteger(b, CallbackInt(false, width, n))
    case NegInt(width, n) => OnInteger(b, CallbackInt(true, width, n))
    case Bytes(data) => OnBytes(b, data)
    case ArrayStart(size) => OnArray(b, size)
    case MapStart(size) => OnMap(b, size)
    case Bool(value) => OnBool(b, value)
    case _ => b
  }

  // ---------------------------------------------------------------- the reader, as a function

  /** The cursor and length are those of `rest`, the unread bytes; the packet keeps what was stored. */
  datatype Reading = Finished(pkt: Call, rest: seq<byte>) | NeedsData(pkt: Call) | Broken(pkt: Call)

  function ReadFrom(b: Builder, s: seq<byte>): Reading
    requires Slots(b.pkt)
    decreases |s|
  {
    match Decode(s)
    case NeedData => NeedsData(b.pkt)
    case Malformed => Broken(b.pkt)
    case Item(e, read) =>
      var b' := OnEvent(b, e);
      if b'.state.Fin? then Finished(b'.pkt, s[read..]) else ReadFrom(b', s[read..])
  }

  /** `current_key` and `current_err_key` are indeterminate in a new builder. */
  function NewBuilder(pkt: Call, junk: int): Builder {
    Builder(ResetCall(pkt), NotStart, 0, 0, false, junk, 0, 0, 0, junk, 0)
  }

  function ReadPacket(pkt: Call, s: seq<byte>, junk: int): Reading
    requires Slots(pkt)
  {
    ReadFrom(NewBuilder(pkt, junk), s)
  }

  // ---------------------------------------------------------------- waiting for a packet

  datatype Received = Frame(pkt: Call) | Nothing | Failure

  /** One turn of the loop in `RpcLua::wait`: a read is appended to the buffer and one packet is taken out. */
  function Receive(pkt: Call, buffer: seq<byte>, chunk: seq<byte>, junk: int): (r: (Received, seq<byte>))
    requires Slots(pkt)
  {
    match ReadPacket(ResetCall(pkt), buffer + chunk, junk)
    case Finished(p, rest) => (Frame(p), rest)
    case NeedsData(_) => (Nothing, buffer + chunk)
    case Broken(_) => (Failure, [])
  }
}
