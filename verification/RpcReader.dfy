/** The writers, `RpcPacketBuilder`, `readJsonRpcPacket` and the buffer of `RpcLua::wait` as they run, proved
    to compute the functions of `Rpc`. */
module RpcReader {
  import opened Basics
  import opened Cbor
  import opened Rpc

  // ---------------------------------------------------------------- requests

  /** `JsonRpc::request` and its static counter. */
  class Requests {
    var nextId: int

    constructor ()
      ensures nextId == 1
    {
      nextId := 1;
    }

    method Make(name: seq<byte>, a: Param, b: Param, c: Param, id: int) returns (call: Call)
      modifies this
      ensures (call, nextId) == Request(name, a, b, c, id, old(nextId))
    {
      call := MakeNotification(name, a, b, c);
      var chosen := id;
      if chosen == -1 {
        chosen := nextId;
        nextId := nextId + 1;
        if nextId > LAST_ID {
          nextId := 1;
        }
      }
      call := call.(id := chosen);
    }
  }

  method MakeNotification(name: seq<byte>, a: Param, b: Param, c: Param) returns (call: Call)
    ensures call == Notification(name, a, b, c)
  {
    call := BLANK.(name := name);
    if a.PNull? {
      return;
    }
    call := call.(params := call.params[0 := a], count := call.count + 1);
    if b.PNull? {
      return;
    }
    call := call.(params := call.params[1 := b], count := call.count + 1);
    if c.PNull? {
      return;
    }
    call := call.(params := call.params[2 := c], count := call.count + 1);
  }

  // ---------------------------------------------------------------- writing

  method SendParam(p: Param) returns (out: seq<byte>)
    requires WritableParam(p)
    ensures AllCanonical(ParamEvents(p)) && out == EncodeAll(ParamEvents(p))
  {
    hide Head;
    match p
    case PInt(n) =>
      if n >= 0 {
        out := Head(0, n);
      } else {
        out := Head(1, -1 - n);
      }
      EncodeAllSingle(ParamEvents(p)[0]);
    case PInt64(n) =>
      out := [];
    case PBytes(data) =>
      AddMajor(2, |data|);
      out := WithMajor(Head(0, |data|), 0x40) + data;
      EncodeAllSingle(Bytes(data));
    case PBool(b) =>
      out := [if b then 0xF5 else 0xF4];
      EncodeAllSingle(Bool(b));
    case PNull =>
      out := [0xF6];
      EncodeAllSingle(Null);
  }

  /** The literal bytes between the variable parts are encoded items, too. */
  lemma Literals()
    ensures Encode(MapStart(4)) == [0xA4] && Encode(Bytes(VERSION)) == [0x43, 0x32, 0x2E, 0x30]
    ensures Encode(UintEvent(JSONRPC)) == [0x18, 0x64] && Encode(UintEvent(METHOD)) == [0x18, 0x65]
    ensures Encode(UintEvent(ID)) == [0x18, 0x68] && Encode(UintEvent(PARAMS)) == [0x18, 0x66]
  {
    assert BigEndian(100, 1) == [100] && BigEndian(101, 1) == [101];
    assert BigEndian(104, 1) == [104] && BigEndian(102, 1) == [102];
  }

  /** One more item at the end. */
  lemma Append(es: seq<Event>, k: nat)
    requires AllCanonical(es) && k < |es|
    ensures AllCanonical(es[..k]) && AllCanonical(es[..k + 1])
    ensures EncodeAll(es[..k + 1]) == EncodeAll(es[..k]) + Encode(es[k])
  {
    hide Encode, Canonical;
    EncodeAllSingle(es[k]);
    EncodeAllConcat(es[..k], [es[k]]);
    assert es[..k + 1] == es[..k] + [es[k]];
  }

  lemma Opening(c: Call)
    requires Sendable(c)
    ensures var es := EnvelopeEvents(c);
      AllCanonical(es[..4]) && EncodeAll(es[..4]) == [0xA4, 0x18, 0x64, 0x43, 0x32, 0x2E, 0x30, 0x18, 0x65]
  {
    Literals();
    var es := EnvelopeEvents(c);
    hide Encode, Head;
    assert EncodeAll(es[..0]) == [];
    hide EncodeAll, Canonical, ToUint64;
    Append(es, 0);
    Append(es, 1);
    Append(es, 2);
    Append(es, 3);
  }

  lemma HeadItems(data: seq<byte>, n: nat, id: nat)
    requires |data| < W64 && n < W64 && id < W64
    ensures Encode(Bytes(data)) == Head(2, |data|) + data
    ensures Encode(ArrayStart(n)) == Head(4, n) && Encode(UintEvent(id)) == Head(0, id)
  {
    hide Head;
  }

  lemma EnvelopeItems(c: Call)
    requires Sendable(c)
    ensures var es := EnvelopeEvents(c);
      && Encode(es[4]) == Head(2, |c.name|) + c.name
      && Encode(es[5]) == [0x18, 0x68] && Encode(es[6]) == Head(0, ToUint64(c.id))
      && Encode(es[7]) == [0x18, 0x66] && Encode(es[8]) == Head(4, c.count)
  {
    Literals();
    HeadItems(c.name, c.count, ToUint64(c.id));
    hide Head, Encode, ToUint64;
  }

  method SendEnvelope(c: Call) returns (out: seq<byte>)
    requires Sendable(c)
    ensures out == EncodeAll(EnvelopeEvents(c))
  {
    hide Head, Encode, EncodeAll, ToUint64, Canonical, EnvelopeEvents;
    ghost var es := EnvelopeEvents(c);
    Opening(c);
    EnvelopeItems(c);
    AddMajor(2, |c.name|);
    AddMajor(4, c.count);
    out := [0xA4, 0x18, 0x64, 0x43, 0x32, 0x2E, 0x30, 0x18, 0x65];
    ghost var p := out;
    out := out + WithMajor(Head(0, |c.name|), 0x40);
    out := out + c.name;
    Append(es, 4);
    assert out == p + Encode(es[4]);
    out := out + [0x18, 0x68];
    Append(es, 5);
    out := out + Head(0, ToUint64(c.id));
    Append(es, 6);
    out := out + [0x18, 0x66];
    Append(es, 7);
    out := out + WithMajor(Head(0, c.count), 0x80);
    Append(es, 8);
    assert es[..9] == es;
  }

  /** What has been written after the first `k` parameters. */
  ghost function Written(c: Call, k: nat): seq<byte>
    requires Sendable(c) && k <= c.count
  {
    ParamsCanonical(c.params[..k]);
    EncodeAll(EnvelopeEvents(c)) + EncodeAll(ParamsEvents(c.params[..k]))
  }

  lemma WrittenNext(c: Call, k: nat)
    requires Sendable(c) && k < c.count
    ensures AllCanonical(ParamEvents(c.params[k]))
    ensures Written(c, k + 1) == Written(c, k) + EncodeAll(ParamEvents(c.params[k]))
  {
    hide EncodeAll, EnvelopeEvents, ParamsEvents;
    assert WritableParam(c.params[k]);
    assert c.params[..k + 1] == c.params[..k] + [c.params[k]];
    ParamsSnoc(c.params[..k], c.params[k]);
    ParamsCanonical(c.params[..k]);
    EncodeAllConcat(ParamsEvents(c.params[..k]), ParamEvents(c.params[k]));
  }

  lemma WrittenEnds(c: Call)
    requires Sendable(c)
    ensures Written(c, 0) == EncodeAll(EnvelopeEvents(c)) && Written(c, c.count) == EncodeRequest(c)
  {
    ParamsCanonical(c.params[..c.count]);
    EncodeAllConcat(EnvelopeEvents(c), ParamsEvents(c.params[..c.count]));
    hide EnvelopeEvents;
    assert c.params[..0] == [];
    NothingEncoded();
  }

  /** The bytes a request puts on the pipe are those of its events. */
  method SendRequest(c: Call) returns (out: seq<byte>)
    requires Sendable(c)
    ensures out == EncodeRequest(c)
  {
    hide EnvelopeEvents, EncodeAll, ParamEvents, Written, EncodeRequest;
    WrittenEnds(c);
    out := SendEnvelope(c);
    var i := c.count;
    if i == 0 {
      return;
    }
    WrittenNext(c, 0);
    var one := SendParam(c.params[0]);
    out, i := out + one, i - 1;
    if i == 0 {
      return;
    }
    WrittenNext(c, 1);
    one := SendParam(c.params[1]);
    out, i := out + one, i - 1;
    if i == 0 {
      return;
    }
    WrittenNext(c, 2);
    one := SendParam(c.params[2]);
    out := out + one;
  }

  lemma NothingEncoded()
    ensures AllCanonical([]) && EncodeAll([]) == []
  {
  }

  lemma {:induction false} ParamsSnoc(ps: seq<Param>, p: Param)
    ensures ParamsEvents(ps + [p]) == ParamsEvents(ps) + ParamEvents(p)
    decreases |ps|
  {
    hide ParamEvents;
    if ps == [] {
      assert [p][1..] == [];
      assert [] + [p] == [p];
    } else {
      assert (ps + [p])[1..] == ps[1..] + [p];
      ParamsSnoc(ps[1..], p);
    }
  }

  // ---------------------------------------------------------------- the builder

  class RpcPacketBuilder {
    var pkt: Call
    var state: State
    var keyCount: nat
    var paramCount: nat
    var valid: bool
    var key: int
    var valuesRead: nat
    var paramIndex: nat
    var errorKeyCount: nat
    var errorKey: int
    var errorValuesRead: nat

    function View(): Builder
      reads this
    {
      Builder(pkt, state, keyCount, paramCount, valid, key, valuesRead, paramIndex, errorKeyCount, errorKey, errorValuesRead)
    }

    constructor (p: Call, junk: int)
      ensures View() == NewBuilder(p, junk)
    {
      pkt, state, keyCount, paramCount, valid := ResetCall(p), NotStart, 0, 0, false;
      key, valuesRead, paramIndex, errorKeyCount, errorKey, errorValuesRead := junk, 0, 0, 0, junk, 0;
    }

    /** Being in another state is an error. */
    method CheckState(expected: State) returns (ok: bool)
      modifies this
      ensures ok == (old(state) == expected)
      ensures View() == if ok then old(View()) else old(View()).(state := Failed, valid := false)
    {
      if state != expected {
        state, valid := Failed, false;
        return false;
      }
      return true;
    }

    method DoFail()
      modifies this
      ensures View() == Fail(old(View()))
    {
      var ok := CheckState(Failed);
    }

    method DoNextKey()
      modifies this
      ensures View() == NextKey(old(View()))
    {
      valuesRead := valuesRead + 1;
      if valuesRead == keyCount {
        state := Fin;
      } else {
        state := WaitKey;
      }
    }

    method DoReadParam(p: Param)
      requires Slots(pkt)
      modifies this
      ensures View() == ReadParam(old(View()), p)
    {
      if paramIndex >= 5 {
        DoFail();
        return;
      }
      pkt := pkt.(params := pkt.params[paramIndex := p]);
      paramIndex := paramIndex + 1;
      if paramIndex == paramCount {
        DoNextKey();
      }
    }

    method DoErrorValueRead()
      modifies this
      ensures View() == ErrorValueRead(old(View()))
    {
      errorValuesRead := errorValuesRead + 1;
      if errorValuesRead == errorKeyCount {
        DoNextKey();
      } else {
        state := ReadingErrorKey;
      }
    }

    method HandleInteger(value: int)
      requires Slots(pkt)
      modifies this
      ensures View() == OnInteger(old(View()), value)
    {
      if state == WaitKey {
        key, state := ToInt32(value), WaitValue;
      } else if state == ReadingErrorKey {
        errorKey, state := ToInt32(value), ReadingErrorValue;
      } else if state == WaitValue {
        if key == ID {
          pkt := pkt.(id := ToInt32(value));
          DoNextKey();
        } else if key == RESULT {
          DoNextKey();
        } else {
          DoFail();
        }
      } else if state == ReadingErrorValue {
        if errorKey == ERROR_CODE {
          pkt := pkt.(errorCode := ToInt32(value));
        } else if errorKey != ERROR_DATA {
          DoFail();
          return;
        }
        DoErrorValueRead();
      } else if state == ReadingParams {
        if value < 0 || value < 0xFFFF_FFFF {
          DoReadParam(PInt(ToInt32(value)));
        } else {
          DoReadParam(PInt64(value));
        }
      } else {
        DoFail();
      }
    }

    method HandleBool(value: bool)
      requires Slots(pkt)
      modifies this
      ensures View() == OnBool(old(View()), value)
    {
      if state == WaitValue {
        if key == RESULT {
          DoNextKey();
        } else {
          DoFail();
        }
      } else if state == ReadingParams {
        DoReadParam(PBool(value));
      } else {
        DoFail();
      }
    }

    method HandleBytes(data: seq<byte>)
      requires Slots(pkt)
      modifies this
      ensures View() == OnBytes(old(View()), data)
    {
      if state == WaitValue {
        if key == JSONRPC {
          if data != VERSION {
            DoFail();
            return;
          }
          DoNextKey();
        } else if key == METHOD {
          pkt := pkt.(name := data);
          DoNextKey();
        } else if key == RESULT {
          DoNextKey();
        } else {
          DoFail();
        }
      } else if state == ReadingParams {
        DoReadParam(PBytes(data));
      } else if state == ReadingErrorValue {
        if errorKey == ERROR_MESSAGE {
          pkt := pkt.(errorMessage := data);
        } else if errorKey != ERROR_DATA {
          DoFail();
          return;
        }
        DoErrorValueRead();
      } else {
        DoFail();
      }
    }

    method StartArray(size: nat)
      modifies this
      ensures View() == OnArray(old(View()), size)
    {
      var ok := CheckState(WaitValue);
      if !ok {
        return;
      }
      if key != PARAMS {
        DoFail();
        return;
      }
      paramCount := size;
      pkt := pkt.(count := size);
      if size > 0 {
        state := ReadingParams;
      } else {
        DoNextKey();
      }
    }

    method StartMap(size: nat)
      modifies this
      ensures View() == OnMap(old(View()), size)
    {
      if state == NotStart {
        keyCount, valid, state := size, true, WaitKey;
      } else if state == WaitValue && key == ERROR {
        errorKeyCount, state := size, ReadingErrorKey;
      } else {
        DoFail();
      }
    }

    method Callback(e: Event)
      requires Slots(pkt)
      modifies this
      ensures View() == OnEvent(old(View()), e)
    {
      match e
      case Uint(width, n) => HandleInteger(CallbackInt(false, width, n));
      case NegInt(width, n) => HandleInteger(CallbackInt(true, width, n));
      case Bytes(data) => HandleBytes(data);
      case ArrayStart(size) => StartArray(size);
      case MapStart(size) => StartMap(size);
      case Bool(value) => HandleBool(value);
      case _ =>
    }
  }

  // ---------------------------------------------------------------- reading

  /** The cursor starts at `from` and ends behind the packet, or where it was. */
  method ReadJsonRpcPacket(buf: seq<byte>, from: nat, pkt: Call, junk: int) returns (reading: Reading, cursor: nat)
    requires Slots(pkt) && from <= |buf|
    ensures reading == ReadPacket(pkt, buf[from..], junk)
    ensures cursor <= |buf| && buf[cursor..] == if reading.Finished? then reading.rest else buf[from..]
  {
    hide OnEvent, Decode;
    var builder := new RpcPacketBuilder(pkt, junk);
    cursor := from;
    while true
      invariant from <= cursor <= |buf| && Slots(builder.pkt)
      invariant ReadPacket(pkt, buf[from..], junk) == ReadFrom(builder.View(), buf[cursor..])
      decreases |buf| - cursor
    {
      var decoded := Decode(buf[cursor..]);
      if !decoded.Item? {
        reading := if decoded.NeedData? then NeedsData(builder.pkt) else Broken(builder.pkt);
        cursor := from;
        return;
      }
      assert buf[cursor..][decoded.read..] == buf[cursor + decoded.read..];
      assert Slots(builder.View().pkt);
      builder.Callback(decoded.event);
      cursor := cursor + decoded.read;
      if builder.state == Fin {
        return Finished(builder.pkt, buf[cursor..]), cursor;
      }
    }
  }

  class RpcLua {
    var cborBuffer: seq<byte>

    constructor ()
      ensures cborBuffer == []
    {
      cborBuffer := [];
    }

    method TakeRead(chunk: seq<byte>, received: Call, junk: int) returns (r: Received)
      requires Slots(received)
      modifies this
      ensures (r, cborBuffer) == Receive(received, old(cborBuffer), chunk, junk)
    {
      cborBuffer := cborBuffer + chunk;
      assert cborBuffer[0..] == cborBuffer;
      var reading, cursor := ReadJsonRpcPacket(cborBuffer, 0, ResetCall(received), junk);
      if reading.Broken? {
        cborBuffer := [];
        return Failure;
      }
      cborBuffer := cborBuffer[cursor..];
      return if reading.NeedsData? then Nothing else Frame(reading.pkt);
    }
  }
}
