/** `PacketBuilder` and `ClientSocket::handleBuffer` as they run, proved to compute the functions of
    `Packets`. */
module PacketReader {
  import opened Basics
  import opened Cbor
  import opened Packets

  class PacketBuilder {
    var pkt: Message
    var currentField: nat
    var validPacket: bool
    var handled: nat
    var delivered: seq<Message>

    function View(): Builder
      reads this
    {
      Builder(pkt, currentField, validPacket, handled, delivered)
    }

    constructor (junk: Message)
      ensures View() == FreshBuilder(junk)
    {
      pkt := junk.(type_ := 0, len := 0, command := [], data := []);
      currentField, validPacket, handled, delivered := 0, false, 0, [];
    }

    method ResetPacket()
      modifies this
      ensures View() == Reset(old(View()))
    {
      pkt := pkt.(type_ := 0, len := 0, command := [], data := []);
      currentField, validPacket := 0, false;
    }

    method NextField()
      modifies this
      ensures View() == Packets.NextField(old(View()))
    {
      currentField := currentField + 1;
      if currentField == pkt.len {
        delivered := delivered + [pkt];
        handled := handled + 1;
        ResetPacket();
      }
    }

    method HandleInteger(value: int)
      modifies this
      ensures View() == Packets.HandleInteger(old(View()), value)
    {
      if !validPacket {
        return;
      }
      match currentField
      case 0 =>
        pkt := pkt.(requestId := ToInt32(value));
        NextField();
      case 1 =>
        pkt := pkt.(type_ := ToInt32(value));
        NextField();
      case 4 =>
        pkt := pkt.(timeout := ToInt32(value));
        NextField();
      case 5 =>
        pkt := pkt.(timestamp := value);
        NextField();
      case _ =>
        validPacket := false;
    }

    method HandleBytes(data: seq<byte>)
      modifies this
      ensures View() == Packets.HandleBytes(old(View()), data)
    {
      if !validPacket {
        return;
      }
      match currentField
      case 2 =>
        pkt := pkt.(command := data);
        NextField();
      case 3 =>
        pkt := pkt.(data := data);
        NextField();
      case _ =>
        validPacket := false;
    }

    method StartArray(size: nat)
      modifies this
      ensures View() == Packets.StartArray(old(View()), size)
    {
      pkt := pkt.(len := ToInt32(size));
      validPacket := true;
      if size != 4 && size != 6 {
        validPacket := false;
      }
    }

    method Callback(e: Event)
      modifies this
      ensures View() == OnEvent(old(View()), e)
    {
      match e
      case Uint(width, n) => HandleInteger(CallbackInt(false, width, n));
      case NegInt(width, n) => HandleInteger(CallbackInt(true, width, n));
      case Bytes(data) => HandleBytes(data);
      case ArrayStart(size) => StartArray(size);
      case _ =>
    }
  }

  class ClientSocket {
    var cborBuffer: seq<byte>
    var inbox: seq<Message>

    constructor ()
      ensures cborBuffer == [] && inbox == []
    {
      cborBuffer, inbox := [], [];
    }

    method ReadBuffer(chunk: seq<byte>, junk: Message) returns (status: Status)
      modifies this
      ensures var out := HandleBuffer(old(cborBuffer) + chunk, junk);
        status == out.status && cborBuffer == out.buffer && inbox == old(inbox) + out.delivered
    {
      hide OnEvent, Decode;
      cborBuffer := cborBuffer + chunk;
      var total: nat, settled: nat, len: nat := 0, 0, |cborBuffer|;
      var builder := new PacketBuilder(junk);
      assert cborBuffer[0..] == cborBuffer;
      while true
        invariant total + len == |cborBuffer| && settled <= total && fresh(builder)
        invariant cborBuffer == old(cborBuffer) + chunk && inbox == old(inbox)
        invariant Drain(builder.View(), cborBuffer[total..], total, settled)
               == Drain(FreshBuilder(junk), cborBuffer, 0, 0)
        decreases len
      {
        var decoded := Decode(cborBuffer[total..]);
        if decoded.Malformed? {
          inbox := inbox + builder.delivered;
          return Error;
        }
        if decoded.NeedData? {
          break;
        }
        assert cborBuffer[total..][decoded.read..] == cborBuffer[total + decoded.read..];
        builder.Callback(decoded.event);
        len := len - decoded.read;
        total := total + decoded.read;
        if builder.handled != 0 {
          settled := total;
        }
      }
      inbox := inbox + builder.delivered;
      if builder.handled == 0 && !builder.validPacket {
        return NoData;
      }
      if settled < len {
        cborBuffer := cborBuffer[settled..];
      } else {
        cborBuffer := [];
      }
      return NoData;
    }
  }
}
