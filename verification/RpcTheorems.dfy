/** What the reader makes of requests: the round trip, incomplete frames, frames cut over several reads, and
    broken ones. */
module RpcTheorems {
  import opened Basics
  import opened Cbor
  import opened Rpc

  // ---------------------------------------------------------------- running over encoded items

  function Fold(b: Builder, es: seq<Event>): (b': Builder)
    requires Slots(b.pkt)
    ensures Slots(b'.pkt)
    decreases |es|
  {
    if es == [] then b else Fold(OnEvent(b, es[0]), es[1..])
  }

  /** No event of the list completes the packet. */
  predicate Quiet(b: Builder, es: seq<Event>)
    requires Slots(b.pkt)
    decreases |es|
  {
    es == [] || (!OnEvent(b, es[0]).state.Fin? && Quiet(OnEvent(b, es[0]), es[1..]))
  }

  lemma {:induction false} FoldConcat(b: Builder, a: seq<Event>, c: seq<Event>)
    requires Slots(b.pkt)
    ensures Fold(b, a + c) == Fold(Fold(b, a), c)
    ensures Quiet(b, a + c) <==> Quiet(b, a) && Quiet(Fold(b, a), c)
    decreases |a|
  {
    hide OnEvent;
    if a == [] {
      assert a + c == c;
    } else {
      assert (a + c)[1..] == a[1..] + c && (a + c)[0] == a[0];
      FoldConcat(OnEvent(b, a[0]), a[1..], c);
    }
  }

  lemma QuietPrefix(b: Builder, es: seq<Event>, i: nat)
    requires Slots(b.pkt) && Quiet(b, es) && i <= |es|
    ensures Quiet(b, es[..i])
  {
    hide OnEvent, Quiet;
    assert es == es[..i] + es[i..];
    FoldConcat(b, es[..i], es[i..]);
  }

  lemma {:induction false} ReadItems(b: Builder, es: seq<Event>, tail: seq<byte>)
    requires Slots(b.pkt) && AllCanonical(es) && Quiet(b, es)
    ensures ReadFrom(b, EncodeAll(es) + tail) == ReadFrom(Fold(b, es), tail)
    decreases |es|
  {
    hide OnEvent, Decode, Encode, Canonical;
    if es == [] {
      assert EncodeAll(es) + tail == tail;
    } else {
      var s, head := EncodeAll(es) + tail, Encode(es[0]);
      assert s == head + (EncodeAll(es[1..]) + tail);
      ItemRoundTrip(es[0], EncodeAll(es[1..]) + tail);
      assert s[|head|..] == EncodeAll(es[1..]) + tail;
      ReadItems(OnEvent(b, es[0]), es[1..], tail);
    }
  }

  /** A list whose last event completes the packet: it is taken, and what follows is left. */
  lemma ReadAllItems(b: Builder, es: seq<Event>, tail: seq<byte>)
    requires Slots(b.pkt) && AllCanonical(es) && es != [] && Quiet(b, es[..|es| - 1]) && Fold(b, es).state.Fin?
    ensures ReadFrom(b, EncodeAll(es) + tail) == Finished(Fold(b, es).pkt, tail)
  {
    hide OnEvent, Decode, Encode, Quiet, Canonical;
    var front, last := es[..|es| - 1], es[|es| - 1];
    assert es == front + [last];
    EncodeAllConcat(front, [last]);
    EncodeAllSingle(last);
    assert EncodeAll(es) + tail == EncodeAll(front) + (Encode(last) + tail);
    ReadItems(b, front, Encode(last) + tail);
    FoldConcat(b, front, [last]);
    assert Fold(b, es) == OnEvent(Fold(b, front), last);
    ItemRoundTrip(last, tail);
    assert (Encode(last) + tail)[|Encode(last)|..] == tail;
  }

  // ---------------------------------------------------------------- the envelope

  lemma KeyArrives(n: nat)
    requires n < 0x8000_0000
    ensures CallbackInt(false, WidthOf(n), n) == n && ToInt32(n) == n
  {
  }

  lemma IdArrives(id: int)
    requires IsInt32(id)
    ensures var n := ToUint64(id); ToInt32(CallbackInt(false, WidthOf(n), n)) == id
  {
    if id < 0 {
      assert ToUint64(id) == id + W64;
      assert ToInt64(id + W64) == id;
    }
  }

  /** After the keys and values before the parameter list. */
  lemma EnvelopeStart(b: Builder, c: Call)
    requires Slots(b.pkt) && b.state.NotStart? && b.valuesRead == 0 && Sendable(c)
    ensures var es := EnvelopeEvents(c)[..8];
      && Quiet(b, es)
      && Fold(b, es) == b.(pkt := b.pkt.(name := c.name, id := c.id), state := WaitValue, keyCount := 4, valid := true,
                           key := PARAMS, valuesRead := 3)
  {
    var es := EnvelopeEvents(c);
    KeyArrives(JSONRPC);
    KeyArrives(METHOD);
    KeyArrives(ID);
    KeyArrives(PARAMS);
    IdArrives(c.id);
    hide CallbackInt, WidthOf, ToInt32, ToUint64;
    var b1 := OnEvent(b, es[0]);
    assert b1 == b.(keyCount := 4, valid := true, state := WaitKey);
    var b3 := OnEvent(OnEvent(b1, es[1]), es[2]);
    assert b3 == b1.(key := JSONRPC, valuesRead := 1);
    var b5 := OnEvent(OnEvent(b3, es[3]), es[4]);
    assert b5 == b3.(key := METHOD, valuesRead := 2, pkt := b.pkt.(name := c.name));
    var b7 := OnEvent(OnEvent(b5, es[5]), es[6]);
    assert b7 == b5.(key := ID, valuesRead := 3, pkt := b.pkt.(name := c.name, id := c.id));
    var b8 := OnEvent(b7, es[7]);
    assert b8 == b7.(key := PARAMS, state := WaitValue);
    hide OnEvent, EnvelopeEvents;
    Two(b, es[0], es[1]);
    Two(OnEvent(b1, es[1]), es[2], es[3]);
    Two(OnEvent(b3, es[3]), es[4], es[5]);
    Two(OnEvent(b5, es[5]), es[6], es[7]);
    Chain(b, es);
  }

  lemma Two(b: Builder, d: Event, e: Event)
    requires Slots(b.pkt)
    ensures Fold(b, [d, e]) == OnEvent(OnEvent(b, d), e)
    ensures Quiet(b, [d, e]) <==> !OnEvent(b, d).state.Fin? && !OnEvent(OnEvent(b, d), e).state.Fin?
  {
    hide OnEvent;
    assert [d, e][1..] == [e] && [e][1..] == [];
    assert Fold(OnEvent(b, d), [e]) == Fold(OnEvent(OnEvent(b, d), e), []);
    assert Quiet(OnEvent(OnEvent(b, d), e), []);
  }

  lemma Chain(b: Builder, es: seq<Event>)
    requires Slots(b.pkt) && |es| == 9
    ensures var c2 := Fold(b, [es[0], es[1]]);
      var c4 := Fold(c2, [es[2], es[3]]);
      var c6 := Fold(c4, [es[4], es[5]]);
      && Fold(b, es[..8]) == Fold(c6, [es[6], es[7]])
      && (Quiet(b, [es[0], es[1]]) && Quiet(c2, [es[2], es[3]]) && Quiet(c4, [es[4], es[5]]) && Quiet(c6, [es[6], es[7]])
          ==> Quiet(b, es[..8]))
  {
    hide OnEvent, Fold, Quiet;
    var p, q, r, s := [es[0], es[1]], [es[2], es[3]], [es[4], es[5]], [es[6], es[7]];
    assert es[..8] == p + (q + (r + s));
    FoldConcat(b, p, q + (r + s));
    FoldConcat(Fold(b, p), q, r + s);
    FoldConcat(Fold(Fold(b, p), q), r, s);
  }

  // ---------------------------------------------------------------- the parameters

  lemma ParamArrives(p: Param)
    requires WritableParam(p) && !p.PInt64? && !p.PNull?
    ensures |ParamEvents(p)| == 1
    ensures forall b: Builder :: Slots(b.pkt) && b.state.ReadingParams? ==> OnEvent(b, ParamEvents(p)[0]) == ReadParam(b, p)
  {
    forall b: Builder | Slots(b.pkt) && b.state.ReadingParams?
      ensures OnEvent(b, ParamEvents(p)[0]) == ReadParam(b, p)
    {
      ParamArrivesAt(b, p);
    }
  }

  lemma ParamArrivesAt(b: Builder, p: Param)
    requires WritableParam(p) && !p.PInt64? && !p.PNull? && Slots(b.pkt) && b.state.ReadingParams?
    ensures OnEvent(b, ParamEvents(p)[0]) == ReadParam(b, p)
  {
    if p.PInt? {
      IntParamArrives(p.n);
    }
    hide CallbackInt, WidthOf, ToInt32, ReadParam;
  }

  lemma IntParamArrives(n: int)
    requires IsInt32(n)
    ensures var v := if n >= 0 then CallbackInt(false, WidthOf(n), n) else CallbackInt(true, WidthOf(-1 - n), -1 - n);
      v < 0xFFFF_FFFF && ToInt32(v) == n
  {
    var k := -1 - n;
    if n < 0 && W16 <= k {
      assert (-1 - k) % W32 == W32 - 1 - k;
    }
  }

  predicate ParamEvent(e: Event) {
    e.Uint? || e.NegInt? || e.Bytes? || e.Bool?
  }

  /** How many of the events fill a parameter slot. */
  function Filling(es: seq<Event>): nat {
    if es == [] then 0 else (if ParamEvent(es[0]) then 1 else 0) + Filling(es[1..])
  }

  /** While parameters are missing the packet does not complete. */
  lemma {:induction false} FewerQuiet(b: Builder, es: seq<Event>)
    requires Slots(b.pkt) && b.state.ReadingParams? && b.paramIndex + Filling(es) < b.paramCount <= 5
    requires forall i :: 0 <= i < |es| ==> ParamEvent(es[i]) || es[i].Null?
    ensures Quiet(b, es)
    decreases |es|
  {
    if es != [] {
      assert ParamEvent(es[0]) || es[0].Null?;
      hide CallbackInt, ToInt32;
      FewerQuiet(OnEvent(b, es[0]), es[1..]);
    }
  }

  lemma {:induction false} FillingAll(es: seq<Event>)
    ensures Filling(es) <= |es|
    ensures (forall i :: 0 <= i < |es| ==> ParamEvent(es[i])) ==> Filling(es) == |es|
    decreases |es|
  {
    if es != [] {
      FillingAll(es[1..]);
    }
  }

  lemma {:induction false} FillingConcat(a: seq<Event>, c: seq<Event>)
    ensures Filling(a + c) == Filling(a) + Filling(c)
    decreases |a|
  {
    if a == [] {
      assert a + c == c;
    } else {
      assert (a + c)[1..] == a[1..] + c;
      FillingConcat(a[1..], c);
    }
  }

  function Stored(b: Builder, ps: seq<Param>): (r: seq<Param>)
    requires Slots(b.pkt) && b.paramIndex + |ps| <= 5
    ensures |r| == 5
  {
    b.pkt.params[..b.paramIndex] + ps + b.pkt.params[b.paramIndex + |ps|..]
  }

  lemma StoredStep(b: Builder, ps: seq<Param>)
    requires Slots(b.pkt) && ps != [] && b.paramIndex + |ps| == b.paramCount <= 5
    ensures var b1 := b.(pkt := b.pkt.(params := b.pkt.params[b.paramIndex := ps[0]]), paramIndex := b.paramIndex + 1);
      && ReadParam(b, ps[0]) == (if |ps| == 1 then NextKey(b1) else b1)
      && Stored(b1, ps[1..]) == Stored(b, ps)
      && (|ps| == 1 ==> b1.pkt.params == Stored(b, ps))
  {
  }

  /** All parameters, none of them of the unwritten kind: the last one ends the list. */
  lemma {:induction false} ParamsComplete(b: Builder, ps: seq<Param>)
    requires Slots(b.pkt) && b.state.ReadingParams? && ps != []
    requires b.paramIndex + |ps| == b.paramCount <= 5
    requires forall i :: 0 <= i < |ps| ==> WritableParam(ps[i]) && !ps[i].PInt64? && !ps[i].PNull?
    ensures |ParamsEvents(ps)| == |ps|
    ensures Fold(b, ParamsEvents(ps)) == NextKey(b.(pkt := b.pkt.(params := Stored(b, ps)), paramIndex := b.paramCount))
    decreases |ps|
  {
    hide OnEvent, ParamEvents, Stored, ReadParam;
    ParamArrives(ps[0]);
    StoredStep(b, ps);
    var b1 := ReadParam(b, ps[0]);
    var rest := ParamsEvents(ps[1..]);
    assert ParamsEvents(ps) == ParamEvents(ps[0]) + rest;
    assert ParamsEvents(ps)[1..] == rest && ParamsEvents(ps)[0] == ParamEvents(ps[0])[0];
    if |ps| == 1 {
      assert rest == [];
    } else {
      ParamsComplete(b1, ps[1..]);
    }
  }

  /** A parameter that the writer leaves out, or that the reader does not hear of. */
  predicate Unheard(p: Param) {
    p.PInt64? || p.PNull?
  }

  lemma {:induction false} ParamsAreParams(ps: seq<Param>)
    requires forall i :: 0 <= i < |ps| ==> WritableParam(ps[i])
    ensures forall i :: 0 <= i < |ParamsEvents(ps)| ==> ParamEvent(ParamsEvents(ps)[i]) || ParamsEvents(ps)[i].Null?
    ensures Filling(ParamsEvents(ps)) <= |ps|
    ensures (exists i :: 0 <= i < |ps| && Unheard(ps[i])) ==> Filling(ParamsEvents(ps)) < |ps|
    ensures (forall i :: 0 <= i < |ps| ==> !Unheard(ps[i])) ==> forall i :: 0 <= i < |ParamsEvents(ps)| ==> ParamEvent(ParamsEvents(ps)[i])
    decreases |ps|
  {
    if ps != [] {
      assert WritableParam(ps[0]);
      ParamsAreParams(ps[1..]);
      FillingConcat(ParamEvents(ps[0]), ParamsEvents(ps[1..]));
      OneFilling(ps[0]);
      hide ParamEvents, Filling;
      if i :| 0 <= i < |ps| && Unheard(ps[i]) {
        if i > 0 {
          assert Unheard(ps[1..][i - 1]);
        }
      }
    }
  }

  lemma OneFilling(p: Param)
    requires WritableParam(p)
    ensures |ParamEvents(p)| <= 1 && Filling(ParamEvents(p)) == if Unheard(p) then 0 else 1
    ensures forall i :: 0 <= i < |ParamEvents(p)| ==> if Unheard(p) then ParamEvents(p)[i].Null? else ParamEvent(ParamEvents(p)[i])
  {
    if !p.PInt64? {
      assert ParamEvents(p)[1..] == [];
    }
  }

  // ---------------------------------------------------------------- whole requests

  /** The reader hears of every parameter: none is of the kind the writer leaves out, and none is null. */
  predicate AllWritten(c: Call)
    requires Slots(c) && c.count <= 5
  {
    forall i :: 0 <= i < c.count ==> !Unheard(c.params[i])
  }

  /** The same request: the slots behind the count do not matter. */
  predicate SameRequest(a: Call, c: Call)
    requires Slots(a) && Slots(c) && c.count <= 5
  {
    && a.id == c.id && a.name == c.name && a.count == c.count && a.params[..c.count] == c.params[..c.count]
    && a.errorCode == 0 && a.errorMessage == []
  }

  lemma EnvelopeRead(pkt: Call, c: Call, junk: int) returns (b: Builder)
    requires Slots(pkt) && Sendable(c)
    ensures Slots(b.pkt) && Fold(NewBuilder(pkt, junk), EnvelopeEvents(c)) == b && Quiet(NewBuilder(pkt, junk), EnvelopeEvents(c)[..8])
    ensures b.pkt == ResetCall(pkt).(id := c.id, name := c.name, count := c.count)
    ensures c.count == 0 ==> b.state.Fin?
    ensures c.count > 0 ==>
      && b.state.ReadingParams? && b.paramIndex == 0 && b.paramCount == c.count && b.valuesRead + 1 == b.keyCount
      && Quiet(NewBuilder(pkt, junk), EnvelopeEvents(c))
  {
    var es, b0 := EnvelopeEvents(c), NewBuilder(pkt, junk);
    EnvelopeStart(b0, c);
    assert es[8] == ArrayStart(c.count);
    hide EnvelopeEvents;
    assert es == es[..8] + [es[8]];
    FoldConcat(b0, es[..8], [es[8]]);
    b := OnEvent(Fold(b0, es[..8]), es[8]);
  }

  /** The whole event list: quiet up to the last event, and complete after it, unless something was left
      out; then it is quiet throughout. */
  lemma RequestRun(pkt: Call, c: Call, junk: int)
    requires Slots(pkt) && Sendable(c)
    ensures var (b, es) := (NewBuilder(pkt, junk), RequestEvents(c));
      if AllWritten(c)
      then Quiet(b, es[..|es| - 1]) && Fold(b, es).state.Fin? && SameRequest(Fold(b, es).pkt, c)
      else Quiet(b, es)
  {
    hide EnvelopeEvents, OnEvent, Fold, Quiet, RequestEvents, ParamsEvents, Stored, SameRequest;
    var env, ps := EnvelopeEvents(c), c.params[..c.count];
    RequestParts(c);
    var b := EnvelopeRead(pkt, c, junk);
    if c.count == 0 {
      NoParams(b.pkt, c);
      assert env + [] == env;
    } else if AllWritten(c) {
      ParamsComplete(b, ps);
      assert SameRequest(b.pkt.(params := Stored(b, ps)), c) by {
        StoredSame(b, c);
      }
      ParamsAreParams(ps);
      AllParamsRun(NewBuilder(pkt, junk), env, b, ParamsEvents(ps));
    } else {
      LeftOut(c);
      ParamsAreParams(ps);
      FewerQuiet(b, ParamsEvents(ps));
      FoldConcat(NewBuilder(pkt, junk), env, ParamsEvents(ps));
    }
  }

  lemma RequestParts(c: Call)
    requires Sendable(c)
    ensures RequestEvents(c) == EnvelopeEvents(c) + ParamsEvents(c.params[..c.count])
  {
  }

  lemma NoParams(a: Call, c: Call)
    requires Sendable(c) && c.count == 0 && Slots(a)
    requires a.id == c.id && a.name == c.name && a.count == 0 && a.errorCode == 0 && a.errorMessage == []
    ensures AllWritten(c) && ParamsEvents(c.params[..c.count]) == [] && SameRequest(a, c)
  {
  }

  lemma StoredSame(b: Builder, c: Call)
    requires Sendable(c) && Slots(b.pkt) && b.paramIndex == 0
    requires b.pkt.id == c.id && b.pkt.name == c.name && b.pkt.count == c.count && b.pkt.errorCode == 0 && b.pkt.errorMessage == []
    ensures SameRequest(b.pkt.(params := Stored(b, c.params[..c.count])), c)
  {
    assert Stored(b, c.params[..c.count])[..c.count] == c.params[..c.count];
  }

  lemma AllParamsRun(b0: Builder, env: seq<Event>, b: Builder, more: seq<Event>)
    requires Slots(b0.pkt) && b == Fold(b0, env) && Quiet(b0, env) && more != []
    requires b.state.ReadingParams? && b.paramIndex + |more| == b.paramCount <= 5
    requires forall i :: 0 <= i < |more| ==> ParamEvent(more[i])
    ensures Quiet(b0, (env + more)[..|env + more| - 1]) && Fold(b0, env + more) == Fold(b, more)
  {
    hide OnEvent, Fold, Quiet;
    var front := more[..|more| - 1];
    FillingAll(front);
    FewerQuiet(b, front);
    assert (env + more)[..|env + more| - 1] == env + front;
    FoldConcat(b0, env, front);
    FoldConcat(b0, env, more);
  }

  lemma LeftOut(c: Call)
    requires Sendable(c) && !AllWritten(c)
    ensures exists i :: 0 <= i < |c.params[..c.count]| && Unheard(c.params[..c.count][i])
  {
    var i :| 0 <= i < c.count && Unheard(c.params[i]);
    assert Unheard(c.params[..c.count][i]);
  }

  /** Reading back a written request, whatever follows it, gives the same id, method and parameters and
      leaves exactly what follows. */
  lemma RequestRoundTrip(c: Call, rest: seq<byte>, pkt: Call, junk: int)
    requires Sendable(c) && Slots(pkt) && AllWritten(c)
    ensures var r := ReadPacket(pkt, EncodeRequest(c) + rest, junk);
      r.Finished? && r.rest == rest && Slots(r.pkt) && SameRequest(r.pkt, c)
  {
    hide Quiet, RequestEvents, ReadFrom, SameRequest;
    RequestRun(pkt, c, junk);
    RequestNonEmpty(c);
    ReadAllItems(NewBuilder(pkt, junk), RequestEvents(c), rest);
  }

  lemma RequestNonEmpty(c: Call)
    requires Sendable(c)
    ensures |RequestEvents(c)| >= 9
  {
  }

  /** A frame on its own is read exactly when all its parameters were written; otherwise the reader waits
      for more. */
  lemma RequestReadIff(c: Call, pkt: Call, junk: int)
    requires Sendable(c) && Slots(pkt)
    ensures var r := ReadPacket(pkt, EncodeRequest(c), junk);
      && (r.Finished? <==> AllWritten(c))
      && (!AllWritten(c) ==> r.NeedsData?)
  {
    hide Quiet, RequestEvents, ReadFrom, SameRequest;
    assert EncodeRequest(c) + [] == EncodeRequest(c);
    if AllWritten(c) {
      RequestRoundTrip(c, [], pkt, junk);
    } else {
      RequestRun(pkt, c, junk);
      ReadItems(NewBuilder(pkt, junk), RequestEvents(c), []);
      NothingToRead(Fold(NewBuilder(pkt, junk), RequestEvents(c)));
    }
  }

  lemma NothingToRead(b: Builder)
    requires Slots(b.pkt)
    ensures ReadFrom(b, []).NeedsData?
  {
  }

  lemma PartNeedsData(b: Builder, part: seq<byte>)
    requires Slots(b.pkt) && Decode(part) == NeedData
    ensures ReadFrom(b, part).NeedsData?
  {
  }

  /** Every proper beginning of a request makes the reader ask for more. */
  lemma PrefixNeedsData(c: Call, k: nat, pkt: Call, junk: int)
    requires Sendable(c) && Slots(pkt) && k < |EncodeRequest(c)|
    ensures ReadPacket(pkt, EncodeRequest(c)[..k], junk).NeedsData?
  {
    hide Quiet, RequestEvents, ReadFrom, Fold, OnEvent, Decode, EncodeAll;
    var b, es := NewBuilder(pkt, junk), RequestEvents(c);
    var i, part := CutAt(es, k);
    RequestRun(pkt, c, junk);
    if AllWritten(c) {
      QuietPrefix(b, es[..|es| - 1], i);
      assert es[..|es| - 1][..i] == es[..i];
    } else {
      QuietPrefix(b, es, i);
    }
    ReadItems(b, es[..i], part);
    PartNeedsData(Fold(b, es[..i]), part);
  }

  // ---------------------------------------------------------------- frames over several reads

  /** Reads one after the other, from an empty buffer, until one of them brings a packet or an error. */
  function AfterReads(pkt: Call, chunks: seq<seq<byte>>, junk: int): (r: (Received, seq<byte>))
    requires Slots(pkt)
  {
    if chunks == [] then (Nothing, [])
    else
      var (received, buffer) := AfterReads(pkt, chunks[..|chunks| - 1], junk);
      if received != Nothing then (received, buffer) else Receive(pkt, buffer, chunks[|chunks| - 1], junk)
  }

  lemma {:induction false} WaitingKeepsBytes(c: Call, chunks: seq<seq<byte>>, pkt: Call, junk: int)
    requires Sendable(c) && Slots(pkt)
    requires |Concat(chunks)| < |EncodeRequest(c)| && Concat(chunks) == EncodeRequest(c)[..|Concat(chunks)|]
    ensures AfterReads(pkt, chunks, junk) == (Nothing, Concat(chunks))
    decreases |chunks|
  {
    hide EncodeRequest, ReadPacket;
    if chunks != [] {
      var front := chunks[..|chunks| - 1];
      assert Concat(front) == EncodeRequest(c)[..|Concat(front)|];
      WaitingKeepsBytes(c, front, pkt, junk);
      PrefixNeedsData(c, |Concat(chunks)|, ResetCall(pkt), junk);
    }
  }

  /** However a frame is cut over reads, the last of which may bring bytes of what follows: the earlier
      reads yield nothing, the last one yields the request once and keeps exactly the surplus. */
  lemma SplitFrame(c: Call, chunks: seq<seq<byte>>, last: seq<byte>, surplus: seq<byte>, pkt: Call, junk: int)
    requires Sendable(c) && Slots(pkt) && AllWritten(c)
    requires |Concat(chunks)| < |EncodeRequest(c)| && Concat(chunks) + last == EncodeRequest(c) + surplus
    ensures AfterReads(pkt, chunks, junk) == (Nothing, Concat(chunks))
    ensures var (received, buffer) := Receive(pkt, Concat(chunks), last, junk);
      received.Frame? && Slots(received.pkt) && SameRequest(received.pkt, c) && buffer == surplus
  {
    hide EncodeRequest, ReadPacket, AfterReads, Concat, SameRequest;
    var w := EncodeRequest(c);
    assert Concat(chunks) == (w + surplus)[..|Concat(chunks)|] == w[..|Concat(chunks)|];
    WaitingKeepsBytes(c, chunks, pkt, junk);
    RequestRoundTrip(c, surplus, ResetCall(pkt), junk);
  }

  // ---------------------------------------------------------------- broken frames

  /** A failed builder stays failed, so no later byte completes that packet. */
  lemma FailureAbsorbs(b: Builder, e: Event)
    requires Slots(b.pkt) && b.state.Failed?
    ensures OnEvent(b, e).state.Failed? && OnEvent(b, e).pkt == b.pkt
  {
  }

  lemma {:induction false} FailedNeverFinishes(b: Builder, s: seq<byte>)
    requires Slots(b.pkt) && b.state.Failed?
    ensures !ReadFrom(b, s).Finished? && ReadFrom(b, s).pkt == b.pkt
    decreases |s|
  {
    hide OnEvent;
    match Decode(s)
    case Item(e, read) =>
      FailureAbsorbs(b, e);
      FailedNeverFinishes(OnEvent(b, e), s[read..]);
    case _ =>
  }

  /** Reading these bytes fails the builder before a packet is complete and before a malformed item. */
  predicate Jams(b: Builder, s: seq<byte>)
    requires Slots(b.pkt)
    decreases |s|
  {
    match Decode(s)
    case Item(e, read) =>
      var b' := OnEvent(b, e);
      !b'.state.Fin? && (b'.state.Failed? || Jams(b', s[read..]))
    case _ => false
  }

  /** The bytes in the buffer jam the reader.  The packet it fills and the values a new builder happens to hold
      do not matter. */
  predicate Jammed(buffer: seq<byte>) {
    Jams(NewBuilder(BLANK, 0), buffer)
  }

  /** The same progress: the keys are only looked at once they have been read. */
  predicate Alike(a: Builder, b: Builder) {
    && a == b.(pkt := a.pkt, key := a.key, errorKey := a.errorKey)
    && (b.state.WaitValue? ==> a.key == b.key)
    && (b.state.ReadingErrorValue? ==> a.errorKey == b.errorKey)
  }

  /** The moves the handlers are made of. */
  lemma AlikeMoves(a: Builder, b: Builder, p: Param)
    requires Slots(a.pkt) && Slots(b.pkt) && Alike(a, b)
    ensures Alike(Fail(a), Fail(b)) && Alike(NextKey(a), NextKey(b))
    ensures Alike(ErrorValueRead(a), ErrorValueRead(b))
    ensures b.state.ReadingParams? ==> Alike(ReadParam(a, p), ReadParam(b, p))
  {
  }

  lemma AlikeInteger(a: Builder, b: Builder, value: int)
    requires Slots(a.pkt) && Slots(b.pkt) && Alike(a, b)
    ensures Alike(OnInteger(a, value), OnInteger(b, value))
  {
    hide ToInt32, Fail, NextKey, ErrorValueRead, ReadParam;
    AlikeMoves(a, b, if value < 0xFFFF_FFFF then PInt(ToInt32(value)) else PInt64(value));
    var n := ToInt32(value);
    AlikeMoves(a.(pkt := a.pkt.(id := n)), b.(pkt := b.pkt.(id := n)), PNull);
    AlikeMoves(a.(pkt := a.pkt.(errorCode := n)), b.(pkt := b.pkt.(errorCode := n)), PNull);
  }

  lemma AlikeBytes(a: Builder, b: Builder, data: seq<byte>)
    requires Slots(a.pkt) && Slots(b.pkt) && Alike(a, b)
    ensures Alike(OnBytes(a, data), OnBytes(b, data))
  {
    hide Fail, NextKey, ErrorValueRead, ReadParam;
    AlikeMoves(a, b, PBytes(data));
    AlikeMoves(a.(pkt := a.pkt.(name := data)), b.(pkt := b.pkt.(name := data)), PNull);
    AlikeMoves(a.(pkt := a.pkt.(errorMessage := data)), b.(pkt := b.pkt.(errorMessage := data)), PNull);
  }

  lemma AlikeOther(a: Builder, b: Builder, value: bool, size: nat)
    requires Slots(a.pkt) && Slots(b.pkt) && Alike(a, b)
    ensures Alike(OnBool(a, value), OnBool(b, value))
    ensures Alike(OnArray(a, size), OnArray(b, size)) && Alike(OnMap(a, size), OnMap(b, size))
  {
  }

  lemma AlikeStep(a: Builder, b: Builder, e: Event)
    requires Slots(a.pkt) && Slots(b.pkt) && Alike(a, b)
    ensures Alike(OnEvent(a, e), OnEvent(b, e))
  {
    hide OnInteger, OnBytes, OnBool, OnArray, OnMap, CallbackInt, Alike;
    match e
    case Uint(width, n) => AlikeInteger(a, b, CallbackInt(false, width, n));
    case NegInt(width, n) => AlikeInteger(a, b, CallbackInt(true, width, n));
    case Bytes(data) => AlikeBytes(a, b, data);
    case Bool(value) => AlikeOther(a, b, value, 0);
    case ArrayStart(size) => AlikeOther(a, b, false, size);
    case MapStart(size) => AlikeOther(a, b, false, size);
    case _ =>
  }

  lemma {:induction false} JamsAlike(a: Builder, b: Builder, s: seq<byte>)
    requires Slots(a.pkt) && Slots(b.pkt) && Alike(a, b)
    ensures Jams(a, s) == Jams(b, s)
    decreases |s|
  {
    hide OnEvent;
    match Decode(s)
    case Item(e, read) =>
      AlikeStep(a, b, e);
      JamsAlike(OnEvent(a, e), OnEvent(b, e), s[read..]);
    case _ =>
  }

  lemma {:induction false} JamsExtend(b: Builder, s: seq<byte>, more: seq<byte>)
    requires Slots(b.pkt) && Jams(b, s)
    ensures Jams(b, s + more)
    decreases |s|
  {
    hide OnEvent;
    var d := Decode(s);
    DecodeExtends(s, more);
    hide Decode;
    var b' := OnEvent(b, d.event);
    assert (s + more)[d.read..] == s[d.read..] + more;
    if !b'.state.Failed? {
      JamsExtend(b', s[d.read..], more);
    }
  }

  lemma {:induction false} JamsNeverFinishes(b: Builder, s: seq<byte>)
    requires Slots(b.pkt) && Jams(b, s)
    ensures !ReadFrom(b, s).Finished?
    decreases |s|
  {
    hide OnEvent;
    var d := Decode(s);
    var b' := OnEvent(b, d.event);
    if b'.state.Failed? {
      FailedNeverFinishes(b', s[d.read..]);
    } else {
      JamsNeverFinishes(b', s[d.read..]);
    }
  }

  /** Whatever a jammed buffer is read into, and whatever a read adds: no packet comes out.  The buffer keeps
      every byte and stays jammed, or a malformed item clears it. */
  lemma JammedRead(pkt: Call, buffer: seq<byte>, chunk: seq<byte>, junk: int)
    requires Slots(pkt) && Jammed(buffer)
    ensures Jammed(buffer + chunk)
    ensures Receive(pkt, buffer, chunk, junk) == (Nothing, buffer + chunk) || Receive(pkt, buffer, chunk, junk) == (Failure, [])
  {
    hide Jams, ReadFrom;
    JamsExtend(NewBuilder(BLANK, 0), buffer, chunk);
    JamsAlike(NewBuilder(ResetCall(pkt), junk), NewBuilder(BLANK, 0), buffer + chunk);
    JamsNeverFinishes(NewBuilder(ResetCall(pkt), junk), buffer + chunk);
  }

  /** Once the buffer of the waiting loop is jammed, no number of reads brings a packet; until a malformed item
      ends the waiting, the buffer only grows. */
  lemma {:induction false} JammedForever(pkt: Call, before: seq<seq<byte>>, more: seq<seq<byte>>, junk: int)
    requires Slots(pkt) && AfterReads(pkt, before, junk).0 == Nothing && Jammed(AfterReads(pkt, before, junk).1)
    ensures var (received, buffer) := AfterReads(pkt, before + more, junk);
      && !received.Frame?
      && (received == Nothing ==> buffer == AfterReads(pkt, before, junk).1 + Concat(more) && Jammed(buffer))
    decreases |more|
  {
    hide Jammed, Receive;
    if more == [] {
      assert before + more == before;
      assert AfterReads(pkt, before, junk).1 + [] == AfterReads(pkt, before, junk).1;
    } else {
      var front, last := more[..|more| - 1], more[|more| - 1];
      assert before + more == (before + front) + [last];
      assert (before + more)[..|before + more| - 1] == before + front;
      JammedForever(pkt, before, front, junk);
      var (received, buffer) := AfterReads(pkt, before + front, junk);
      if received == Nothing {
        JammedRead(pkt, buffer, last, junk);
        assert buffer + last == AfterReads(pkt, before, junk).1 + (Concat(front) + last);
      }
    }
  }

  /** A single integer where a packet should begin is enough. */
  lemma IntegerJams(pkt: Call, junk: int)
    requires Slots(pkt)
    ensures Jammed([0]) && AfterReads(pkt, [[0]], junk) == (Nothing, [0])
  {
    var b := NewBuilder(BLANK, 0);
    assert Decode([0]) == Item(Uint(1, 0), 1);
    assert OnEvent(b, Uint(1, 0)).state.Failed?;
    assert Jammed([0]);
    assert AfterReads(pkt, [], junk) == (Nothing, []) && [[0]][..0] == [] && [] + [0] == [0];
    NotMalformed(pkt, junk);
  }

  lemma NotMalformed(pkt: Call, junk: int)
    requires Slots(pkt)
    ensures Receive(pkt, [], [0], junk) == (Nothing, [0])
  {
    var b := NewBuilder(ResetCall(pkt), junk);
    assert [] + [0] == [0] && [0][1..] == [];
    assert Decode([0]) == Item(Uint(1, 0), 1);
    var b' := OnEvent(b, Uint(1, 0));
    assert b'.state.Failed?;
    assert ReadFrom(b', []).NeedsData? by {
      NothingToRead(b');
    }
  }

  // ---------------------------------------------------------------- made requests

  /** What `request` is called with: any parameters, the ones behind the first null not meant. */
  predicate Arguments(name: seq<byte>, ps: seq<Param>, id: int, nextId: int) {
    && |name| < W64 && |ps| == 3 && IsInt32(id) && 1 <= nextId <= LAST_ID
    && forall i :: 0 <= i < |ps| ==> ps[i].PNull? || WritableParam(ps[i])
  }

  lemma {:induction false} MadeRequest(name: seq<byte>, ps: seq<Param>, id: int, nextId: int)
    requires Arguments(name, ps, id, nextId)
    ensures var (c, next) := Request(name, ps[0], ps[1], ps[2], id, nextId);
      && Sendable(c) && c.name == name && c.params[..c.count] == Given(ps) && 1 <= next <= 10_000_000
      && c.id == (if id == -1 then nextId else id)
      && (id == -1 ==> next == nextId % 10_000_000 + 1)
  {
    assert ps[1..][0] == ps[1] && ps[1..][1..][0] == ps[2] && ps[1..][1..][1..] == [];
    var c := Request(name, ps[0], ps[1], ps[2], id, nextId).0;
    var g := Given(ps);
    assert |g| == c.count;
    assert c.params[..c.count] == g;
  }

  /** Every request made of integers, byte strings and truth values comes back from its bytes. */
  lemma MadeRequestRoundTrip(name: seq<byte>, ps: seq<Param>, id: int, nextId: int, rest: seq<byte>, pkt: Call, junk: int)
    requires Arguments(name, ps, id, nextId) && Slots(pkt)
    requires forall i :: 0 <= i < |ps| ==> !ps[i].PInt64?
    ensures var c := Request(name, ps[0], ps[1], ps[2], id, nextId).0;
      && Sendable(c)
      && var r := ReadPacket(pkt, EncodeRequest(c) + rest, junk);
        && r.Finished? && r.rest == rest && Slots(r.pkt) && r.pkt.count <= 5
        && r.pkt.name == name && r.pkt.id == (if id == -1 then nextId else id)
        && r.pkt.params[..r.pkt.count] == Given(ps)
  {
    hide EncodeRequest, ReadPacket, Request;
    MadeRequest(name, ps, id, nextId);
    var c := Request(name, ps[0], ps[1], ps[2], id, nextId).0;
    assert AllWritten(c) by {
      forall i | 0 <= i < c.count
        ensures !Unheard(c.params[i])
      {
        assert c.params[i] == c.params[..c.count][i] == Given(ps)[i];
      }
    }
    RequestRoundTrip(c, rest, pkt, junk);
  }
}
