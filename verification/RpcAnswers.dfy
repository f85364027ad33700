/** Packets of any kind from the other side: responses, errors and notifications, with their members in any
    order, as JSON-RPC 2.0 (sections 4, 4.1 and 5) has them; the numbers of the members are written out. */
module RpcAnswers {
  import opened Basics
  import opened Cbor
  import opened Rpc
  import opened RpcTheorems

  // ---------------------------------------------------------------- what is sent

  datatype ErrorField = Code(n: int) | Message(text: seq<byte>) | Data(value: Event)

  datatype Member =
    | Version
    | Id(n: int)
    | Method(name: seq<byte>)
    | Params(ps: seq<Param>)
    | Result(value: Event)
    | Error(fields: seq<ErrorField>)

  function IntEvent(n: int): Event {
    if n >= 0 then UintEvent(n) else NegEvent(-1 - n)
  }

  predicate FieldOk(f: ErrorField) {
    match f
    case Code(n) => IsInt32(n)
    case Message(text) => |text| < W64
    case Data(value) => (value.Uint? || value.NegInt? || value.Bytes?) && Canonical(value)
  }

  predicate MemberOk(m: Member) {
    match m
    case Version => true
    case Id(n) => IsInt32(n)
    case Method(name) => |name| < W64
    case Params(ps) => |ps| <= 5 && forall i :: 0 <= i < |ps| ==> WritableParam(ps[i]) && !Unheard(ps[i])
    case Result(value) => (value.Uint? || value.NegInt? || value.Bytes? || value.Bool?) && Canonical(value)
    case Error(fields) => 0 < |fields| < W64 && forall i :: 0 <= i < |fields| ==> FieldOk(fields[i])
  }

  function FieldEvents(f: ErrorField): (es: seq<Event>)
    requires FieldOk(f)
    ensures |es| == 2 && AllCanonical(es)
  {
    match f
    case Code(n) => [UintEvent(200), IntEvent(n)]
    case Message(text) => [UintEvent(201), Bytes(text)]
    case Data(value) => [UintEvent(202), value]
  }

  function FieldsEvents(fs: seq<ErrorField>): (es: seq<Event>)
    requires forall i :: 0 <= i < |fs| ==> FieldOk(fs[i])
    ensures AllCanonical(es)
  {
    if fs == [] then [] else FieldEvents(fs[0]) + FieldsEvents(fs[1..])
  }

  function MemberEvents(m: Member): (es: seq<Event>)
    requires MemberOk(m)
    ensures |es| >= 2 && AllCanonical(es)
  {
    match m
    case Version => [UintEvent(100), Bytes([0x32, 0x2E, 0x30])]
    case Id(n) => [UintEvent(104), IntEvent(n)]
    case Method(name) => [UintEvent(101), Bytes(name)]
    case Params(ps) =>
      ParamsCanonical(ps);
      [UintEvent(102), ArrayStart(|ps|)] + ParamsEvents(ps)
    case Result(value) => [UintEvent(105), value]
    case Error(fields) => [UintEvent(103), MapStart(|fields|)] + FieldsEvents(fields)
  }

  /** Members of a packet; the parameters and the error come at most once. */
  predicate PacketOk(ms: seq<Member>) {
    && 0 < |ms| < W64
    && (forall i :: 0 <= i < |ms| ==> MemberOk(ms[i]))
    && forall i, j :: 0 <= i < j < |ms| ==> !(ms[i].Params? && ms[j].Params?) && !(ms[i].Error? && ms[j].Error?)
  }

  function MembersEvents(ms: seq<Member>): (es: seq<Event>)
    requires forall i :: 0 <= i < |ms| ==> MemberOk(ms[i])
    ensures AllCanonical(es)
  {
    if ms == [] then [] else MemberEvents(ms[0]) + MembersEvents(ms[1..])
  }

  function PacketEvents(ms: seq<Member>): (es: seq<Event>)
    requires PacketOk(ms)
    ensures AllCanonical(es)
  {
    [MapStart(|ms|)] + MembersEvents(ms)
  }

  // ---------------------------------------------------------------- what it says

  function FieldTold(c: Call, f: ErrorField): Call {
    match f
    case Code(n) => c.(errorCode := n)
    case Message(text) => c.(errorMessage := text)
    case Data(_) => c
  }

  function FieldsTold(c: Call, fs: seq<ErrorField>): Call
    decreases |fs|
  {
    if fs == [] then c else FieldsTold(FieldTold(c, fs[0]), fs[1..])
  }

  function Told(c: Call, m: Member): (c': Call)
    requires Slots(c) && MemberOk(m)
  {
    match m
    case Version => c
    case Id(n) => c.(id := n)
    case Method(name) => c.(name := name)
    case Params(ps) => c.(count := |ps|, params := ps + c.params[|ps|..])
    case Result(_) => c
    case Error(fields) => FieldsTold(c, fields)
  }

  lemma {:induction false} FieldsKeepSlots(c: Call, fs: seq<ErrorField>)
    ensures FieldsTold(c, fs).params == c.params
    decreases |fs|
  {
    if fs != [] {
      FieldsKeepSlots(FieldTold(c, fs[0]), fs[1..]);
    }
  }

  lemma ToldSlots(c: Call, m: Member)
    requires Slots(c) && MemberOk(m)
    ensures Slots(Told(c, m))
  {
    if m.Error? {
      FieldsKeepSlots(c, m.fields);
    }
  }

  function AllTold(c: Call, ms: seq<Member>): (c': Call)
    requires Slots(c) && forall i :: 0 <= i < |ms| ==> MemberOk(ms[i])
    ensures Slots(c')
    decreases |ms|
  {
    if ms == [] then c
    else
      ToldSlots(c, ms[0]);
      AllTold(Told(c, ms[0]), ms[1..])
  }

  // ---------------------------------------------------------------- one field, one member

  lemma KeyTaken(b: Builder, k: nat)
    requires Slots(b.pkt) && 100 <= k <= 202
    ensures b.state.WaitKey? ==> OnEvent(b, UintEvent(k)) == b.(key := k, state := WaitValue)
    ensures b.state.ReadingErrorKey? ==> OnEvent(b, UintEvent(k)) == b.(errorKey := k, state := ReadingErrorValue)
  {
  }

  lemma IntTaken(b: Builder, n: int)
    requires Slots(b.pkt) && IsInt32(n)
    ensures b.state.WaitValue? && b.key == 104 ==> OnEvent(b, IntEvent(n)) == NextKey(b.(pkt := b.pkt.(id := n)))
    ensures b.state.ReadingErrorValue? && b.errorKey == 200 ==>
              OnEvent(b, IntEvent(n)) == ErrorValueRead(b.(pkt := b.pkt.(errorCode := n)))
  {
    IntParamArrives(n);
    hide CallbackInt, WidthOf, ToInt32;
  }

  lemma FieldTaken(b: Builder, f: ErrorField)
    requires Slots(b.pkt) && b.state.ReadingErrorKey? && FieldOk(f)
    ensures var b' := Fold(b, FieldEvents(f));
      exists key :: b' == ErrorValueRead(b.(pkt := FieldTold(b.pkt, f), errorKey := key, state := ReadingErrorValue))
    ensures Quiet(b, FieldEvents(f)[..1])
  {
    var es := FieldEvents(f);
    var key := match f case Code(_) => 200 case Message(_) => 201 case Data(_) => 202;
    assert es == [UintEvent(key), es[1]];
    KeyTaken(b, key);
    var b1 := b.(errorKey := key, state := ReadingErrorValue);
    if f.Code? {
      IntTaken(b1, f.n);
    }
    hide CallbackInt, WidthOf, ToInt32;
    assert OnEvent(b1, es[1]) == ErrorValueRead(b1.(pkt := FieldTold(b.pkt, f)));
    hide OnEvent;
    Two(b, es[0], es[1]);
    assert es[..1] == [es[0]] && [es[0]][1..] == [];
    assert Quiet(b1, []);
  }

  /** The packet becomes `c`, and the other side may go on with the next member. */
  predicate MemberRead(b: Builder, b': Builder, c: Call) {
    && b'.pkt == c && b'.valuesRead == b.valuesRead + 1 && b'.keyCount == b.keyCount
    && b'.state == if b.valuesRead + 1 == b.keyCount then Fin else WaitKey
  }

  lemma {:induction false} FieldsTaken(b: Builder, fs: seq<ErrorField>)
    requires Slots(b.pkt) && b.state.ReadingErrorKey? && fs != [] && forall i :: 0 <= i < |fs| ==> FieldOk(fs[i])
    requires b.errorValuesRead + |fs| == b.errorKeyCount
    ensures var (b', es) := (Fold(b, FieldsEvents(fs)), FieldsEvents(fs));
      && MemberRead(b, b', FieldsTold(b.pkt, fs)) && b'.paramIndex == b.paramIndex
      && es != [] && Quiet(b, es[..|es| - 1])
    decreases |fs|
  {
    hide OnEvent, FieldEvents, Quiet, Fold, FieldOk;
    FieldTaken(b, fs[0]);
    var one, rest := FieldEvents(fs[0]), FieldsEvents(fs[1..]);
    var b1 := Fold(b, one);
    FieldsKeepSlots(b.pkt, [fs[0]]);
    FoldConcat(b, one, rest);
    if |fs| == 1 {
      assert rest == [] && one + rest == one;
      assert FieldsTold(FieldTold(b.pkt, fs[0]), fs[1..]) == FieldTold(b.pkt, fs[0]);
    } else {
      QuietSnoc(b, one);
      FieldsTaken(b1, fs[1..]);
      assert (one + rest)[..|one + rest| - 1] == one + rest[..|rest| - 1];
      FoldConcat(b, one, rest[..|rest| - 1]);
    }
  }

  lemma QuietSnoc(b: Builder, es: seq<Event>)
    requires Slots(b.pkt) && es != [] && Quiet(b, es[..|es| - 1]) && !Fold(b, es).state.Fin?
    ensures Quiet(b, es)
  {
    hide OnEvent;
    var front, last := es[..|es| - 1], es[|es| - 1];
    assert es == front + [last];
    FoldConcat(b, front, [last]);
    assert [last][1..] == [];
    assert Quiet(Fold(b, front), [last]) <==> !OnEvent(Fold(b, front), last).state.Fin?;
  }

  /** A member was read: nothing of it completes the packet too early, and what other members need is left. */
  predicate MemberTaken(b: Builder, m: Member)
    requires Slots(b.pkt) && MemberOk(m)
  {
    var (b', es) := (Fold(b, MemberEvents(m)), MemberEvents(m));
    && MemberRead(b, b', Told(b.pkt, m)) && Quiet(b, es[..|es| - 1])
    && (!m.Params? ==> b'.paramIndex == b.paramIndex) && (!m.Error? ==> b'.errorValuesRead == b.errorValuesRead)
  }

  lemma SimpleTaken(b: Builder, m: Member)
    requires Slots(b.pkt) && b.state.WaitKey? && MemberOk(m) && !m.Params? && !m.Error?
    ensures MemberTaken(b, m)
  {
    var es := MemberEvents(m);
    var k := match m case Version => 100 case Id(_) => 104 case Method(_) => 101 case _ => 105;
    assert es == [UintEvent(k), es[1]];
    KeyTaken(b, k);
    var b1 := b.(key := k, state := WaitValue);
    if m.Id? {
      IntTaken(b1, m.n);
    }
    hide CallbackInt, WidthOf, ToInt32, IntEvent;
    assert OnEvent(b1, es[1]) == NextKey(b1.(pkt := Told(b.pkt, m)));
    hide OnEvent;
    Two(b, es[0], es[1]);
    assert es[..1] == [es[0]] && [es[0]][1..] == [];
    assert Quiet(b1, []);
  }

  lemma ErrorTaken(b: Builder, fields: seq<ErrorField>)
    requires Slots(b.pkt) && b.state.WaitKey? && MemberOk(Error(fields)) && b.errorValuesRead == 0
    ensures MemberTaken(b, Error(fields))
  {
    var head, more := [UintEvent(103), MapStart(|fields|)], FieldsEvents(fields);
    KeyTaken(b, 103);
    var b1 := b.(key := 103, state := WaitValue);
    var b2 := b1.(errorKeyCount := |fields|, state := ReadingErrorKey);
    assert OnEvent(b1, head[1]) == b2;
    hide OnEvent, FieldsEvents, FieldOk;
    Two(b, head[0], head[1]);
    FieldsTaken(b2, fields);
    Longer(b, head, more);
    hide Fold, Quiet;
  }

  lemma Longer(b: Builder, head: seq<Event>, more: seq<Event>)
    requires Slots(b.pkt) && more != [] && Quiet(b, head) && Quiet(Fold(b, head), more[..|more| - 1])
    ensures Fold(b, head + more) == Fold(Fold(b, head), more) && Quiet(b, (head + more)[..|head + more| - 1])
  {
    hide Fold, Quiet, OnEvent;
    FoldConcat(b, head, more);
    FoldConcat(b, head, more[..|more| - 1]);
    assert (head + more)[..|head + more| - 1] == head + more[..|more| - 1];
  }

  lemma ParamsTaken(b: Builder, ps: seq<Param>)
    requires Slots(b.pkt) && b.state.WaitKey? && MemberOk(Params(ps)) && b.paramIndex == 0
    ensures MemberTaken(b, Params(ps))
  {
    hide MemberTaken;
    if ps == [] {
      NoParamsTaken(b);
    } else {
      SomeParamsTaken(b, ps);
    }
  }

  lemma NoParamsTaken(b: Builder)
    requires Slots(b.pkt) && b.state.WaitKey?
    ensures MemberTaken(b, Params([]))
  {
    var b1, es := b.(key := 102, state := WaitValue), MemberEvents(Params([]));
    NoEvents();
    assert es == [UintEvent(102), ArrayStart(0)];
    KeyTaken(b, 102);
    assert OnEvent(b1, ArrayStart(0)) == NextKey(b1.(paramCount := 0, pkt := Told(b.pkt, Params([]))));
    hide OnEvent, ParamsEvents, WidthOf;
    Two(b, es[0], es[1]);
    assert es[..1] == [es[0]] && [es[0]][1..] == [];
    assert Quiet(b1, []);
  }

  lemma SomeParamsTaken(b: Builder, ps: seq<Param>)
    requires Slots(b.pkt) && b.state.WaitKey? && MemberOk(Params(ps)) && b.paramIndex == 0 && ps != []
    ensures MemberTaken(b, Params(ps))
  {
    hide ParamsEvents, WritableParam, Quiet, Fold, Stored, WidthOf;
    ParamsCanonical(ps);
    var head, more := [UintEvent(102), ArrayStart(|ps|)], ParamsEvents(ps);
    KeyTaken(b, 102);
    var b1 := b.(key := 102, state := WaitValue);
    var b3 := b1.(paramCount := |ps|, pkt := b.pkt.(count := |ps|), state := ReadingParams);
    assert OnEvent(b1, head[1]) == b3;
    hide OnEvent;
    Two(b, head[0], head[1]);
    ParamsComplete(b3, ps);
    assert b3.pkt.(params := Stored(b3, ps)) == Told(b.pkt, Params(ps)) by {
      StoredAll(b3, ps);
    }
    ParamsQuiet(b3, ps);
    Longer(b, head, more);
  }

  lemma StoredAll(b: Builder, ps: seq<Param>)
    requires Slots(b.pkt) && b.paramIndex == 0 && |ps| <= 5
    ensures Stored(b, ps) == ps + b.pkt.params[|ps|..]
  {
  }

  lemma NoEvents()
    ensures ParamsEvents([]) == []
  {
  }

  lemma ParamsQuiet(b: Builder, ps: seq<Param>)
    requires Slots(b.pkt) && b.state.ReadingParams? && MemberOk(Params(ps)) && ps != []
    requires b.paramIndex == 0 && b.paramCount == |ps|
    requires |ParamsEvents(ps)| == |ps|
    ensures Quiet(b, ParamsEvents(ps)[..|ps| - 1])
  {
    hide WritableParam, ParamsEvents, OnEvent, Quiet;
    ParamsAreParams(ps);
    var front := ParamsEvents(ps)[..|ps| - 1];
    FillingAll(front);
    FewerQuiet(b, front);
  }

  lemma OneMember(b: Builder, m: Member)
    requires Slots(b.pkt) && b.state.WaitKey? && MemberOk(m)
    requires (m.Params? ==> b.paramIndex == 0) && (m.Error? ==> b.errorValuesRead == 0)
    ensures MemberTaken(b, m)
  {
    hide MemberTaken, MemberOk;
    match m
    case Params(ps) => ParamsTaken(b, ps);
    case Error(fields) => ErrorTaken(b, fields);
    case _ => SimpleTaken(b, m);
  }

  // ---------------------------------------------------------------- a whole packet

  /** What the members to come need to find untouched. */
  predicate Untouched(b: Builder, ms: seq<Member>) {
    && ((exists i :: 0 <= i < |ms| && ms[i].Params?) ==> b.paramIndex == 0)
    && ((exists i :: 0 <= i < |ms| && ms[i].Error?) ==> b.errorValuesRead == 0)
  }

  lemma {:induction false} AllMembers(b: Builder, ms: seq<Member>)
    requires Slots(b.pkt) && b.state.WaitKey? && PacketOk(ms) && Untouched(b, ms) && b.valuesRead + |ms| == b.keyCount
    ensures var (b', es) := (Fold(b, MembersEvents(ms)), MembersEvents(ms));
      b'.state.Fin? && b'.pkt == AllTold(b.pkt, ms) && es != [] && Quiet(b, es[..|es| - 1])
    decreases |ms|
  {
    hide OnEvent, MemberEvents, MemberOk, Quiet, Fold, Told;
    OneMember(b, ms[0]);
    var one, rest := MemberEvents(ms[0]), MembersEvents(ms[1..]);
    var b1 := Fold(b, one);
    ToldSlots(b.pkt, ms[0]);
    assert Untouched(b1, ms[1..]) by {
      LaterMembers(b, b1, ms);
    }
    if |ms| == 1 {
      assert rest == [] && one + rest == one;
      assert AllTold(Told(b.pkt, ms[0]), ms[1..]) == Told(b.pkt, ms[0]);
    } else {
      QuietSnoc(b, one);
      AllMembers(b1, ms[1..]);
      Longer(b, one, rest);
    }
  }

  lemma LaterMembers(b: Builder, b1: Builder, ms: seq<Member>)
    requires PacketOk(ms) && Untouched(b, ms)
    requires !ms[0].Params? ==> b1.paramIndex == b.paramIndex
    requires !ms[0].Error? ==> b1.errorValuesRead == b.errorValuesRead
    ensures Untouched(b1, ms[1..])
  {
    hide MemberOk;
    assert forall i :: 0 <= i < |ms[1..]| ==> ms[1..][i] == ms[i + 1];
  }

  /** Whatever the members of a packet are and in whichever order they come: the reader finishes with exactly
      their contents and leaves exactly what follows. */
  lemma AnyPacketRead(ms: seq<Member>, rest: seq<byte>, pkt: Call, junk: int)
    requires PacketOk(ms) && Slots(pkt)
    ensures ReadPacket(pkt, EncodeAll(PacketEvents(ms)) + rest, junk) == Finished(AllTold(ResetCall(pkt), ms), rest)
  {
    hide MembersEvents, MemberOk, Untouched, Quiet, Fold, AllTold, EncodeAll;
    var b, es := NewBuilder(pkt, junk), MembersEvents(ms);
    var b1 := b.(keyCount := |ms|, valid := true, state := WaitKey);
    assert OnEvent(b, MapStart(|ms|)) == b1;
    hide OnEvent;
    assert Untouched(b1, ms) by {
      NewUntouched(b1, ms);
    }
    AllMembers(b1, ms);
    assert Fold(b, [MapStart(|ms|)]) == b1 && Quiet(b, [MapStart(|ms|)]) by {
      OneEvent(b, MapStart(|ms|));
    }
    Longer(b, [MapStart(|ms|)], es);
    ReadAllItems(b, PacketEvents(ms), rest);
  }

  lemma NewUntouched(b: Builder, ms: seq<Member>)
    requires b.paramIndex == 0 && b.errorValuesRead == 0
    ensures Untouched(b, ms)
  {
  }

  lemma OneEvent(b: Builder, e: Event)
    requires Slots(b.pkt) && !OnEvent(b, e).state.Fin?
    ensures Fold(b, [e]) == OnEvent(b, e) && Quiet(b, [e])
  {
    hide OnEvent;
    assert [e][1..] == [];
    assert Quiet(OnEvent(b, e), []);
  }

  // ---------------------------------------------------------------- answers

  /** The answer to a call: its id comes back, no name and no error. */
  lemma ResponseRead(id: int, value: Event, rest: seq<byte>, pkt: Call, junk: int)
    requires IsInt32(id) && MemberOk(Result(value)) && Slots(pkt)
    ensures var es := [MapStart(3), UintEvent(100), Bytes([0x32, 0x2E, 0x30]), UintEvent(104), IntEvent(id), UintEvent(105), value];
      var r := ReadPacket(pkt, EncodeAll(es) + rest, junk);
      && r.Finished? && r.rest == rest
      && r.pkt.id == id && r.pkt.name == [] && r.pkt.errorCode == 0 && r.pkt.errorMessage == [] && r.pkt.count == 0
  {
    hide ReadFrom, EncodeAll;
    var ms := [Version, Id(id), Result(value)];
    AnyPacketRead(ms, rest, pkt, junk);
    assert MembersEvents(ms[3..]) == [];
    assert MembersEvents(ms[2..]) == MemberEvents(ms[2]);
    assert MembersEvents(ms[1..]) == MemberEvents(ms[1]) + MembersEvents(ms[2..]);
    assert PacketEvents(ms) == [MapStart(3), UintEvent(100), Bytes([0x32, 0x2E, 0x30]), UintEvent(104), IntEvent(id), UintEvent(105), value];
    assert AllTold(ResetCall(pkt), ms) == ResetCall(pkt).(id := id) by {
      ThreeTold(ResetCall(pkt), ms);
    }
  }

  lemma ThreeTold(c: Call, ms: seq<Member>)
    requires Slots(c) && |ms| == 3 && forall i :: 0 <= i < |ms| ==> MemberOk(ms[i])
    requires !ms[0].Error? && !ms[1].Error? && !ms[0].Params? && !ms[1].Params?
    ensures AllTold(c, ms) == Told(Told(Told(c, ms[0]), ms[1]), ms[2])
  {
    hide MemberOk;
    var c1, c2 := Told(c, ms[0]), Told(Told(c, ms[0]), ms[1]);
    ToldSlots(c2, ms[2]);
    assert AllTold(c2, ms[2..]) == Told(c2, ms[2]);
    assert ms[1..][1..] == ms[2..] && AllTold(c1, ms[1..]) == AllTold(c2, ms[2..]);
  }

  /** The refusal of a call: its id, code and message come back, whatever the data. */
  lemma ErrorRead(id: int, code: int, text: seq<byte>, data: Event, rest: seq<byte>, pkt: Call, junk: int)
    requires IsInt32(id) && IsInt32(code) && |text| < W64 && FieldOk(Data(data)) && Slots(pkt)
    ensures var es := [MapStart(3), UintEvent(100), Bytes([0x32, 0x2E, 0x30]), UintEvent(104), IntEvent(id), UintEvent(103),
                       MapStart(3), UintEvent(200), IntEvent(code), UintEvent(201), Bytes(text), UintEvent(202), data];
      var r := ReadPacket(pkt, EncodeAll(es) + rest, junk);
      && r.Finished? && r.rest == rest
      && r.pkt.id == id && r.pkt.name == [] && r.pkt.errorCode == code && r.pkt.errorMessage == text && r.pkt.count == 0
  {
    var ms := [Version, Id(id), Error([Code(code), Message(text), Data(data)])];
    ErrorEvents(id, code, text, data);
    hide ReadFrom, EncodeAll, PacketEvents, MembersEvents, MemberEvents, IntEvent, FieldsTold, AllTold, PacketOk;
    AnyPacketRead(ms, rest, pkt, junk);
    var c := ResetCall(pkt);
    ThreeTold(c, ms);
    ThreeFields(c.(id := id), code, text, data);
    assert AllTold(c, ms) == c.(id := id, errorCode := code, errorMessage := text);
  }

  lemma ErrorEvents(id: int, code: int, text: seq<byte>, data: Event)
    requires IsInt32(id) && IsInt32(code) && |text| < W64 && FieldOk(Data(data))
    ensures var ms := [Version, Id(id), Error([Code(code), Message(text), Data(data)])];
      && PacketOk(ms)
      && PacketEvents(ms) == [MapStart(3), UintEvent(100), Bytes([0x32, 0x2E, 0x30]), UintEvent(104), IntEvent(id), UintEvent(103),
                              MapStart(3), UintEvent(200), IntEvent(code), UintEvent(201), Bytes(text), UintEvent(202), data]
  {
    hide WidthOf, IntEvent, FieldsEvents;
    var fs := [Code(code), Message(text), Data(data)];
    var ms := [Version, Id(id), Error(fs)];
    assert forall i :: 0 <= i < |fs| ==> FieldOk(fs[i]);
    ErrorFields(code, text, data);
    assert MembersEvents(ms[3..]) == [];
    assert MembersEvents(ms[2..]) == MemberEvents(ms[2]);
    assert MembersEvents(ms[1..]) == MemberEvents(ms[1]) + MembersEvents(ms[2..]);
  }

  lemma ErrorFields(code: int, text: seq<byte>, data: Event)
    requires FieldOk(Code(code)) && FieldOk(Message(text)) && FieldOk(Data(data))
    ensures var fs := [Code(code), Message(text), Data(data)];
      && (forall i :: 0 <= i < |fs| ==> FieldOk(fs[i]))
      && FieldsEvents(fs) == [UintEvent(200), IntEvent(code), UintEvent(201), Bytes(text), UintEvent(202), data]
  {
    hide WidthOf, IntEvent, FieldOk;
    var fs := [Code(code), Message(text), Data(data)];
    assert FieldsEvents(fs[3..]) == [];
    assert FieldsEvents(fs[2..]) == FieldEvents(fs[2]);
    assert FieldsEvents(fs[1..]) == FieldEvents(fs[1]) + FieldsEvents(fs[2..]);
  }

  lemma ThreeFields(c: Call, code: int, text: seq<byte>, data: Event)
    ensures FieldsTold(c, [Code(code), Message(text), Data(data)]) == c.(errorCode := code, errorMessage := text)
  {
    var fs := [Code(code), Message(text), Data(data)];
    var c2 := c.(errorCode := code, errorMessage := text);
    assert fs[2..] == [Data(data)] && fs[1..][1..] == fs[2..] && fs[2..][1..] == [];
    assert FieldsTold(c2, fs[2..]) == c2;
  }

  // ---------------------------------------------------------------- what is refused

  /** What the builder is ready for, by the numbers of the members. */
  predicate Expected(b: Builder, e: Event) {
    var integer := e.Uint? || e.NegInt?;
    match b.state
    case NotStart => e.MapStart?
    case WaitKey => integer
    case WaitValue =>
      || (b.key == 100 && e == Bytes([0x32, 0x2E, 0x30]))
      || (b.key == 101 && e.Bytes?)
      || (b.key == 102 && e.ArrayStart?)
      || (b.key == 103 && e.MapStart?)
      || (b.key == 104 && integer)
      || (b.key == 105 && (integer || e.Bytes? || e.Bool?))
    case ReadingParams => b.paramIndex < 5 && (integer || e.Bytes? || e.Bool?)
    case ReadingErrorKey => integer
    case ReadingErrorValue =>
      (b.errorKey == 200 && integer) || (b.errorKey == 201 && e.Bytes?) || (b.errorKey == 202 && (integer || e.Bytes?))
    case Fin => false
    case Failed => false
  }

  /** An item that the reader hears of fails the packet exactly when it is not one that may come there. */
  lemma RefusedIff(b: Builder, e: Event)
    requires Slots(b.pkt) && (e.Uint? || e.NegInt? || e.Bytes? || e.Bool? || e.ArrayStart? || e.MapStart?)
    ensures OnEvent(b, e).state.Failed? <==> !Expected(b, e)
  {
    hide CallbackInt, OnInteger, OnBytes, OnBool, OnArray, OnMap;
    match e
    case Uint(width, n) => RefusedInteger(b, e, CallbackInt(false, width, n));
    case NegInt(width, n) => RefusedInteger(b, e, CallbackInt(true, width, n));
    case Bytes(data) => RefusedBytes(b, data);
    case Bool(value) => RefusedBool(b, value);
    case ArrayStart(size) => RefusedHead(b, size);
    case MapStart(size) => RefusedHead(b, size);
  }

  lemma RefusedInteger(b: Builder, e: Event, value: int)
    requires Slots(b.pkt) && (e.Uint? || e.NegInt?)
    ensures OnInteger(b, value).state.Failed? <==> !Expected(b, e)
  {
    hide ToInt32;
  }

  lemma RefusedBytes(b: Builder, data: seq<byte>)
    requires Slots(b.pkt)
    ensures OnBytes(b, data).state.Failed? <==> !Expected(b, Bytes(data))
  {
  }

  lemma RefusedBool(b: Builder, value: bool)
    requires Slots(b.pkt)
    ensures OnBool(b, value).state.Failed? <==> !Expected(b, Bool(value))
  {
  }

  lemma RefusedHead(b: Builder, size: nat)
    ensures OnArray(b, size).state.Failed? <==> !Expected(b, ArrayStart(size))
    ensures OnMap(b, size).state.Failed? <==> !Expected(b, MapStart(size))
  {
  }
}
