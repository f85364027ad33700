/** What `handleBuffer` does to encoded packets: whole packets, packets cut in two, and the exact conditions. */
module PacketTheorems {
  import opened Basics
  import opened Cbor
  import opened Packets

  // ---------------------------------------------------------------- running over encoded items

  lemma OnEventsSnoc(b: Builder, es: seq<Event>, e: Event)
    ensures OnEvents(b, es + [e]) == OnEvent(OnEvents(b, es), e)
  {
    assert (es + [e])[..|es|] == es;
  }

  lemma {:induction false} OnEventsConcat(b: Builder, a: seq<Event>, c: seq<Event>)
    ensures OnEvents(b, a + c) == OnEvents(OnEvents(b, a), c)
    decreases |c|
  {
    hide OnEvent;
    if c == [] {
      assert a + c == a;
    } else {
      var c' := c[..|c| - 1];
      assert a + c == (a + c') + [c[|c'|]] && c == c' + [c[|c'|]];
      OnEventsSnoc(b, a + c', c[|c'|]);
      OnEventsSnoc(OnEvents(b, a), c', c[|c'|]);
      OnEventsConcat(b, a, c');
    }
  }

  lemma HandledGrows(b: Builder, e: Event)
    ensures OnEvent(b, e).handled >= b.handled
  {
  }

  lemma {:induction false} HandledGrowsAll(b: Builder, es: seq<Event>)
    ensures OnEvents(b, es).handled >= b.handled
    decreases |es|
  {
    hide OnEvent;
    if es != [] {
      HandledGrowsAll(b, es[..|es| - 1]);
      HandledGrows(OnEvents(b, es[..|es| - 1]), es[|es| - 1]);
    }
  }

  /** The loop hands the builder every whole item, and then settles as far as the last of them once a
      packet has been handled. */
  lemma {:induction false} DrainItems(b: Builder, es: seq<Event>, part: seq<byte>, total: nat, settled: nat)
    requires AllCanonical(es) && !Decode(part).Item?
    requires b.handled != 0 ==> settled == total
    ensures var end := OnEvents(b, es);
      Drain(b, EncodeAll(es) + part, total, settled) ==
      Run(end, |part|, if end.handled != 0 then total + |EncodeAll(es)| else settled,
          if Decode(part).Malformed? then Error else NoData)
    decreases |es|
  {
    hide OnEvent, Decode, Encode, Canonical;
    if es == [] {
      assert EncodeAll(es) + part == part;
    } else {
      var s, b', head := EncodeAll(es) + part, OnEvent(b, es[0]), Encode(es[0]);
      assert s == head + (EncodeAll(es[1..]) + part);
      ItemRoundTrip(es[0], EncodeAll(es[1..]) + part);
      assert s[|head|..] == EncodeAll(es[1..]) + part;
      HandledGrows(b, es[0]);
      DrainItems(b', es[1..], part, total + |head|, if b'.handled != 0 then total + |head| else settled);
      assert es == [es[0]] + es[1..];
      OnEventsConcat(b, [es[0]], es[1..]);
      OnEventsSnoc(b, [], es[0]);
      assert [] + [es[0]] == [es[0]];
      HandledGrowsAll(b', es[1..]);
    }
  }

  // ---------------------------------------------------------------- one packet

  /** What a timestamp becomes: the four-byte negative callback loses the sign. */
  function Arrives(timestamp: int): int {
    if -0x1_0000_0000 <= timestamp < -0x1_0000 then timestamp + 0x1_0000_0000 else timestamp
  }

  /** The first `k` fields of a packet are in the builder's packet. */
  predicate Stored(m: Message, p: Packet, k: nat) {
    && (k > 0 ==> m.requestId == p.requestId)
    && (k > 1 ==> m.type_ == p.type_)
    && (k > 2 ==> m.command == p.command)
    && (k > 3 ==> m.data == p.data)
    && (p.timing.Timed? ==>
          && (k > 4 ==> m.timeout == p.timing.timeout)
          && (k > 5 ==> m.timestamp == Arrives(p.timing.timestamp)))
  }

  predicate Carries(m: Message, p: Packet) {
    Stored(m, p, 6) && m.len == if p.timing.Timed? then 6 else 4
  }

  /** Between packets. */
  predicate Idle(b: Builder) {
    b.field == 0 && !b.valid
  }

  /** In the middle of packet `p`, which began at `start`. */
  predicate Within(b: Builder, start: Builder, p: Packet, k: nat) {
    && b.valid && b.field == k && b.handled == start.handled && b.delivered == start.delivered
    && Stored(b.pkt, p, k) && b.pkt.len == if p.timing.Timed? then 6 else 4
  }

  /** Packet `p` has been handed on, and nothing else. */
  ghost predicate Finished(b: Builder, start: Builder, p: Packet) {
    Idle(b) && b.handled == start.handled + 1 && exists m :: b.delivered == start.delivered + [m] && Carries(m, p)
  }

  /** An integer survives the writer, the callback of its width and the narrowing. */
  lemma IntArrives(n: int)
    requires IsInt64(n)
    ensures var v := match EventOf(VInt(n)) case Uint(w, k) => CallbackInt(false, w, k) case NegInt(w, k) => CallbackInt(true, w, k) case _ => 0;
      v == Arrives(n) && (IsInt32(n) ==> ToInt32(v) == n)
  {
    if n < 0 {
      NegativeArrives(n);
    }
  }

  lemma NegativeArrives(n: int)
    requires IsInt64(n) && n < 0
    ensures var v := CallbackInt(true, WidthOf(-1 - n), -1 - n);
      v == Arrives(n) && (IsInt32(n) ==> ToInt32(v) == n)
  {
    var k := -1 - n;
    if W16 <= k < W32 {
      assert (-1 - k) % W32 == W32 - 1 - k;
    }
  }

  lemma StepField(b: Builder, start: Builder, p: Packet, k: nat)
    requires Sendable(p) && k < |Fields(p)| && Within(b, start, p, k)
    ensures var b' := OnEvent(b, PacketEvents(p)[k + 1]);
      if k + 1 < |Fields(p)| then Within(b', start, p, k + 1) else Finished(b', start, p)
  {
    hide CallbackInt, ToInt32, ToInt64, WidthOf, Head;
    assert PacketEvents(p)[k + 1] == EventOf(Fields(p)[k]);
    match Fields(p)[k]
    case VInt(n) =>
      IntArrives(n);
      var value := match EventOf(VInt(n)) case Uint(w, j) => CallbackInt(false, w, j) case NegInt(w, j) => CallbackInt(true, w, j) case _ => 0;
      assert OnEvent(b, EventOf(VInt(n))) == HandleInteger(b, value);
      IntegerStored(b, start, p, k, value);
    case VBytes(data) =>
      assert OnEvent(b, Bytes(data)) == HandleBytes(b, data);
      BytesStored(b, start, p, k);
  }

  lemma IntegerStored(b: Builder, start: Builder, p: Packet, k: nat, value: int)
    requires Sendable(p) && k < |Fields(p)| && Within(b, start, p, k) && Fields(p)[k].VInt?
    requires value == Arrives(Fields(p)[k].n) && (IsInt32(Fields(p)[k].n) ==> ToInt32(value) == Fields(p)[k].n)
    ensures var b' := HandleInteger(b, value);
      if k + 1 < |Fields(p)| then Within(b', start, p, k + 1) else Finished(b', start, p)
  {
    hide ToInt32, Arrives;
    if k + 1 == |Fields(p)| {
      assert k == 5;
      var m := b.pkt.(timestamp := value);
      assert HandleInteger(b, value).delivered == start.delivered + [m];
    }
  }

  lemma BytesStored(b: Builder, start: Builder, p: Packet, k: nat)
    requires Sendable(p) && k < |Fields(p)| && Within(b, start, p, k) && Fields(p)[k].VBytes?
    ensures var b' := HandleBytes(b, Fields(p)[k].data);
      if k + 1 < |Fields(p)| then Within(b', start, p, k + 1) else Finished(b', start, p)
  {
    hide Arrives;
    if k + 1 == |Fields(p)| {
      assert k == 3;
      var m := b.pkt.(data := p.data);
      assert HandleBytes(b, p.data).delivered == start.delivered + [m];
    }
  }

  /** After some items of a packet but not all of them, the builder is in the middle of it. */
  lemma {:induction false} WithinPacket(b: Builder, p: Packet, i: nat)
    requires Sendable(p) && Idle(b) && 1 <= i <= |Fields(p)|
    ensures Within(OnEvents(b, PacketEvents(p)[..i]), b, p, i - 1)
  {
    hide EventsOf, Fields;
    var es := PacketEvents(p);
    OnEventsSnoc(b, es[..i - 1], es[i - 1]);
    assert es[..i] == es[..i - 1] + [es[i - 1]];
    if i == 1 {
      assert OnEvents(b, es[..0]) == b;
      FirstEvent(p);
    } else {
      WithinPacket(b, p, i - 1);
      StepField(OnEvents(b, es[..i - 1]), b, p, i - 2);
    }
  }

  lemma FirstEvent(p: Packet)
    requires Sendable(p)
    ensures PacketEvents(p)[0] == ArrayStart(if p.timing.Timed? then 6 else 4)
  {
  }

  lemma WholePacket(b: Builder, p: Packet)
    requires Sendable(p) && Idle(b)
    ensures Finished(OnEvents(b, PacketEvents(p)), b, p)
  {
    hide EventsOf, Fields, Within, Carries, OnEvent;
    var es := PacketEvents(p);
    WithinPacket(b, p, |es| - 1);
    OnEventsSnoc(b, es[..|es| - 1], es[|es| - 1]);
    assert es == es[..|es| - 1] + [es[|es| - 1]];
    StepField(OnEvents(b, es[..|es| - 1]), b, p, |es| - 2);
  }

  // ---------------------------------------------------------------- many packets

  predicate AllSendable(ps: seq<Packet>) {
    forall i :: 0 <= i < |ps| ==> Sendable(ps[i])
  }

  function PacketsEvents(ps: seq<Packet>): (es: seq<Event>)
    requires AllSendable(ps)
    ensures AllCanonical(es)
  {
    if ps == [] then [] else PacketsEvents(ps[..|ps| - 1]) + PacketEvents(ps[|ps| - 1])
  }

  /** The bytes of packets sent one after the other. */
  function EncodePackets(ps: seq<Packet>): seq<byte>
    requires AllSendable(ps)
  {
    if ps == [] then [] else EncodePackets(ps[..|ps| - 1]) + EncodePacket(ps[|ps| - 1])
  }

  lemma {:induction false} EncodePacketsIs(ps: seq<Packet>)
    requires AllSendable(ps)
    ensures EncodePackets(ps) == EncodeAll(PacketsEvents(ps))
    decreases |ps|
  {
    hide PacketEvents, EncodeAll;
    if ps == [] {
      assert EncodeAll([]) == [] by {
        EncodeNothing();
      }
    } else {
      EncodePacketsIs(ps[..|ps| - 1]);
      EncodeAllConcat(PacketsEvents(ps[..|ps| - 1]), PacketEvents(ps[|ps| - 1]));
    }
  }

  lemma EncodeNothing()
    ensures EncodeAll([]) == []
  {
  }

  /** Messages carry packets one for one, in order. */
  predicate CarryAll(ms: seq<Message>, ps: seq<Packet>) {
    |ms| == |ps| && forall i :: 0 <= i < |ps| ==> Carries(ms[i], ps[i])
  }

  lemma {:induction false} WholePackets(b: Builder, ps: seq<Packet>)
    requires AllSendable(ps) && Idle(b) && b.delivered == [] && b.handled == 0
    ensures var b' := OnEvents(b, PacketsEvents(ps));
      Idle(b') && b'.handled == |ps| && CarryAll(b'.delivered, ps)
    decreases |ps|
  {
    hide PacketEvents, Carries, OnEvent, OnEvents, Sendable, Idle, Finished;
    if ps == [] {
      NoEventsYet(b);
    } else {
      var front, last := ps[..|ps| - 1], ps[|ps| - 1];
      WholePackets(b, front);
      var b1 := OnEvents(b, PacketsEvents(front));
      WholePacket(b1, last);
      OnEventsConcat(b, PacketsEvents(front), PacketEvents(last));
      OneMorePacket(b1, OnEvents(b1, PacketEvents(last)), ps);
    }
  }

  lemma NoEventsYet(b: Builder)
    ensures OnEvents(b, []) == b
  {
  }

  lemma OneMorePacket(b: Builder, b': Builder, ps: seq<Packet>)
    requires ps != [] && CarryAll(b.delivered, ps[..|ps| - 1]) && Finished(b', b, ps[|ps| - 1])
    ensures Idle(b') && b'.handled == b.handled + 1 && CarryAll(b'.delivered, ps)
  {
    hide Carries, Idle;
  }

  // ---------------------------------------------------------------- the buffer

  /** What is left once no whole item can be read any more. */
  function Leftover(s: seq<byte>): seq<byte>
    decreases |s|
  {
    match Decode(s)
    case Item(_, read) => Leftover(s[read..])
    case _ => s
  }

  lemma {:induction false} LeftoverIs(es: seq<Event>, part: seq<byte>)
    requires AllCanonical(es) && Decode(part) == NeedData
    ensures Leftover(EncodeAll(es) + part) == part
    decreases |es|
  {
    hide Decode, Encode, Canonical;
    if es == [] {
      assert EncodeAll(es) + part == part;
    } else {
      var s, head := EncodeAll(es) + part, Encode(es[0]);
      assert s == head + (EncodeAll(es[1..]) + part);
      ItemRoundTrip(es[0], EncodeAll(es[1..]) + part);
      assert s[|head|..] == EncodeAll(es[1..]) + part;
      LeftoverIs(es[1..], part);
    }
  }

  /** What is kept of some whole items and the beginning of another. */
  lemma HandleItems(es: seq<Event>, part: seq<byte>, junk: Message)
    requires AllCanonical(es) && Decode(part) == NeedData
    ensures var end := OnEvents(FreshBuilder(junk), es);
      var bytes := EncodeAll(es) + part;
      HandleBuffer(bytes, junk) ==
      Outcome(end.delivered,
              if end.handled == 0 then (if !end.valid || part != [] then bytes else [])
              else if |EncodeAll(es)| < |part| then part else [],
              NoData)
  {
    hide OnEvent, Decode, EncodeAll;
    DrainItems(FreshBuilder(junk), es, part, 0, 0);
    assert (EncodeAll(es) + part)[|EncodeAll(es)|..] == part;
    assert (EncodeAll(es) + part)[0..] == EncodeAll(es) + part;
    if part == [] && EncodeAll(es) == [] {
      assert EncodeAll(es) + part == [];
    }
  }

  /** `t` is a proper beginning of a packet. */
  predicate Beginning(t: seq<byte>, q: Packet)
    requires Sendable(q)
  {
    |t| < |EncodePacket(q)| && t == EncodePacket(q)[..|t|]
  }

  /** Whole packets, delivered in order with equal fields from a read that holds nothing else: nothing is
      lost and nothing stays behind. */
  lemma WholePacketsDelivered(ps: seq<Packet>, junk: Message)
    requires AllSendable(ps)
    ensures var out := HandleBuffer(EncodePackets(ps), junk);
      CarryAll(out.delivered, ps) && out.buffer == [] && out.status == NoData
  {
    hide OnEvent, CarryAll, Decode;
    EncodePacketsIs(ps);
    EmptyNeedsData();
    HandleItems(PacketsEvents(ps), [], junk);
    assert EncodePackets(ps) + [] == EncodePackets(ps);
    WholePackets(FreshBuilder(junk), ps);
    if ps == [] {
      EncodeNothing();
    }
  }

  /** The bytes of whole packets and a beginning, as whole items and the beginning of one. */
  lemma TailItems(ps: seq<Packet>, q: Packet, t: seq<byte>) returns (i: nat, part: seq<byte>)
    requires AllSendable(ps) && Sendable(q) && Beginning(t, q)
    ensures i < |PacketEvents(q)| && t == EncodeAll(PacketEvents(q)[..i]) + part && Decode(part) == NeedData
    ensures EncodePackets(ps) + t == EncodeAll(PacketsEvents(ps) + PacketEvents(q)[..i]) + part
    ensures Leftover(t) == part && (if i == 0 then t == [] else |part| < |t|)
  {
    hide Decode, PacketEvents, PacketsEvents, EncodePackets, Leftover, EncodeAll, Encode, Canonical, AllCanonical, Sendable;
    i, part := CutAt(PacketEvents(q), |t|);
    var es, es' := PacketsEvents(ps), PacketEvents(q)[..i];
    CanonicalPrefix(PacketEvents(q), i);
    assert t == EncodeAll(es') + part;
    LeftoverIs(es', part);
    EncodePacketsIs(ps);
    EncodeAllConcat(es, es');
    TailBytes(q, i, part);
  }

  lemma CanonicalPrefix(es: seq<Event>, i: nat)
    requires AllCanonical(es) && i <= |es|
    ensures AllCanonical(es[..i])
  {
  }

  lemma TailRun(ps: seq<Packet>, q: Packet, i: nat, junk: Message)
    requires AllSendable(ps) && Sendable(q) && i < |PacketEvents(q)|
    ensures var end := OnEvents(FreshBuilder(junk), PacketsEvents(ps) + PacketEvents(q)[..i]);
      end.handled == |ps| && CarryAll(end.delivered, ps) && (end.valid <==> i > 0)
  {
    hide OnEvent, CarryAll, PacketEvents;
    var b, es := FreshBuilder(junk), PacketsEvents(ps);
    OnEventsConcat(b, es, PacketEvents(q)[..i]);
    WholePackets(b, ps);
    TailState(OnEvents(b, es), q, i);
  }

  /** Any number of whole packets and the beginning of another one.  The whole packets are delivered; the
      beginning is kept for the next read exactly when there is none, or when it stands alone and breaks
      off inside an item. */
  lemma TailKept(ps: seq<Packet>, q: Packet, t: seq<byte>, junk: Message)
    requires AllSendable(ps) && Sendable(q) && Beginning(t, q)
    ensures var out := HandleBuffer(EncodePackets(ps) + t, junk);
      && CarryAll(out.delivered, ps)
      && (out.buffer == t <==> t == [] || (ps == [] && Leftover(t) != []))
  {
    hide OnEvent, CarryAll, Decode, PacketEvents, PacketsEvents, EncodePackets, Leftover, HandleBuffer;
    hide EncodeAll, AllCanonical, Sendable, AllSendable;
    var i, part := TailItems(ps, q, t);
    TailRun(ps, q, i, junk);
    var es := PacketsEvents(ps) + PacketEvents(q)[..i];
    assert AllCanonical(es) by {
      CanonicalPrefix(PacketEvents(q), i);
      CanonicalConcat(PacketsEvents(ps), PacketEvents(q)[..i]);
    }
    HandleItems(es, part, junk);
    var bytes := EncodePackets(ps) + t;
    assert bytes == EncodeAll(es) + part;
    if ps == [] {
      assert bytes == t by {
        NoPackets();
      }
    } else {
      PacketsNonEmpty(ps);
      assert |bytes| > |t|;
    }
  }

  lemma NoPackets()
    ensures EncodePackets([]) == []
  {
  }

  lemma CanonicalConcat(a: seq<Event>, b: seq<Event>)
    requires AllCanonical(a) && AllCanonical(b)
    ensures AllCanonical(a + b)
  {
  }

  lemma TailState(b: Builder, q: Packet, i: nat)
    requires Sendable(q) && Idle(b) && i < |PacketEvents(q)|
    ensures var b' := OnEvents(b, PacketEvents(q)[..i]);
      b'.handled == b.handled && b'.delivered == b.delivered && (b'.valid <==> i > 0)
  {
    hide OnEvent, PacketEvents, Fields;
    if i == 0 {
      assert OnEvents(b, PacketEvents(q)[..0]) == b;
    } else {
      WithinPacket(b, q, i);
    }
  }

  /** The head of a packet is a single byte, so only the empty text ends before it. */
  lemma TailBytes(q: Packet, i: nat, part: seq<byte>)
    requires Sendable(q) && i < |PacketEvents(q)| && |part| < |Encode(PacketEvents(q)[i])|
    ensures i == 0 ==> part == []
    ensures i == 0 <==> EncodeAll(PacketEvents(q)[..i]) == []
  {
    FirstEvent(q);
    hide Decode, PacketEvents;
    if i > 0 {
      assert EncodeAll(PacketEvents(q)[..i]) == Encode(PacketEvents(q)[..i][0]) + EncodeAll(PacketEvents(q)[..i][1..]);
    }
  }

  lemma PacketsNonEmpty(ps: seq<Packet>)
    requires AllSendable(ps) && ps != []
    ensures EncodePackets(ps) != []
  {
    hide PacketEvents;
    var es := PacketEvents(ps[|ps| - 1]);
    assert EncodeAll(es) == Encode(es[0]) + EncodeAll(es[1..]);
  }

  // ---------------------------------------------------------------- one packet in two reads

  lemma {:induction false} NothingWithoutHead(b: Builder, es: seq<Event>)
    requires Idle(b) && forall i :: 0 <= i < |es| ==> !es[i].ArrayStart?
    ensures OnEvents(b, es) == b
    decreases |es|
  {
    if es != [] {
      NothingWithoutHead(b, es[..|es| - 1]);
    }
  }

  /** A packet that two reads cut arrives exactly when the cut is inside an item; then nothing stays
      behind.  A cut between two items loses the packet. */
  lemma TwoReads(p: Packet, cut: nat, junk: Message, junk': Message)
    requires Sendable(p) && 0 < cut < |EncodePacket(p)|
    ensures var (a, b) := (EncodePacket(p)[..cut], EncodePacket(p)[cut..]);
      var first := HandleBuffer(a, junk);
      var second := HandleBuffer(first.buffer + b, junk');
      && first.delivered == []
      && (CarryAll(second.delivered, [p]) <==> Leftover(a) != [])
      && (Leftover(a) != [] ==> second.buffer == [])
      && (Leftover(a) == [] ==> second.delivered == [])
  {
    hide OnEvent, Decode, PacketEvents, Leftover, HandleBuffer, CarryAll;
    var (a, b) := (EncodePacket(p)[..cut], EncodePacket(p)[cut..]);
    assert EncodePackets([]) + a == a;
    TailKept([], p, a, junk);
    assert HandleBuffer(a, junk).delivered == [] by {
      NoneCarried(HandleBuffer(a, junk).delivered);
    }
    if Leftover(a) != [] {
      assert a + b == EncodePacket(p);
      assert EncodePackets([p]) == EncodePacket(p) by {
        OnePacket(p);
      }
      WholePacketsDelivered([p], junk');
    } else {
      LostBetweenItems(p, cut, junk, junk');
      NoneDelivered(p);
    }
  }

  lemma OnePacket(p: Packet)
    requires Sendable(p)
    ensures EncodePackets([p]) == EncodePacket(p)
  {
    assert [p][..0] == [];
    assert EncodePackets([]) + EncodePacket(p) == EncodePacket(p);
  }

  lemma NoneCarried(ms: seq<Message>)
    requires CarryAll(ms, [])
    ensures ms == []
  {
  }

  lemma NoneDelivered(p: Packet)
    ensures !CarryAll([], [p])
  {
  }

  lemma LostBetweenItems(p: Packet, cut: nat, junk: Message, junk': Message)
    requires Sendable(p) && 0 < cut < |EncodePacket(p)| && Leftover(EncodePacket(p)[..cut]) == []
    ensures var first := HandleBuffer(EncodePacket(p)[..cut], junk);
      first.buffer == [] && HandleBuffer(first.buffer + EncodePacket(p)[cut..], junk').delivered == []
  {
    hide OnEvent, Decode, PacketEvents, Leftover, HandleBuffer, Encode;
    var es := PacketEvents(p);
    var i, part := CutAt(es, cut);
    var a, b := EncodePacket(p)[..cut], EncodePacket(p)[cut..];
    LeftoverIs(es[..i], part);
    assert part == [];
    assert a == EncodeAll(es[..i]);
    EncodeAllConcat(es[..i], es[i..]);
    assert es == es[..i] + es[i..];
    assert b == EncodeAll(es[i..]);
    TailBytes(p, i, part);
    TailState(FreshBuilder(junk), p, i);
    EmptyNeedsData();
    HandleItems(es[..i], [], junk);
    assert a + [] == a;
    HandleItems(es[i..], [], junk');
    assert [] + b == b && b + [] == b;
    OnlyOneHead(p, i);
    NothingWithoutHead(FreshBuilder(junk'), es[i..]);
  }

  lemma OnlyOneHead(p: Packet, i: nat)
    requires Sendable(p) && 1 <= i <= |PacketEvents(p)|
    ensures forall k :: 0 <= k < |PacketEvents(p)[i..]| ==> !PacketEvents(p)[i..][k].ArrayStart?
  {
    var es := PacketEvents(p);
    forall k | 0 <= k < |es[i..]|
      ensures !es[i..][k].ArrayStart?
    {
      assert es[i..][k] == es[i + k] == EventOf(Fields(p)[i + k - 1]);
    }
  }

  /** A timestamp arrives unchanged exactly outside the range that is written with four bytes. */
  lemma TimestampArrives(p: Packet, junk: Message)
    requires Sendable(p) && p.timing.Timed?
    ensures var out := HandleBuffer(EncodePacket(p), junk);
      && |out.delivered| == 1
      && (out.delivered[0].timestamp == p.timing.timestamp <==> !(-0x1_0000_0000 <= p.timing.timestamp < -0x1_0000))
  {
    hide HandleBuffer;
    OnePacket(p);
    WholePacketsDelivered([p], junk);
    assert Carries(HandleBuffer(EncodePacket(p), junk).delivered[0], [p][0]);
  }

  // ---------------------------------------------------------------- what is not a packet

  /** The kind of the field with that number. */
  predicate KindFits(v: Value, i: nat) {
    if i == 2 || i == 3 then v.VBytes? else i < 6 && v.VInt?
  }

  predicate FirstFit(vs: seq<Value>, i: nat)
    requires i <= |vs|
  {
    forall k :: 0 <= k < i ==> KindFits(vs[k], k)
  }

  predicate PacketShaped(vs: seq<Value>) {
    (|vs| == 4 || |vs| == 6) && FirstFit(vs, |vs|)
  }

  /** After `i` values of an array: the builder counts them as fields as long as they fit. */
  predicate Counting(b: Builder, vs: seq<Value>, i: nat)
    requires i <= |vs|
  {
    if PacketShaped(vs) && i == |vs| then |b.delivered| == 1
    else
      && b.delivered == []
      && (if (|vs| == 4 || |vs| == 6) && FirstFit(vs, i) then b.valid && b.field == i && b.pkt.len == |vs|
          else !b.valid || (b.field < i && b.pkt.len == |vs|))
  }

  lemma CountOne(b: Builder, vs: seq<Value>, i: nat)
    requires AllWritable(vs) && i < |vs| && Counting(b, vs, i)
    ensures Counting(OnEvent(b, EventOf(vs[i])), vs, i + 1)
  {
    assert FirstFit(vs, i + 1) <==> FirstFit(vs, i) && KindFits(vs[i], i);
    hide CallbackInt, ToInt32, ToInt64, WidthOf, FirstFit;
    assert PacketShaped(vs) ==> i + 1 == |vs| || i < 5;
  }

  lemma {:induction false} CountAll(b: Builder, vs: seq<Value>, i: nat)
    requires AllWritable(vs) && |vs| < W64 && i <= |vs| && b.field == 0 && !b.valid && b.delivered == []
    ensures Counting(OnEvents(b, ArrayEvents(vs)[..i + 1]), vs, i)
  {
    hide EventsOf;
    var es := ArrayEvents(vs);
    assert es[..i + 1] == es[..i] + [es[i]];
    OnEventsSnoc(b, es[..i], es[i]);
    if i == 0 {
      assert OnEvents(b, es[..0]) == b;
    } else {
      CountAll(b, vs, i - 1);
      hide OnEvent, Counting;
      assert es[i] == EventOf(vs[i - 1]);
      CountOne(OnEvents(b, es[..i]), vs, i - 1);
    }
  }

  /** Of all arrays of values exactly those of four or six values of the kinds of a packet's fields are
      delivered. */
  lemma ArrayDeliveredIff(vs: seq<Value>, junk: Message)
    requires AllWritable(vs) && |vs| < W64
    ensures var out := HandleBuffer(EncodeAll(ArrayEvents(vs)), junk);
      out.status == NoData && |out.delivered| == if PacketShaped(vs) then 1 else 0
  {
    hide OnEvent, Decode, EncodeAll, EventsOf, HandleBuffer, FirstFit;
    var es := ArrayEvents(vs);
    EmptyNeedsData();
    HandleItems(es, [], junk);
    assert EncodeAll(es) + [] == EncodeAll(es);
    CountAll(FreshBuilder(junk), vs, |vs|);
    assert es[..|vs| + 1] == es;
  }

  /** Malformed bytes end the connection's reading: whole packets before them are delivered, and the buffer is
      left as it is. */
  lemma MalformedEnds(ps: seq<Packet>, bad: seq<byte>, junk: Message)
    requires AllSendable(ps) && Decode(bad).Malformed?
    ensures var out := HandleBuffer(EncodePackets(ps) + bad, junk);
      CarryAll(out.delivered, ps) && out.buffer == EncodePackets(ps) + bad && out.status == Error
  {
    hide OnEvent, CarryAll, Decode;
    EncodePacketsIs(ps);
    DrainItems(FreshBuilder(junk), PacketsEvents(ps), bad, 0, 0);
    WholePackets(FreshBuilder(junk), ps);
  }
}
