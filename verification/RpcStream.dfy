/** A stream of requests through the buffer of the waiting loop, which takes at most one packet out per read. */
module RpcStream {
  import opened Cbor
  import opened Rpc
  import opened RpcTheorems

  // ---------------------------------------------------------------- streams and reads

  predicate Legible(cs: seq<Call>) {
    forall i :: 0 <= i < |cs| ==> Sendable(cs[i]) && AllWritten(cs[i])
  }

  /** The bytes of requests sent one after the other. */
  function EncodeStream(cs: seq<Call>): seq<byte>
    requires Legible(cs)
  {
    if cs == [] then [] else EncodeRequest(cs[0]) + EncodeStream(cs[1..])
  }

  /** How many whole requests the first `n` bytes hold. */
  function WholeFrames(cs: seq<Call>, n: nat): (k: nat)
    requires Legible(cs)
    ensures k <= |cs|
  {
    if cs == [] || n < |EncodeRequest(cs[0])| then 0 else 1 + WholeFrames(cs[1..], n - |EncodeRequest(cs[0])|)
  }

  /** One read, with the packet that is filled and the values a new builder happens to hold. */
  datatype Read = Read(chunk: seq<byte>, pkt: Call, junk: int)

  predicate Filled(rs: seq<Read>) {
    forall i :: 0 <= i < |rs| ==> Slots(rs[i].pkt)
  }

  function Arrived(rs: seq<Read>): seq<byte> {
    if rs == [] then [] else Arrived(rs[..|rs| - 1]) + rs[|rs| - 1].chunk
  }

  /** The packets taken out so far, and what is in the buffer. */
  datatype Progress = Progress(frames: seq<Call>, buffer: seq<byte>)

  function AfterAll(rs: seq<Read>): Progress
    requires Filled(rs)
  {
    if rs == [] then Progress([], [])
    else
      var last := rs[|rs| - 1];
      var p := AfterAll(rs[..|rs| - 1]);
      var (received, buffer) := Receive(last.pkt, p.buffer, last.chunk, last.junk);
      Progress(if received.Frame? then p.frames + [received.pkt] else p.frames, buffer)
  }

  /** One request per read, as far as whole ones have arrived. */
  function Delivered(cs: seq<Call>, rs: seq<Read>): nat
    requires Legible(cs)
  {
    if rs == [] then 0
    else
      var before, whole := Delivered(cs, rs[..|rs| - 1]), WholeFrames(cs, |Arrived(rs)|);
      if before + 1 <= whole then before + 1 else whole
  }

  // ---------------------------------------------------------------- parts of a stream

  lemma {:induction false} StreamParts(a: seq<Call>, b: seq<Call>)
    requires Legible(a) && Legible(b)
    ensures Legible(a + b) && EncodeStream(a + b) == EncodeStream(a) + EncodeStream(b)
    ensures forall n: nat :: WholeFrames(a + b, |EncodeStream(a)| + n) == |a| + WholeFrames(b, n)
    decreases |a|
  {
    hide Sendable, AllWritten, EncodeRequest;
    if a == [] {
      assert a + b == b;
    } else {
      assert (a + b)[1..] == a[1..] + b && (a + b)[0] == a[0];
      StreamParts(a[1..], b);
    }
  }

  lemma Split(cs: seq<Call>, k: nat)
    requires Legible(cs) && k <= |cs|
    ensures Legible(cs[..k]) && Legible(cs[k..]) && EncodeStream(cs) == EncodeStream(cs[..k]) + EncodeStream(cs[k..])
    ensures forall n: nat :: WholeFrames(cs, |EncodeStream(cs[..k])| + n) == k + WholeFrames(cs[k..], n)
  {
    hide Sendable, AllWritten, EncodeStream, WholeFrames;
    assert cs == cs[..k] + cs[k..];
    StreamParts(cs[..k], cs[k..]);
  }

  /** `s` is how a stream begins. */
  predicate Begins(s: seq<byte>, stream: seq<byte>) {
    |s| <= |stream| && s == stream[..|s|]
  }

  /** One read of a stream whose next request is the first of `cs`: the request if it is whole by now, and
      nothing otherwise; the buffer is what is left. */
  lemma OneRead(cs: seq<Call>, buffer: seq<byte>, read: Read)
    requires Legible(cs) && Slots(read.pkt) && Begins(buffer + read.chunk, EncodeStream(cs))
    ensures var (received, rest) := Receive(read.pkt, buffer, read.chunk, read.junk);
      var t := buffer + read.chunk;
      if WholeFrames(cs, |t|) > 0
      then received.Frame? && Slots(received.pkt) && SameRequest(received.pkt, cs[0]) && EncodeRequest(cs[0]) + rest == t
      else received == Nothing && rest == t
  {
    var t := buffer + read.chunk;
    hide EncodeRequest, ReadPacket, SameRequest, AllWritten, Sendable;
    if cs == [] {
      assert t == [];
      EmptyWaits(ResetCall(read.pkt), read.junk);
    } else {
      var w := EncodeRequest(cs[0]);
      assert EncodeStream(cs) == w + EncodeStream(cs[1..]);
      if |w| <= |t| {
        assert t == w + t[|w|..] by {
          BeginsWith(t, w, EncodeStream(cs[1..]));
        }
        RequestRoundTrip(cs[0], t[|w|..], ResetCall(read.pkt), read.junk);
      } else {
        assert t == w[..|t|];
        PrefixNeedsData(cs[0], |t|, ResetCall(read.pkt), read.junk);
      }
    }
  }

  lemma BeginsWith(t: seq<byte>, w: seq<byte>, more: seq<byte>)
    requires Begins(t, w + more) && |w| <= |t|
    ensures t == w + t[|w|..]
  {
    assert t[..|w|] == (w + more)[..|t|][..|w|] == w;
  }

  lemma EmptyWaits(pkt: Call, junk: int)
    requires Slots(pkt)
    ensures ReadPacket(pkt, [], junk).NeedsData?
  {
  }

  // ---------------------------------------------------------------- main result

  /** The requests taken out are the first ones of the stream, in order. */
  predicate FirstOf(frames: seq<Call>, cs: seq<Call>)
    requires Legible(cs)
  {
    |frames| <= |cs| && forall i :: 0 <= i < |frames| ==> Slots(frames[i]) && SameRequest(frames[i], cs[i])
  }

  /** For every stream of requests and every way reads cut it: after any number of reads the packets taken out
      are the first requests in order, as many as one per read and the whole ones received allow, and the
      buffer is exactly the rest. */
  lemma {:induction false} StreamInOrder(cs: seq<Call>, rs: seq<Read>)
    requires Legible(cs) && Filled(rs) && Begins(Arrived(rs), EncodeStream(cs))
    ensures InOrder(cs, AfterAll(rs), Delivered(cs, rs), Arrived(rs))
    decreases |rs|
  {
    hide Legible, EncodeStream, WholeFrames, Receive, FirstOf, InOrder, Begins;
    if rs == [] {
      NothingTaken(cs);
    } else {
      var front, last := rs[..|rs| - 1], rs[|rs| - 1];
      BeginsShorter(Arrived(front), last.chunk, EncodeStream(cs));
      StreamInOrder(cs, front);
      NextRead(cs, AfterAll(front), Delivered(cs, front), Arrived(front), last);
    }
  }

  /** `n` requests taken out, in order, and the rest of what has arrived still in the buffer. */
  predicate InOrder(cs: seq<Call>, p: Progress, n: nat, arrived: seq<byte>)
    requires Legible(cs)
  {
    n <= |cs| && |p.frames| == n && FirstOf(p.frames, cs) && EncodeStream(cs[..n]) + p.buffer == arrived
  }

  lemma NothingTaken(cs: seq<Call>)
    requires Legible(cs)
    ensures InOrder(cs, Progress([], []), 0, [])
  {
    hide Sendable, AllWritten, EncodeRequest;
    assert cs[..0] == [];
  }

  lemma NextRead(cs: seq<Call>, p: Progress, k: nat, arrived: seq<byte>, read: Read)
    requires Legible(cs) && Slots(read.pkt) && Begins(arrived + read.chunk, EncodeStream(cs)) && InOrder(cs, p, k, arrived)
    ensures var (received, rest) := Receive(read.pkt, p.buffer, read.chunk, read.junk);
      var whole := WholeFrames(cs, |arrived + read.chunk|);
      var n := if k + 1 <= whole then k + 1 else whole;
      InOrder(cs, Progress(if received.Frame? then p.frames + [received.pkt] else p.frames, rest), n, arrived + read.chunk)
  {
    hide Sendable, AllWritten, EncodeRequest, EncodeStream, WholeFrames, Receive, SameRequest;
    var t := p.buffer + read.chunk;
    Split(cs, k);
    assert arrived + read.chunk == EncodeStream(cs[..k]) + t;
    BeginsRest(EncodeStream(cs[..k]), t, EncodeStream(cs[k..]));
    OneRead(cs[k..], p.buffer, read);
    assert WholeFrames(cs, |arrived + read.chunk|) == k + WholeFrames(cs[k..], |t|);
    if WholeFrames(cs[k..], |t|) > 0 {
      NextPart(cs, k);
      var rest := Receive(read.pkt, p.buffer, read.chunk, read.junk).1;
      assert EncodeStream(cs[..k + 1]) + rest == EncodeStream(cs[..k]) + (EncodeRequest(cs[k]) + rest);
    }
  }

  lemma BeginsShorter(s: seq<byte>, more: seq<byte>, stream: seq<byte>)
    requires Begins(s + more, stream)
    ensures Begins(s, stream)
  {
    assert s == (s + more)[..|s|] == stream[..|s + more|][..|s|];
  }

  lemma BeginsRest(a: seq<byte>, t: seq<byte>, rest: seq<byte>)
    requires Begins(a + t, a + rest)
    ensures Begins(t, rest)
  {
    assert t == (a + t)[|a|..] == (a + rest)[..|a + t|][|a|..];
  }

  lemma NextPart(cs: seq<Call>, k: nat)
    requires Legible(cs) && k < |cs|
    ensures Legible(cs[..k + 1]) && Legible(cs[..k]) && EncodeStream(cs[..k + 1]) == EncodeStream(cs[..k]) + EncodeRequest(cs[k])
  {
    hide Sendable, AllWritten, EncodeRequest;
    assert cs[..k + 1] == cs[..k] + [cs[k]];
    StreamParts(cs[..k], [cs[k]]);
    assert [cs[k]][1..] == [];
  }

  /** What has arrived whole waits for one further read each: whatever the next reads bring, they take out one
      request each until at least those are out, and never more than one. */
  lemma {:induction false} OneReadEach(cs: seq<Call>, rs: seq<Read>, more: seq<Read>)
    requires Legible(cs) && Filled(rs) && Filled(more) && Begins(Arrived(rs + more), EncodeStream(cs))
    ensures Filled(rs + more) && Begins(Arrived(rs), EncodeStream(cs))
    ensures var whole, before, after := WholeFrames(cs, |Arrived(rs)|), |AfterAll(rs).frames|, |AfterAll(rs + more).frames|;
      && before <= after <= before + |more|
      && (before + |more| <= whole ==> after == before + |more|)
      && (before + |more| >= whole ==> after >= whole)
  {
    hide Sendable, AllWritten, EncodeRequest, EncodeStream, WholeFrames, AfterAll, FirstOf, Delivered;
    ArrivedParts(rs, more);
    BeginsShorter(Arrived(rs), Arrived(more), EncodeStream(cs));
    StreamInOrder(cs, rs);
    StreamInOrder(cs, rs + more);
    DeliveredBounds(cs, rs, more);
  }

  lemma {:induction false} ArrivedParts(rs: seq<Read>, more: seq<Read>)
    ensures Arrived(rs + more) == Arrived(rs) + Arrived(more)
    decreases |more|
  {
    if more == [] {
      assert rs + more == rs;
    } else {
      assert (rs + more)[..|rs + more| - 1] == rs + more[..|more| - 1];
      ArrivedParts(rs, more[..|more| - 1]);
    }
  }

  lemma {:induction false} DeliveredBounds(cs: seq<Call>, rs: seq<Read>, more: seq<Read>)
    requires Legible(cs)
    ensures var whole, before, after := WholeFrames(cs, |Arrived(rs)|), Delivered(cs, rs), Delivered(cs, rs + more);
      && before <= whole && before <= after <= before + |more|
      && (before + |more| <= whole ==> after == before + |more|)
      && (before + |more| >= whole ==> after >= whole)
    decreases |more|
  {
    hide Legible, WholeFrames, Arrived;
    if more == [] {
      assert rs + more == rs;
      DeliveredWhole(cs, rs);
    } else {
      var front := more[..|more| - 1];
      assert (rs + more)[..|rs + more| - 1] == rs + front;
      DeliveredBounds(cs, rs, front);
      DeliveredWhole(cs, rs + front);
      ArrivedParts(rs, more);
      MoreWhole(cs, |Arrived(rs)|, |Arrived(rs + more)|);
      ArrivedParts(rs + front, [more[|more| - 1]]);
      assert (rs + front) + [more[|more| - 1]] == rs + more;
      MoreWhole(cs, |Arrived(rs + front)|, |Arrived(rs + more)|);
    }
  }

  lemma DeliveredWhole(cs: seq<Call>, rs: seq<Read>)
    requires Legible(cs)
    ensures Delivered(cs, rs) <= WholeFrames(cs, |Arrived(rs)|)
  {
    hide Legible, WholeFrames;
  }

  lemma {:induction false} MoreWhole(cs: seq<Call>, m: nat, n: nat)
    requires Legible(cs) && m <= n
    ensures WholeFrames(cs, m) <= WholeFrames(cs, n)
    decreases |cs|
  {
    hide Sendable, AllWritten, EncodeRequest;
    if cs != [] && |EncodeRequest(cs[0])| <= m {
      MoreWhole(cs[1..], m - |EncodeRequest(cs[0])|, n - |EncodeRequest(cs[0])|);
    }
  }
}
