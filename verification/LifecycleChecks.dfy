/** What the sweeps and the queued checks do to everybody: who is destroyed, who goes home, who stays. */
module LifecycleChecks {
  import opened Basics
  import opened Lifecycle
  import opened LifecycleInvariant
  import opened LifecycleSteps
  import opened LifecycleAccounts
  import opened LifecyclePlaces
  import opened LifecycleEffects
  import opened LifecycleDepartures
  import Theorems = LifecycleTheorems

  // ---------------------------------------------------------------- destroying many

  /** Exactly the players in `gone` are destroyed and taken off every list. */
  ghost predicate AllGone(s: State, t: State, gone: set<int>) {
    PeopleGone(s, t, gone) && RoomsGone(s, t, gone) && t.nextConn == s.nextConn && t.nextRoom == s.nextRoom
  }

  ghost predicate PeopleGone(s: State, t: State, gone: set<int>) {
    && (forall d :: d in gone ==> d !in t.players && d !in t.lobby)
    && (forall d :: d !in gone ==> (d in t.players <==> d in s.players) && (d in t.lobby <==> d in s.lobby))
    && (forall d :: d !in gone && d in s.players ==> t.players[d] == s.players[d])
  }

  ghost predicate RoomsGone(s: State, t: State, gone: set<int>) {
    && (forall q :: q in t.rooms <==> q in s.rooms)
    && (forall q :: q in s.rooms ==> RoomWithout(s.rooms[q], t.rooms[q], gone))
    && (forall q :: q in s.rooms && NobodysRoom(s, gone, q) ==> t.rooms[q] == s.rooms[q])
  }

  predicate NobodysRoom(s: State, gone: set<int>, q: nat) {
    forall d :: d in gone && d in s.players ==> s.players[d].roomId != q
  }

  ghost predicate RoomWithout(a: Room, b: Room, gone: set<int>) {
    && SameSettings(a, b)
    && (forall d :: d in b.players <==> d in a.players && d !in gone)
    && (forall d :: d in b.observers <==> d in a.observers && d !in gone)
  }

  lemma OneGone(s: State, t: State, c: int)
    requires AtRest(s) && c in s.players && Gone(s, t, c)
    ensures AllGone(s, t, {c})
  {
    OwnRoomOnly(s, c, 0, {});
    hide AtRest;
    var r := s.players[c].roomId;
    GoneElsewhere(s, t, c);
    forall q | q in s.rooms
      ensures q in t.rooms && RoomWithout(s.rooms[q], t.rooms[q], {c})
    {
      if q != r {
        assert t.rooms[q] == s.rooms[q];
      }
    }
    forall q | q in s.rooms && NobodysRoom(s, {c}, q)
      ensures t.rooms[q] == s.rooms[q]
    {
      assert c in {c} && q != r;
    }
  }

  lemma GoneElsewhere(s: State, t: State, c: int)
    requires c in s.players && Gone(s, t, c)
    ensures forall q :: q in s.rooms ==> q in t.rooms
    ensures forall q :: q in t.rooms && q != s.players[c].roomId ==> q in s.rooms
    ensures forall q :: q in s.rooms && q != s.players[c].roomId ==> t.rooms[q] == s.rooms[q]
    ensures forall d :: d != c ==> (d in t.players <==> d in s.players) && (d in t.lobby <==> d in s.lobby)
    ensures forall d :: d != c && d in s.players ==> t.players[d] == s.players[d]
  {
    forall d | d != c
      ensures (d in t.players <==> d in s.players) && (d in t.lobby <==> d in s.lobby)
      ensures d in s.players ==> t.players[d] == s.players[d]
    {
      assert d !in {c};
    }
  }

  lemma AllGoneTrans(s: State, u: State, t: State, a: set<int>, b: set<int>)
    requires AllGone(s, u, a) && AllGone(u, t, b) && a !! b
    ensures AllGone(s, t, a + b)
  {
    RoomsGoneTrans(s, u, t, a, b);
    hide RoomsGone;
    forall d | d !in a + b
      ensures (d in t.players <==> d in s.players) && (d in t.lobby <==> d in s.lobby)
      ensures d in s.players ==> t.players[d] == s.players[d]
    {
      assert d !in a && d !in b;
    }
    forall d | d in a + b
      ensures d !in t.players && d !in t.lobby
    {
      if d in a {
        assert d !in b;
      }
    }
  }

  lemma RoomsGoneTrans(s: State, u: State, t: State, a: set<int>, b: set<int>)
    requires PeopleGone(s, u, a) && RoomsGone(s, u, a) && RoomsGone(u, t, b) && a !! b
    ensures RoomsGone(s, t, a + b)
  {
    hide RoomWithout, NobodysRoom, PeopleGone;
    forall q
      ensures q in t.rooms <==> q in s.rooms
    {
      assert q in u.rooms <==> q in s.rooms;
    }
    forall q | q in s.rooms
      ensures RoomWithout(s.rooms[q], t.rooms[q], a + b)
      ensures NobodysRoom(s, a + b, q) ==> t.rooms[q] == s.rooms[q]
    {
      WithoutBoth(s.rooms[q], u.rooms[q], t.rooms[q], a, b);
      if NobodysRoom(s, a + b, q) {
        StillNobodys(s, u, a, b, q);
      }
    }
  }

  lemma WithoutBoth(x: Room, y: Room, z: Room, a: set<int>, b: set<int>)
    requires RoomWithout(x, y, a) && RoomWithout(y, z, b)
    ensures RoomWithout(x, z, a + b)
  {
  }

  lemma StillNobodys(s: State, u: State, a: set<int>, b: set<int>, q: nat)
    requires PeopleGone(s, u, a) && a !! b && NobodysRoom(s, a + b, q)
    ensures NobodysRoom(s, a, q) && NobodysRoom(u, b, q)
  {
    forall d | d in b && d in u.players
      ensures u.players[d].roomId != q
    {
      assert d !in a && d in a + b;
    }
  }

  ghost predicate Idle(s: State, c: int) {
    c in s.players && s.players[c].sock == 0 && !Playing(s, c)
  }

  lemma IdleStays(s: State, t: State, c: int, d: int)
    requires Idle(s, d) && d != c && AllGone(s, t, {c})
    ensures Idle(t, d)
  {
    var r := s.players[d].roomId;
    assert d !in {c} && t.players[d] == s.players[d];
    assert r in t.rooms ==> r in s.rooms && RoomWithout(s.rooms[r], t.rooms[r], {c});
  }

  lemma {:induction false} DeletedAll(s: State, gone: seq<int>)
    requires AtRest(s) && Distinct(gone) && forall c :: c in gone ==> Idle(s, c)
    ensures AtRest(DeleteAll(s, gone)) && AllGone(s, DeleteAll(s, gone), set c | c in gone)
    decreases |gone|
  {
    hide AtRest, AllGone, Idle, DeletePlayer;
    if gone == [] {
      NoneGone(s);
      assert (set c | c in gone) == {};
    } else {
      var c := gone[0];
      assert c in gone && c !in gone[1..] && Distinct(gone[1..]);
      assert forall d :: d in gone <==> d == c || d in gone[1..];
      IdleHere(s, c);
      IdleGone(s, c);
      var u := DeletePlayer(s, c);
      forall d | d in gone[1..]
        ensures Idle(u, d)
      {
        IdleStays(s, u, c, d);
      }
      DeletedAll(u, gone[1..]);
      var rest := set d | d in gone[1..];
      AllGoneTrans(s, u, DeleteAll(u, gone[1..]), {c}, rest);
      assert {c} + rest == set d | d in gone;
    }
  }

  lemma NoneGone(s: State)
    ensures AllGone(s, s, {})
  {
  }

  lemma IdleHere(s: State, c: int)
    requires Idle(s, c)
    ensures c in s.players
  {
  }

  lemma IdleGone(s: State, c: int)
    requires AtRest(s) && Idle(s, c)
    ensures AtRest(DeletePlayer(s, c)) && AllGone(s, DeletePlayer(s, c), {c})
  {
    DeletedGone(s, c);
    OneGone(s, DeletePlayer(s, c), c);
    assert !Playing(s, c);
    hide DeletePlayer, Gone, AllGone;
    PlacedDelete(s, c, 0, {}) by {
      assert AtRest(s);
    }
  }

  // ---------------------------------------------------------------- the lobby's sweep

  /** Exactly the players in the lobby without a socket are destroyed. */
  lemma LobbySwept(s: State, gone: seq<int>)
    requires Reachable(s) && LobbySweep(s, gone)
    ensures var t := Next(s, SweepLobby(gone));
      && AllGone(s, t, set d | d in s.lobby && !Connected(s, d))
      && forall d :: d in t.lobby ==> Connected(t, d)
  {
    hide Reachable;
    ReachableRests(s);
    var listed, idle := set d | d in gone, set d | d in s.lobby && !Connected(s, d);
    assert listed == idle;
    NoRoomZero(s);
    forall c | c in gone
      ensures Idle(s, c)
    {
      assert c in listed && c in s.lobby;
    }
    hide Inv, AtRest, DeleteAll;
    DeletedAll(s, gone);
    var t := DeleteAll(s, gone);
    assert t.lobby - listed == t.lobby;
    assert Next(s, SweepLobby(gone)) == t;
    assert forall d :: d in t.lobby ==> d in s.lobby && d !in idle;
  }

  // ---------------------------------------------------------------- members taken out by Lua

  /** A member that `removeNpc` names is destroyed and listed nowhere, whoever it is; for anybody else nothing
      happens. */
  lemma NpcRemoved(s: State, r: nat, c: int)
    requires Reachable(s) && r in s.rooms && c in s.players
    ensures var t := NextAny(s, RemoveNpc(r, c));
      if c in s.rooms[r].players then AllGone(s, t, {c}) else t == s
  {
    hide Reachable;
    ReachableRests(s);
    if c in s.rooms[r].players {
      var u := WithoutSeat(s, r, c);
      assert RoomBasics(s, r, DeadIn(r, 0, {}));
      PlacedErase(s, r, c, 0, {});
      SeatErased(s, r, c);
      hide AtRest, Inv, DeletePlayer, RoomBasics;
      DeletedGone(u, c);
      OneGone(u, DeletePlayer(u, c), c);
      SameWithout(s, u, DeletePlayer(u, c), r, c);
    }
  }

  lemma SeatErased(s: State, r: nat, c: int)
    requires AtRest(s) && r in s.rooms && c in s.players && c in s.rooms[r].players
    ensures var u := WithoutSeat(s, r, c);
      && !Playing(u, c) && c !in s.rooms[r].observers
      && forall d :: d in u.rooms[r].players <==> d in s.rooms[r].players && d != c
  {
    assert RoomBasics(s, r, DeadIn(r, 0, {}));
    EraseMembers(s.rooms[r].players, c);
    hide Erase;
  }

  lemma SameWithout(s: State, u: State, t: State, r: nat, c: int)
    requires r in s.rooms && r in u.rooms && u == s.(rooms := s.rooms[r := u.rooms[r]]) && AllGone(u, t, {c})
    requires u.rooms[r] == s.rooms[r].(players := u.rooms[r].players)
    requires forall d :: d in u.rooms[r].players <==> d in s.rooms[r].players && d != c
    requires c in s.players && s.players[c].roomId == r
    ensures AllGone(s, t, {c})
  {
    forall q | q in s.rooms && NobodysRoom(s, {c}, q)
      ensures t.rooms[q] == s.rooms[q]
    {
      assert c in {c} && NobodysRoom(u, {c}, q);
    }
    forall q | q in s.rooms
      ensures q in t.rooms && RoomWithout(s.rooms[q], t.rooms[q], {c})
    {
      assert q in u.rooms && RoomWithout(u.rooms[q], t.rooms[q], {c});
    }
  }

  // ---------------------------------------------------------------- a room that is destroyed

  /** In the lobby if connected, destroyed otherwise. */
  ghost predicate HomeOrGone(s: State, t: State, d: int) {
    d in s.players &&
    if Connected(s, d) then d in t.players && t.players[d] == s.players[d].(roomId := 0) && d in t.lobby
    else d !in t.players && d !in t.lobby
  }

  /** Of a room that is not there any more. */
  ghost predicate Homeless(s: State, d: int) {
    d in s.players && s.players[d].roomId !in s.rooms && s.players[d].roomId != 0
  }

  lemma OneHome(s: State, c: int)
    requires AtRest(s) && Homeless(s, c)
    ensures var t := if s.players[c].sock != 0 then LobbyAdd(s, c) else DeletePlayer(s, c);
      && AtRest(t) && HomeOrGone(s, t, c) && Elsewhere(s, t, {c}, 0) && t.rooms == s.rooms
  {
    OutsideAdd(s, c);
    OutsideDelete(s, c);
    DeletedGone(s, c);
    NoRoomZeroYet(s, 0, {});
    assert PlayerOk(s, c);
    hide AtRest, DeletePlayer, PlayerOk;
  }

  lemma OthersHome(s: State, u: State, c: int, d: int)
    requires Elsewhere(s, u, {c}, 0) && u.rooms == s.rooms && d != c
    ensures Homeless(s, d) ==> Homeless(u, d)
    ensures d in u.players <==> d in s.players
    ensures d in u.lobby <==> d in s.lobby
    ensures d in s.players ==> u.players[d] == s.players[d]
  {
    assert d !in {c};
  }

  ghost predicate AllHome(s: State, t: State, members: seq<int>) {
    && (forall d :: d in members ==> HomeOrGone(s, t, d))
    && (forall d :: d !in members ==> (d in t.players <==> d in s.players) && (d in t.lobby <==> d in s.lobby))
    && (forall d :: d !in members && d in s.players ==> t.players[d] == s.players[d])
    && t.rooms == s.rooms
  }

  lemma {:induction false} SentHome(s: State, members: seq<int>)
    requires AtRest(s) && Distinct(members) && forall d :: d in members ==> Homeless(s, d)
    ensures AllHome(s, SendHome(s, members), members)
    decreases |members|
  {
    hide AtRest, LobbyAdd, DeletePlayer, Elsewhere, Homeless;
    if members != [] {
      var c := members[0];
      assert c in members && c !in members[1..] && Distinct(members[1..]);
      assert forall d :: d in members <==> d == c || d in members[1..];
      OneHome(s, c);
      var u := if s.players[c].sock != 0 then LobbyAdd(s, c) else DeletePlayer(s, c);
      forall d | d != c
        ensures Homeless(s, d) ==> Homeless(u, d)
        ensures (d in u.players <==> d in s.players) && (d in u.lobby <==> d in s.lobby)
        ensures d in s.players ==> u.players[d] == s.players[d]
      {
        OthersHome(s, u, c, d);
      }
      SentHome(u, members[1..]);
      var t := SendHome(u, members[1..]);
      assert SendHome(s, members) == t;
      forall d | d in members
        ensures HomeOrGone(s, t, d)
      {
        if d != c {
          assert HomeOrGone(u, t, d);
        }
      }
    }
  }

  lemma DestroyedHome(s: State, r: nat)
    requires AtRest(s) && r in s.rooms
    ensures var u := s.(rooms := s.rooms - {r});
      AllHome(u, DestroyRoom(s, r), s.rooms[r].players + s.rooms[r].observers)
  {
    var u := s.(rooms := s.rooms - {r});
    var members := s.rooms[r].players + s.rooms[r].observers;
    NoRoomZeroYet(s, 0, {});
    RestLists(s, r);
    forall d | d in members
      ensures Homeless(u, d)
    {
      assert RoomBasics(s, r, DeadIn(r, 0, {}));
    }
    BothDistinct(s.rooms[r].players, s.rooms[r].observers);
    WithoutRoom(s, r);
    hide AtRest;
    SentHome(u, members);
  }

  lemma BothDistinct(a: seq<int>, b: seq<int>)
    requires Distinct(a) && Distinct(b) && forall c :: c in a ==> c !in b
    ensures Distinct(a + b)
  {
    var ab := a + b;
    forall i, j | 0 <= i < j < |ab|
      ensures ab[i] != ab[j]
    {
      assert i < |a| ==> ab[i] in a;
      assert j >= |a| ==> ab[j] == b[j - |a|] && ab[j] in b;
    }
  }

  lemma WithoutRoom(s: State, r: nat)
    requires AtRest(s) && r in s.rooms
    ensures AtRest(s.(rooms := s.rooms - {r}))
  {
    var u := s.(rooms := s.rooms - {r});
    PeopleFrame(s, u);
    hide PeopleOk, RoomBasics;
    PlacedFrame(s, u, 0, {}, r);
  }

  // ---------------------------------------------------------------- a room that is swept

  function AbsentSet(s: State, r: nat): set<int>
    requires r in s.rooms
  {
    set d | d in s.rooms[r].players && !Connected(s, d)
  }

  lemma AbsentIdle(s: State, r: nat)
    requires AtRest(s) && r in s.rooms && s.rooms[r].luaRefs <= 0
    ensures var gone := Absent(s, s.rooms[r].players);
      && Distinct(gone) && (forall d :: d in gone ==> Idle(s, d)) && (set d | d in gone) == AbsentSet(s, r)
  {
    assert RoomBasics(s, r, DeadIn(r, 0, {}));
    AbsentMembers(s, s.rooms[r].players);
    hide Absent;
  }

  /** Without a game the end-of-game check destroys exactly the absent members. */
  lemma SweptGone(s: State, r: nat)
    requires AtRest(s) && r in s.rooms && s.rooms[r].luaRefs <= 0
    ensures AtRest(SweepAbsent(s, r)) && AllGone(s, SweepAbsent(s, r), AbsentSet(s, r))
  {
    var gone := Absent(s, s.rooms[r].players);
    AbsentIdle(s, r);
    hide AtRest, Absent, DeleteAll, Idle;
    DeletedAll(s, gone);
    SweepRests(s, r);
    var u := DeleteAll(s, gone);
    Kept(s, u, r, set d | d in gone);
  }

  /** Taking them off the list once more changes nothing. */
  lemma Kept(s: State, u: State, r: nat, gone: set<int>)
    requires r in s.rooms && AllGone(s, u, gone)
    ensures r in u.rooms && SetRoom(u, r, u.rooms[r].(players := Without(u.rooms[r].players, gone))) == u
  {
    assert RoomWithout(s.rooms[r], u.rooms[r], gone);
    var xs := u.rooms[r].players;
    forall i | 0 <= i < |xs|
      ensures xs[i] !in gone
    {
      NotGone(s.rooms[r], u.rooms[r], gone, xs[i]);
    }
    WithoutNone(xs, gone);
    assert u.rooms == u.rooms[r := u.rooms[r]];
  }

  lemma NotGone(a: Room, b: Room, gone: set<int>, d: int)
    requires RoomWithout(a, b, gone) && d in b.players
    ensures d !in gone
  {
  }

  lemma {:induction false} WithoutNone(xs: seq<int>, gone: set<int>)
    requires forall i :: 0 <= i < |xs| ==> xs[i] !in gone
    ensures Without(xs, gone) == xs
    decreases |xs|
  {
    if xs != [] {
      assert xs[0] !in gone;
      WithoutNone(xs[1..], gone);
    }
  }

  // ---------------------------------------------------------------- what a check does

  predicate Dead(s: State, r: nat) {
    r in s.rooms && IsAbandoned(s, s.rooms[r].players) && s.rooms[r].luaRefs <= 0
  }

  /** Room `r` is gone; its connected observers are in the lobby, and whoever in it was not connected is destroyed. */
  ghost predicate Closed(s: State, t: State, r: nat)
    requires r in s.rooms
  {
    var members := s.rooms[r].players + s.rooms[r].observers;
    && r !in t.rooms && (forall d :: d in members ==> HomeOrGone(s, t, d)) && Elsewhere(s, t, (set d | d in members), r)
  }

  lemma ClosedAtOnce(s: State, r: nat)
    requires AtRest(s) && r in s.rooms
    ensures Closed(s, DestroyRoom(s, r), r)
  {
    hide AtRest, DestroyRoom, Closed, AllHome, HomeOrGone;
    DestroyedHome(s, r);
    var u, t := s.(rooms := s.rooms - {r}), DestroyRoom(s, r);
    HomeFrom(s, u, t, s.rooms[r].players + s.rooms[r].observers);
    ClosedIs(s, t, r, set d | d in s.rooms[r].players + s.rooms[r].observers);
  }

  lemma HomeFrom(s: State, u: State, t: State, members: seq<int>)
    requires u == s.(rooms := u.rooms) && AllHome(u, t, members)
    ensures t.rooms == u.rooms && forall d :: d in members ==> HomeOrGone(s, t, d)
    ensures forall d :: d !in (set x | x in members) ==> (d in t.players <==> d in s.players) && (d in t.lobby <==> d in s.lobby)
    ensures forall d :: d !in (set x | x in members) && d in s.players ==> t.players[d] == s.players[d]
  {
    forall d | d in members
      ensures HomeOrGone(s, t, d)
    {
      assert HomeOrGone(u, t, d);
    }
    hide HomeOrGone;
    assert forall d :: d !in (set x | x in members) ==> d !in members;
  }

  lemma ClosedAfterSweep(s: State, u: State, t: State, r: nat)
    requires r in s.rooms && Dead(s, r) && AllGone(s, u, AbsentSet(s, r)) && r in u.rooms && Closed(u, t, r)
    requires forall d :: d in s.rooms[r].players ==> d in s.players && s.players[d].roomId == r && d !in s.rooms[r].observers
    ensures Closed(s, t, r)
  {
    hide Closed, RoomsGone, AbsentSet, Dead, HomeOrGone, PeopleGone;
    RoomsAfterSweep(s, u, t, r);
    LeftAfterSweep(s, u, r);
    ClosedPeople(u, t, r);
    var members, left := s.rooms[r].players + s.rooms[r].observers, u.rooms[r].players + u.rooms[r].observers;
    HomesAfterSweep(s, u, t, AbsentSet(s, r), members, left);
    OthersAfterSweep(s, u, t, AbsentSet(s, r), members, left);
    ClosedIs(s, t, r, set d | d in members);
  }

  lemma ClosedIs(s: State, t: State, r: nat, all: set<int>)
    requires r in s.rooms && r !in t.rooms
    requires all == set d | d in s.rooms[r].players + s.rooms[r].observers
    requires forall d :: d in s.rooms[r].players + s.rooms[r].observers ==> HomeOrGone(s, t, d)
    requires forall d :: d !in all ==> (d in t.players <==> d in s.players) && (d in t.lobby <==> d in s.lobby)
    requires forall d :: d !in all && d in s.players ==> t.players[d] == s.players[d]
    requires forall q :: q != r ==> (q in t.rooms <==> q in s.rooms)
    requires forall q :: q != r && q in s.rooms ==> t.rooms[q] == s.rooms[q]
    ensures Closed(s, t, r)
  {
    hide HomeOrGone;
  }

  lemma ClosedPeople(s: State, t: State, r: nat)
    requires r in s.rooms && Closed(s, t, r)
    ensures var members := s.rooms[r].players + s.rooms[r].observers;
      && r !in t.rooms && (forall d :: d in members ==> HomeOrGone(s, t, d))
      && (forall d :: d !in members ==> (d in t.players <==> d in s.players) && (d in t.lobby <==> d in s.lobby))
      && forall d :: d !in members && d in s.players ==> t.players[d] == s.players[d]
  {
    var members := s.rooms[r].players + s.rooms[r].observers;
    assert forall d :: d !in members ==> d !in (set x | x in members);
    hide HomeOrGone;
  }

  lemma HomesAfterSweep(s: State, u: State, t: State, gone: set<int>, members: seq<int>, left: seq<int>)
    requires PeopleGone(s, u, gone) && (forall d :: d in left ==> HomeOrGone(u, t, d))
    requires forall d :: d !in left ==> (d in t.players <==> d in u.players) && (d in t.lobby <==> d in u.lobby)
    requires (forall d :: d in gone ==> d in s.players && !Connected(s, d)) && forall d :: d in left <==> d in members && d !in gone
    ensures forall d :: d in members ==> HomeOrGone(s, t, d)
  {
    forall d | d in members
      ensures HomeOrGone(s, t, d)
    {
      if d !in gone {
        assert HomeOrGone(u, t, d);
      }
    }
  }

  lemma OthersAfterSweep(s: State, u: State, t: State, gone: set<int>, members: seq<int>, left: seq<int>)
    requires PeopleGone(s, u, gone) && (forall d :: d in gone ==> d in members) && forall d :: d in left <==> d in members && d !in gone
    requires forall d :: d !in left ==> (d in t.players <==> d in u.players) && (d in t.lobby <==> d in u.lobby)
    requires forall d :: d !in left && d in u.players ==> t.players[d] == u.players[d]
    ensures forall d :: d !in (set x | x in members) ==> (d in t.players <==> d in s.players) && (d in t.lobby <==> d in s.lobby)
    ensures forall d :: d !in (set x | x in members) && d in s.players ==> t.players[d] == s.players[d]
  {
    forall d | d !in (set x | x in members)
      ensures (d in t.players <==> d in s.players) && (d in t.lobby <==> d in s.lobby)
      ensures d in s.players ==> t.players[d] == s.players[d]
    {
      assert d !in members && d !in gone && d !in left;
    }
  }

  /** The absent members of a dead room are all its players; what is left are its observers. */
  lemma LeftAfterSweep(s: State, u: State, r: nat)
    requires Dead(s, r) && RoomsGone(s, u, AbsentSet(s, r)) && r in u.rooms
    requires forall d :: d in s.rooms[r].players ==> d in s.players && d !in s.rooms[r].observers
    ensures var members, left, gone := s.rooms[r].players + s.rooms[r].observers, u.rooms[r].players + u.rooms[r].observers, AbsentSet(s, r);
      && (forall d :: d in gone ==> d in members && d in s.players && !Connected(s, d))
      && forall d :: d in left <==> d in members && d !in gone
  {
    assert RoomWithout(s.rooms[r], u.rooms[r], AbsentSet(s, r));
    assert forall d :: d in s.rooms[r].players ==> d in AbsentSet(s, r);
  }

  lemma RoomsAfterSweep(s: State, u: State, t: State, r: nat)
    requires r in s.rooms && RoomsGone(s, u, AbsentSet(s, r)) && r in u.rooms && Closed(u, t, r)
    requires forall d :: d in s.rooms[r].players ==> d in s.players && s.players[d].roomId == r
    ensures forall q :: q != r ==> (q in t.rooms <==> q in s.rooms)
    ensures forall q :: q != r && q in s.rooms ==> t.rooms[q] == s.rooms[q]
  {
    var gone := AbsentSet(s, r);
    hide RoomWithout, HomeOrGone;
    forall q | q != r
      ensures (q in t.rooms <==> q in s.rooms) && (q in s.rooms ==> t.rooms[q] == s.rooms[q])
    {
      if q in s.rooms {
        assert NobodysRoom(s, gone, q);
      }
    }
  }

  /** A queued check whose room is gone does nothing.  A room that is dead is closed.  Otherwise the end-of-game
      check destroys exactly the absent members, if no next game runs, and any other check does nothing. */
  lemma CheckDoes(s: State)
    requires Reachable(s) && s.checks != []
    ensures var t, k := Next(s, RunCheck), s.checks[0];
      var r := k.room;
      if Dead(s, r) then Closed(s, t, r)
      else if r in s.rooms && k.reason == NoRefCount then s.rooms[r].luaRefs <= 0 ==> AllGone(s, t, AbsentSet(s, r))
      else t == s.(checks := s.checks[1..])
  {
    hide Reachable;
    ReachableRests(s);
    var r, u := s.checks[0].room, s.(checks := s.checks[1..]);
    PoppedRests(s);
    hide Inv, AtRest, Closed, AllGone, DestroyRoom;
    if r in s.rooms {
      assert forall d :: Connected(u, d) == Connected(s, d);
      assert AbsentSet(u, r) == AbsentSet(s, r);
      CheckRoom(u, r, s.checks[0].reason);
      assert Dead(u, r) == Dead(s, r);
      SamePeople(s, u, Next(s, RunCheck), r);
    }
  }

  lemma PoppedRests(s: State)
    requires AtRest(s) && s.checks != []
    ensures AtRest(s.(checks := s.checks[1..]))
  {
    var u := s.(checks := s.checks[1..]);
    PeopleFrame(s, u);
    hide PeopleOk, RoomBasics;
    PlacedQuiet(s, u, 0, {});
  }

  lemma SamePeople(s: State, u: State, t: State, r: nat)
    requires r in s.rooms && u == s.(checks := u.checks)
    ensures Closed(u, t, r) ==> Closed(s, t, r)
    ensures AllGone(u, t, AbsentSet(s, r)) ==> AllGone(s, t, AbsentSet(s, r))
  {
    if Closed(u, t, r) {
      forall d | d in s.rooms[r].players + s.rooms[r].observers
        ensures HomeOrGone(s, t, d)
      {
        assert HomeOrGone(u, t, d);
      }
    }
    if AllGone(u, t, AbsentSet(s, r)) {
      forall q | q in s.rooms && NobodysRoom(s, AbsentSet(s, r), q)
        ensures t.rooms[q] == s.rooms[q]
      {
        assert NobodysRoom(u, AbsentSet(s, r), q);
      }
    }
  }

  lemma CheckRoom(s: State, r: nat, reason: Reason)
    requires AtRest(s) && r in s.rooms
    ensures var t := CheckAbandoned(s, r, reason);
      if Dead(s, r) then Closed(s, t, r)
      else if reason == NoRefCount then s.rooms[r].luaRefs <= 0 ==> AllGone(s, t, AbsentSet(s, r))
      else t == s
  {
    hide AtRest, Closed, AllGone, DestroyRoom, SweepAbsent;
    if reason == NoRefCount && s.rooms[r].luaRefs <= 0 {
      SweptGone(s, r);
      var u := SweepAbsent(s, r);
      SweptRoom(s, u, r);
      if Dead(s, r) {
        ClosedAtOnce(u, r);
        SeatsHere(s, r);
        ClosedAfterSweep(s, u, DestroyRoom(u, r), r);
      }
    } else {
      ClosedAtOnce(s, r);
    }
  }

  lemma SeatsHere(s: State, r: nat)
    requires AtRest(s) && r in s.rooms
    ensures forall d :: d in s.rooms[r].players ==> d in s.players && s.players[d].roomId == r && d !in s.rooms[r].observers
  {
    assert RoomBasics(s, r, DeadIn(r, 0, {}));
  }

  lemma SweptRoom(s: State, u: State, r: nat)
    requires r in s.rooms && AllGone(s, u, AbsentSet(s, r))
    ensures r in u.rooms && u.rooms[r].luaRefs == s.rooms[r].luaRefs && (Dead(u, r) <==> Dead(s, r))
  {
    var gone := AbsentSet(s, r);
    assert RoomWithout(s.rooms[r], u.rooms[r], gone);
    if !IsAbandoned(s, s.rooms[r].players) {
      var d :| d in s.rooms[r].players && Connected(s, d);
      assert d !in gone && d in u.rooms[r].players && Connected(u, d);
    }
    if !IsAbandoned(u, u.rooms[r].players) {
      var d :| d in u.rooms[r].players && Connected(u, d);
      assert d !in gone && d in s.rooms[r].players && Connected(s, d);
    }
  }

  /** The absent members lose their seats and are destroyed; whoever else there is has just come. */
  ghost predicate SweptOut(s: State, t: State, r: nat)
    requires r in s.rooms
  {
    && t.rooms.Keys == s.rooms.Keys && (forall q :: q in s.rooms && q != r ==> t.rooms[q] == s.rooms[q])
    && (forall d :: d in t.rooms[r].players <==> d in s.rooms[r].players && Connected(s, d))
    && (forall d :: d in AbsentSet(s, r) ==> d !in t.players)
    && (forall d :: d in s.players && d !in AbsentSet(s, r) ==> d in t.players && t.players[d] == s.players[d])
    && (forall d :: d in t.players ==> d in s.players || s.nextConn <= d)
  }

  lemma SweptIsOut(s: State, r: nat)
    requires r in s.rooms && InvLax(s, 0, {}, r) && OwnerOk(s, s.rooms[r], {})
    ensures SweptOut(s, SweepAbsent(s, r), r)
  {
    hide InvLax, OwnerOk, Absent, DeleteAll, Without, SweepAbsent;
    SweepShape(s, r);
    var dead := SweepCore(s, r);
    AbsentMembers(s, s.rooms[r].players);
    var gone := Absent(s, s.rooms[r].players);
    assert forall d :: d in gone <==> d in AbsentSet(s, r);
    assert (set d | d in gone) == AbsentSet(s, r);
    SweptPeople(s, r);
  }

  lemma SweptPeople(s: State, r: nat)
    requires r in s.rooms
    ensures SweepAbsent(s, r).players == DeleteAll(s, Absent(s, s.rooms[r].players)).players
  {
    hide Absent, DeleteAll, Without;
  }

  /** If the next game runs already, the end-of-game check throws exactly the absent members out just the same. */
  lemma SweptDuringGame(s: State)
    requires Reachable(s) && s.checks != [] && s.checks[0].reason == NoRefCount
    requires s.checks[0].room in s.rooms && s.rooms[s.checks[0].room].luaRefs > 0
    ensures SweptOut(s, Next(s, RunCheck), s.checks[0].room)
  {
    hide Reachable, Inv, InvLax, OwnerOk, SweptOut, Next, SweepAbsent;
    ReachableKeeps(s);
    var r, u := s.checks[0].room, s.(checks := s.checks[1..]);
    Theorems.PopChecked(s);
    SweptIsOut(u, r);
    GameCheckIs(s);
    OutBoth(s, u, SweepAbsent(u, r), r);
  }

  /** In a running game the check stops after the sweep. */
  lemma GameCheckIs(s: State)
    requires Reachable(s) && s.checks != [] && s.checks[0].reason == NoRefCount
    requires s.checks[0].room in s.rooms && s.rooms[s.checks[0].room].luaRefs > 0
    ensures Next(s, RunCheck) == SweepAbsent(s.(checks := s.checks[1..]), s.checks[0].room)
  {
    hide Reachable, Inv, InvLax, OwnerOk, SweepAbsent, CheckAbandoned;
    ReachableKeeps(s);
    Theorems.PopChecked(s);
    var r, u := s.checks[0].room, s.(checks := s.checks[1..]);
    assert Next(s, RunCheck) == CheckAbandoned(u, r, NoRefCount);
    hide Next;
    Theorems.CheckRooms(u, r, NoRefCount);
  }

  lemma OutBoth(s: State, u: State, t: State, r: nat)
    requires r in s.rooms && u == s.(checks := u.checks) && SweptOut(u, t, r)
    ensures SweptOut(s, t, r)
  {
    assert forall d :: Connected(u, d) == Connected(s, d);
    assert AbsentSet(u, r) == AbsentSet(s, r);
  }
}
