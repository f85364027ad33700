/** What every step of the lifecycle keeps. */
module LifecycleInvariant {
  import opened Basics
  import opened Lifecycle

  // ---------------------------------------------------------------- the invariant

  /** How many members did not enter through `addNpc`. */
  function Seated(xs: seq<int>, npcs: set<int>): nat {
    if xs == [] then 0 else (if xs[0] in npcs then 0 else 1) + Seated(xs[1..], npcs)
  }

  /** A listed connection: a live player whose `roomId` names this room, or one of `dead`. */
  ghost predicate Placed(s: State, r: nat, c: int, dead: set<int>) {
    (c in s.players && s.players[c].roomId == r) || c in dead
  }

  ghost predicate MembersOk(s: State, r: nat, room: Room, dead: set<int>) {
    && (forall c :: c in room.players ==> Placed(s, r, c, dead))
    && (forall c :: c in room.observers ==> Placed(s, r, c, {}))
    && Distinct(room.players)
    && Distinct(room.observers)
    && (forall c :: c in room.players ==> c !in room.observers)
  }

  ghost predicate OwnerOk(s: State, room: Room, dead: set<int>) {
    room.owner == 0 ||
    (room.owner in room.players && room.owner !in dead
     && room.owner in s.players && s.players[room.owner].id > 0)
  }

  ghost predicate SeatsOk(s: State, room: Room) {
    && Seated(room.players, room.npcs) <= room.capacity
    && (forall c :: c in room.npcs && c in s.players ==> s.players[c].id < 0)
    && (forall c :: c in room.npcs ==> c < s.nextConn)
  }

  ghost predicate ReclaimOk(s: State, r: nat, room: Room) {
    room.capacity > 0 && room.luaRefs <= 0 && IsAbandoned(s, room.players) ==> Queued(s, r)
  }

  ghost predicate RoomBasics(s: State, r: nat, dead: set<int>)
    requires r in s.rooms
  {
    0 < r < s.nextRoom && MembersOk(s, r, s.rooms[r], dead) && SeatsOk(s, s.rooms[r])
  }

  ghost predicate RoomOk(s: State, r: nat, dead: set<int>)
    requires r in s.rooms
  {
    && RoomBasics(s, r, dead)
    && OwnerOk(s, s.rooms[r], dead)
    && ReclaimOk(s, r, s.rooms[r])
  }

  ghost predicate PlayerOk(s: State, c: int)
    requires c in s.players
  {
    var p := s.players[c];
    && 0 < c < s.nextConn
    && p.roomId < s.nextRoom
    && (p.id < 0 ==> s.nextRobot < p.id)
    && p.id != 0
    && (p.status == Robot ==> p.id < 0)
    && (p.sock != 0 ==> p.sock in s.handlers && s.handlers[p.sock] == Session(c) && p.id > 0)
  }

  ghost predicate AccountsOk(s: State) {
    && (forall a :: a in s.online ==>
          a > 0 && s.online[a] in s.players && s.players[s.online[a]].id == a)
    && (forall a :: a in s.robots ==>
          a < 0 && s.robots[a] in s.players && s.players[s.robots[a]].id == a)
  }

  ghost predicate LobbyOk(s: State) {
    forall c :: c in s.lobby ==> c in s.players && s.players[c].roomId == 0
  }

  ghost predicate PeopleOk(s: State) {
    && 0 < s.nextConn && 0 < s.nextRoom && s.nextRobot < 0
    && 0 !in s.handlers
    && (forall c :: c in s.players ==> PlayerOk(s, c))
    && AccountsOk(s)
    && LobbyOk(s)
  }

  ghost predicate RoomsOk(s: State, r0: nat, dead: set<int>, x: nat) {
    && (forall r :: r in s.rooms ==> RoomBasics(s, r, DeadIn(r, r0, dead)))
    && (forall r :: r in s.rooms && r != x ==> RoomOk(s, r, DeadIn(r, r0, dead)))
  }

  /** The destroyed players that room `r` may still list. */
  function DeadIn(r: nat, r0: nat, dead: set<int>): set<int> {
    if r == r0 then dead else {}
  }

  /** The invariant while room `r0` still lists the destroyed players in `dead` and a member of room
      `x` is leaving, so that its owner and its reclaim check are not settled yet. */
  ghost predicate InvLax(s: State, r0: nat, dead: set<int>, x: nat) {
    && PeopleOk(s)
    && RoomsOk(s, r0, dead, x)
    && (forall c :: c in dead ==> c !in s.players && c < s.nextConn)
  }

  ghost predicate Inv(s: State) {
    InvLax(s, 0, {}, 0)
  }

  // ---------------------------------------------------------------- sequences

  lemma {:induction false} EraseSeated(xs: seq<int>, c: int, npcs: set<int>)
    ensures Seated(Erase(xs, c), npcs) <= Seated(xs, npcs)
  {
    if xs != [] && xs[0] != c {
      EraseSeated(xs[1..], c, npcs);
      assert Erase(xs, c)[1..] == Erase(xs[1..], c);
    }
  }

  lemma {:induction false} SeatedAppend(xs: seq<int>, c: int, npcs: set<int>)
    ensures Seated(xs + [c], npcs) == Seated(xs, npcs) + (if c in npcs then 0 else 1)
  {
    if xs == [] {
      assert xs + [c] == [c];
    } else {
      SeatedAppend(xs[1..], c, npcs);
      assert (xs + [c])[1..] == xs[1..] + [c];
    }
  }

  lemma {:induction false} SeatedBound(xs: seq<int>, npcs: set<int>)
    ensures Seated(xs, npcs) <= |xs|
    ensures (forall x :: x in xs ==> x !in npcs) ==> Seated(xs, npcs) == |xs|
  {
    if xs != [] {
      SeatedBound(xs[1..], npcs);
      if forall x :: x in xs ==> x !in npcs {
        assert xs[0] in xs && forall x :: x in xs[1..] ==> x in xs;
      }
    }
  }

  lemma {:induction false} SeatedNewNpc(xs: seq<int>, npcs: set<int>, c: int)
    requires c !in xs
    ensures Seated(xs, npcs + {c}) == Seated(xs, npcs)
  {
    if xs != [] {
      SeatedNewNpc(xs[1..], npcs, c);
    }
  }

  lemma {:induction false} WithoutMembers(xs: seq<int>, gone: set<int>)
    ensures forall x :: x in Without(xs, gone) <==> x in xs && x !in gone
    ensures Distinct(xs) ==> Distinct(Without(xs, gone))
  {
    if xs != [] {
      WithoutMembers(xs[1..], gone);
      assert forall x :: x in xs <==> x == xs[0] || x in xs[1..];
    }
  }

  lemma {:induction false} WithoutSeated(xs: seq<int>, gone: set<int>, npcs: set<int>)
    ensures Seated(Without(xs, gone), npcs) <= Seated(xs, npcs)
  {
    if xs != [] {
      WithoutSeated(xs[1..], gone, npcs);
      if xs[0] in gone {
        assert Without(xs, gone) == Without(xs[1..], gone);
      } else {
        assert Without(xs, gone)[1..] == Without(xs[1..], gone);
      }
    }
  }

  lemma {:induction false} AbsentMembers(s: State, xs: seq<int>)
    ensures forall x :: x in Absent(s, xs) <==> x in xs && !Connected(s, x)
    ensures Distinct(xs) ==> Distinct(Absent(s, xs))
  {
    if xs != [] {
      AbsentMembers(s, xs[1..]);
      assert forall x :: x in xs <==> x == xs[0] || x in xs[1..];
    }
  }

  lemma {:induction false} FirstConnectedFound(s: State, xs: seq<int>)
    requires !IsAbandoned(s, xs)
    ensures FirstConnected(s, xs) in xs && Connected(s, FirstConnected(s, xs))
  {
    if !Connected(s, xs[0]) {
      assert forall x :: x in xs <==> x == xs[0] || x in xs[1..];
      FirstConnectedFound(s, xs[1..]);
    }
  }

  // ---------------------------------------------------------------- framing

  /** What a room needs to hear about one of its members. */
  ghost predicate Carries(s: State, t: State, c: int) {
    c in s.players ==>
      && c in t.players
      && t.players[c].id == s.players[c].id
      && t.players[c].roomId == s.players[c].roomId
      && (s.players[c].sock != 0 ==> t.players[c].sock != 0)
  }

  /** Ids only grow, and nobody takes an old connection id over. */
  ghost predicate Grows(s: State, t: State) {
    && s.nextConn <= t.nextConn && s.nextRoom <= t.nextRoom
    && (forall c :: c in t.players ==>
          (c in s.players && t.players[c].id == s.players[c].id) || s.nextConn <= c)
    && (forall k :: k in s.checks ==> k in t.checks)
  }

  lemma RoomFrame(s: State, t: State, r: nat, dead: set<int>)
    requires r in s.rooms && r in t.rooms && t.rooms[r] == s.rooms[r]
    requires Grows(s, t)
    requires forall c :: c in s.rooms[r].players || c in s.rooms[r].observers ==> Carries(s, t, c)
    ensures RoomBasics(s, r, dead) ==> RoomBasics(t, r, dead)
    ensures RoomOk(s, r, dead) ==> RoomOk(t, r, dead)
  {
  }

  lemma PeopleFrame(s: State, t: State)
    requires PeopleOk(s)
    requires t == s.(rooms := t.rooms, checks := t.checks)
    ensures PeopleOk(t)
  {
  }

  /** Only room `y` changed, and it is as it should be: then every room is. */
  lemma RoomsFrame(s: State, t: State, r0: nat, dead: set<int>, x: nat, y: nat, z: nat)
    requires RoomsOk(s, r0, dead, x)
    requires Grows(s, t)
    requires x == y || x == z || x == 0
    requires forall r :: r in t.rooms && r != y ==> r in s.rooms && t.rooms[r] == s.rooms[r]
    requires forall r :: r in t.rooms && r != y ==>
               forall c :: c in s.rooms[r].players || c in s.rooms[r].observers ==> Carries(s, t, c)
    requires y in t.rooms ==> RoomBasics(t, y, DeadIn(y, r0, dead))
    requires y in t.rooms && y != z ==> RoomOk(t, y, DeadIn(y, r0, dead))
    ensures RoomsOk(t, r0, dead, z)
  {
    forall r | r in t.rooms && r != y
      ensures RoomBasics(t, r, DeadIn(r, r0, dead))
      ensures r != z ==> RoomOk(t, r, DeadIn(r, r0, dead))
    {
      RoomFrame(s, t, r, DeadIn(r, r0, dead));
    }
  }

  /** Nobody lists `c`. */
  ghost predicate Unlisted(s: State, c: int) {
    && c !in s.lobby
    && forall r :: r in s.rooms ==> c !in s.rooms[r].players && c !in s.rooms[r].observers
  }

  // ---------------------------------------------------------------- leaving a room

  lemma AfterLeaveShape(s: State, r: nat, c: int)
    requires r in s.rooms && c != 0
    requires forall d :: Connected(s, d) ==> s.players[d].id > 0
    ensures var t := AfterLeave(s, r, c);
      && t == s.(rooms := s.rooms[r := t.rooms[r]], checks := t.checks)
      && t.rooms[r] == s.rooms[r].(owner := t.rooms[r].owner)
      && (s.rooms[r].owner == c && !Connected(s, c) ==>
            if IsAbandoned(t, t.rooms[r].players) then t.rooms[r].owner == 0
            else Connected(t, t.rooms[r].owner))
      && (s.rooms[r].owner != c ==> t.rooms[r].owner != c)
  {
    var t := AfterLeave(s, r, c);
    assert s.rooms == s.rooms[r := s.rooms[r]];
    if !IsAbandoned(s, s.rooms[r].players) {
      FirstConnectedFound(s, s.rooms[r].players);
    }
  }

  lemma AfterLeaveRoom(s: State, r: nat, c: int, dead: set<int>)
    requires r in s.rooms && RoomBasics(s, r, dead)
    requires forall d :: Connected(s, d) ==> s.players[d].id > 0
    requires forall d :: d in dead ==> d !in s.players
    requires s.rooms[r].owner == c || OwnerOk(s, s.rooms[r], dead)
    ensures RoomOk(AfterLeave(s, r, c), r, dead)
  {
    var t := AfterLeave(s, r, c);
    if IsAbandoned(s, s.rooms[r].players) {
      assert Check(r, NoHuman) in t.checks;
    } else {
      FirstConnectedFound(s, s.rooms[r].players);
    }
  }

  lemma AfterLeaveKeeps(s: State, r: nat, c: int, r0: nat, dead: set<int>)
    requires r in s.rooms && InvLax(s, r0, dead, r) && c != 0
    requires s.rooms[r].owner == c || OwnerOk(s, s.rooms[r], DeadIn(r, r0, dead))
    ensures InvLax(AfterLeave(s, r, c), r0, dead, 0)
  {
    var t := AfterLeave(s, r, c);
    AfterLeaveShape(s, r, c);
    AfterLeaveRoom(s, r, c, DeadIn(r, r0, dead));
    PeopleFrame(s, t);
    RoomsFrame(s, t, r0, dead, r, r, 0);
  }

  lemma EraseSeatKeeps(s: State, r: nat, c: int, r0: nat, dead: set<int>)
    requires r in s.rooms && InvLax(s, r0, dead, r)
    ensures var room := s.rooms[r];
      var room' := room.(players := Erase(room.players, c));
      var t := SetRoom(s, r, room');
      && InvLax(t, r0, dead, r)
      && c !in room'.players
      && (OwnerOk(s, room, DeadIn(r, r0, dead)) && room.owner != c ==> OwnerOk(t, room', DeadIn(r, r0, dead)))
  {
    var room := s.rooms[r];
    var t := SetRoom(s, r, room.(players := Erase(room.players, c)));
    EraseMembers(room.players, c);
    EraseSeated(room.players, c, room.npcs);
    assert RoomBasics(t, r, DeadIn(r, r0, dead));
    PeopleFrame(s, t);
    RoomsFrame(s, t, r0, dead, r, r, r);
  }

  lemma EraseObserverKeeps(s: State, r: nat, c: int, r0: nat, dead: set<int>)
    requires r in s.rooms && InvLax(s, r0, dead, r) && RoomOk(s, r, DeadIn(r, r0, dead))
    ensures var room := s.rooms[r];
      var room' := room.(observers := Erase(room.observers, c));
      InvLax(SetRoom(s, r, room'), r0, dead, 0) && c !in room'.observers
  {
    var room := s.rooms[r];
    var t := SetRoom(s, r, room.(observers := Erase(room.observers, c)));
    EraseMembers(room.observers, c);
    assert RoomOk(t, r, DeadIn(r, r0, dead));
    PeopleFrame(s, t);
    RoomsFrame(s, t, r0, dead, r, r, 0);
  }

  lemma RunAwayMap(s: State, c: int)
    requires c in s.players && c < s.nextConn
    ensures var p := s.players[c];
      var t := RunAway(s, c, p);
      && t.players == s.players[c := p.(status := Run, sock := 0)][s.nextConn := Player(p.id, Online, p.sock, 0)]
      && t.rooms == s.rooms
  {
  }

  lemma RunAwayPlayer(s: State, c: int, d: int)
    requires c in s.players && PlayerOk(s, c) && 0 < s.nextConn && 0 < s.nextRoom
    requires d in RunAway(s, c, s.players[c]).players && (d in s.players ==> PlayerOk(s, d))
    ensures PlayerOk(RunAway(s, c, s.players[c]), d)
  {
    RunAwayMap(s, c);
  }

  lemma RunAwayPeople(s: State, c: int)
    requires PeopleOk(s) && c in s.players
    ensures PeopleOk(RunAway(s, c, s.players[c]))
  {
    var t := RunAway(s, c, s.players[c]);
    assert PlayerOk(s, c);
    RunAwayMap(s, c);
    hide PlayerOk, Bind, Release;
    forall d | d in t.players
      ensures PlayerOk(t, d)
    {
      RunAwayPlayer(s, c, d);
    }
  }

  lemma RunAwayOwnRoom(s: State, c: int, r: nat, dead: set<int>)
    requires c in s.players && PlayerOk(s, c) && r in s.rooms && RoomBasics(s, r, dead)
    requires s.nextConn !in s.players
    ensures RoomBasics(RunAway(s, c, s.players[c]), r, dead)
  {
    RunAwayMap(s, c);
  }

  lemma RunAwayCarries(s: State, c: int)
    requires c in s.players && c < s.nextConn && s.nextConn !in s.players
    ensures var t := RunAway(s, c, s.players[c]);
      Grows(s, t) && forall d :: d != c ==> Carries(s, t, d)
  {
    RunAwayMap(s, c);
  }

  lemma RunAwayRooms(s: State, c: int, r0: nat, dead: set<int>)
    requires c in s.players && PlayerOk(s, c)
    requires InvLax(s, r0, dead, s.players[c].roomId)
    ensures RoomsOk(RunAway(s, c, s.players[c]), r0, dead, s.players[c].roomId)
  {
    var r := s.players[c].roomId;
    assert s.nextConn !in s.players by {
      assert forall d :: d in s.players ==> PlayerOk(s, d) && d != s.nextConn;
    }
    RunAwayCarries(s, c);
    OnlyInOwnRoom(s, c, r0, dead, r);
    if r in s.rooms {
      RunAwayOwnRoom(s, c, r, DeadIn(r, r0, dead));
    }
    RunAwayMap(s, c);
    RoomsFrame(s, RunAway(s, c, s.players[c]), r0, dead, r, r, r);
  }

  lemma RunAwayKeeps(s: State, c: int, r0: nat, dead: set<int>)
    requires c in s.players
    requires InvLax(s, r0, dead, s.players[c].roomId)
    ensures var r := s.players[c].roomId;
      var t := RunAway(s, c, s.players[c]);
      && InvLax(t, r0, dead, r)
      && t.rooms == s.rooms
      && c in t.players && t.players[c] == s.players[c].(status := Run, sock := 0)
      && (r in s.rooms && OwnerOk(s, s.rooms[r], DeadIn(r, r0, dead)) ==> OwnerOk(t, s.rooms[r], DeadIn(r, r0, dead)))
  {
    assert PlayerOk(s, c);
    RunAwayPeople(s, c);
    RunAwayRooms(s, c, r0, dead);
    RunAwayMap(s, c);
  }

  /** A live player leaves its room, whatever its seat there was. */
  lemma RemoveKeeps(s: State, c: int, r0: nat, dead: set<int>)
    requires c in s.players && s.players[c].roomId in s.rooms
    requires InvLax(s, r0, dead, s.players[c].roomId)
    requires var r := s.players[c].roomId;
      && OwnerOk(s, s.rooms[r], DeadIn(r, r0, dead))
      && (c in s.rooms[r].players || ReclaimOk(s, r, s.rooms[r]))
    ensures InvLax(RemovePlayer(s, s.players[c].roomId, c, s.players[c]), r0, dead, 0)
  {
    var p := s.players[c];
    var r := p.roomId;
    var room := s.rooms[r];
    assert PlayerOk(s, c);
    if c in room.observers {
      assert c !in room.players by {
        assert RoomBasics(s, r, DeadIn(r, r0, dead));
      }
      EraseObserverKeeps(s, r, c, r0, dead);
    } else if c in room.players {
      if room.luaRefs <= 0 {
        EraseSeatKeeps(s, r, c, r0, dead);
        AfterLeaveKeeps(SetRoom(s, r, room.(players := Erase(room.players, c))), r, c, r0, dead);
      } else {
        RunAwayKeeps(s, c, r0, dead);
        AfterLeaveKeeps(RunAway(s, c, p), r, c, r0, dead);
      }
    }
  }

  // ---------------------------------------------------------------- destroying a player

  function Drop(s: State, c: int): State {
    s.(players := s.players - {c})
  }

  /** The state with `c` taken out of the account maps only. */
  function Unmap(s: State, c: int): State
    requires c in s.players
  {
    Unregister(s, c, s.players[c]).(players := s.players)
  }

  ghost predicate NoEntry(s: State, c: int) {
    && (forall a :: a in s.online ==> s.online[a] != c)
    && (forall a :: a in s.robots ==> s.robots[a] != c)
  }

  lemma {:induction false} FirstConnectedSame(s: State, t: State, xs: seq<int>)
    requires forall d :: Connected(s, d) == Connected(t, d)
    ensures FirstConnected(s, xs) == FirstConnected(t, xs)
  {
    if xs != [] {
      FirstConnectedSame(s, t, xs[1..]);
    }
  }

  lemma AfterLeaveDrop(s: State, r: nat, c: int, x: int)
    requires r in s.rooms && x in s.players && s.players[x].sock == 0
    ensures AfterLeave(Drop(s, x), r, c) == Drop(AfterLeave(s, r, c), x)
  {
    var t := Drop(s, x);
    assert forall d :: Connected(s, d) == Connected(t, d);
    FirstConnectedSame(s, t, s.rooms[r].players);
    if !IsAbandoned(s, s.rooms[r].players) {
      FirstConnectedFound(s, s.rooms[r].players);
    }
  }

  lemma RunAwayDrop(s: State, c: int)
    requires c in s.players && c < s.nextConn
    ensures RunAway(Drop(s, c), c, s.players[c]) == Drop(RunAway(s, c, s.players[c]), c)
    ensures c in RunAway(s, c, s.players[c]).players
    ensures RunAway(s, c, s.players[c]).players[c].sock == 0
  {
    var p := s.players[c];
    RunAwayMap(s, c);
    var a, b := RunAway(Drop(s, c), c, p), Drop(RunAway(s, c, p), c);
    assert a.players == b.players;
  }

  /** It makes no difference to the others whether the leaving player is still in the maps. */
  lemma RemoveDrop(s: State, c: int)
    requires c in s.players && s.players[c].sock == 0 && c < s.nextConn
    requires s.players[c].roomId in s.rooms
    ensures var p := s.players[c];
      RemovePlayer(Drop(s, c), p.roomId, c, p) == Drop(RemovePlayer(s, p.roomId, c, p), c)
  {
    var p := s.players[c];
    var r := p.roomId;
    var room := s.rooms[r];
    if c !in room.observers && c in room.players {
      if room.luaRefs <= 0 {
        AfterLeaveDrop(SetRoom(s, r, room.(players := Erase(room.players, c))), r, c, c);
      } else {
        RunAwayDrop(s, c);
        AfterLeaveDrop(RunAway(s, c, p), r, c, c);
      }
    }
  }

  lemma DropPeople(s: State, c: int, r0: nat)
    requires PeopleOk(s) && Droppable(s, c, r0)
    ensures PeopleOk(Drop(s, c)) && c < s.nextConn
  {
    var t := Drop(s, c);
    assert PlayerOk(s, c);
    forall d | d in t.players
      ensures PlayerOk(t, d)
    {
      assert PlayerOk(s, d);
    }
  }

  lemma DropRoom(s: State, c: int, r: nat, dead: set<int>)
    requires r in s.rooms && RoomOk(s, r, dead)
    requires c in s.players && s.players[c].sock == 0
    requires c !in s.rooms[r].observers && s.rooms[r].owner != c
    ensures RoomOk(Drop(s, c), r, dead + {c})
    ensures c !in s.rooms[r].players ==> RoomOk(Drop(s, c), r, dead)
  {
    var t := Drop(s, c);
    assert forall d :: Connected(s, d) == Connected(t, d);
  }

  lemma DropKeeps(s: State, c: int, r0: nat, dead: set<int>)
    requires InvLax(s, r0, dead, 0) && Droppable(s, c, r0)
    ensures InvLax(Drop(s, c), r0, dead + {c}, 0)
    ensures Unlisted(s, c) ==> InvLax(Drop(s, c), r0, dead, 0)
  {
    var t := Drop(s, c);
    DropPeople(s, c, r0);
    forall r | r in t.rooms
      ensures RoomOk(t, r, DeadIn(r, r0, dead + {c}))
      ensures Unlisted(s, c) ==> RoomOk(t, r, DeadIn(r, r0, dead))
    {
      assert RoomBasics(s, r, DeadIn(r, r0, dead));
      DropRoom(s, c, r, DeadIn(r, r0, dead));
    }
  }

  lemma UnmapKeeps(s: State, c: int, r0: nat, dead: set<int>, x: nat)
    requires InvLax(s, r0, dead, x) && c in s.players
    ensures InvLax(Unmap(s, c), r0, dead, x)
    ensures NoEntry(Unmap(s, c), c)
  {
    var t := Unmap(s, c);
    forall r | r in t.rooms
      ensures RoomBasics(t, r, DeadIn(r, r0, dead))
      ensures r != x ==> RoomOk(t, r, DeadIn(r, r0, dead))
    {
      RoomFrame(s, t, r, DeadIn(r, r0, dead));
    }
    forall d | d in t.players
      ensures PlayerOk(t, d)
    {
      assert PlayerOk(s, d);
    }
  }

  /** What leaving does to the seats and the owner. */
  lemma RemoveShape(s: State, c: int)
    requires c in s.players && c != 0 && c < s.nextConn && s.players[c].roomId in s.rooms
    requires forall d :: Connected(s, d) ==> s.players[d].id > 0
    ensures var p := s.players[c];
      var r := p.roomId;
      var room := s.rooms[r];
      var t := RemovePlayer(s, r, c, p);
      && t.rooms.Keys == s.rooms.Keys
      && (forall q :: q in s.rooms && q != r ==> t.rooms[q] == s.rooms[q])
      && t.rooms[r].capacity == room.capacity && t.rooms[r].luaRefs == room.luaRefs
      && t.rooms[r].npcs == room.npcs && t.rooms[r].rejected == room.rejected
      && t.rooms[r].observers == (if c in room.observers then Erase(room.observers, c) else room.observers)
      && t.rooms[r].players == (if c !in room.observers && room.luaRefs <= 0 then Erase(room.players, c) else room.players)
  {
    var p := s.players[c];
    var r := p.roomId;
    var room := s.rooms[r];
    if c !in room.observers && c in room.players {
      if room.luaRefs <= 0 {
        AfterLeaveShape(SetRoom(s, r, room.(players := Erase(room.players, c))), r, c);
      } else {
        RunAwayMap(s, c);
        AfterLeaveShape(RunAway(s, c, p), r, c);
      }
    } else if c !in room.observers {
      EraseAbsent(room.players, c);
    }
  }

  lemma {:induction false} EraseAbsent(xs: seq<int>, c: int)
    requires c !in xs
    ensures Erase(xs, c) == xs
  {
    if xs != [] {
      EraseAbsent(xs[1..], c);
    }
  }

  /** A disconnected player leaves nothing behind but, in a running game, its seat. */
  lemma RemoveTraces(s: State, c: int)
    requires c in s.players && 0 < c < s.nextConn && s.players[c].roomId in s.rooms
    requires forall d :: Connected(s, d) ==> s.players[d].id > 0
    requires s.players[c].sock == 0
    ensures var p := s.players[c];
      var r := p.roomId;
      var t := RemovePlayer(s, r, c, p);
      && (NoEntry(s, c) ==> NoEntry(t, c))
      && (c !in s.lobby ==> c !in t.lobby)
      && c in t.players && t.players[c].sock == 0 && t.players[c].id == p.id && t.players[c].roomId == r
      && (c in s.rooms[r].players && c !in s.rooms[r].observers ==> t.rooms[r].owner != c)
  {
    var p := s.players[c];
    var r := p.roomId;
    var room := s.rooms[r];
    if c !in room.observers && c in room.players {
      if room.luaRefs <= 0 {
        AfterLeaveShape(SetRoom(s, r, room.(players := Erase(room.players, c))), r, c);
      } else {
        RunAwayMap(s, c);
        AfterLeaveShape(RunAway(s, c, p), r, c);
      }
    }
  }

  lemma DeleteUnfold(s: State, c: int)
    requires c in s.players && c < s.nextConn && s.players[c].sock == 0
    ensures var p := s.players[c];
      DeletePlayer(s, c) ==
      if p.roomId == 0 then Drop(Unmap(s, c).(lobby := s.lobby - {c}), c)
      else if p.roomId in s.rooms then Drop(RemovePlayer(Unmap(s, c), p.roomId, c, p), c)
      else Drop(Unmap(s, c), c)
  {
    var p := s.players[c];
    assert Unregister(s, c, p) == Drop(Unmap(s, c), c);
    if p.roomId != 0 && p.roomId in s.rooms {
      RemoveDrop(Unmap(s, c), c);
    }
  }

  /** Is `c` in a seat of a running game? */
  ghost predicate Playing(s: State, c: int)
    requires c in s.players
  {
    var r := s.players[c].roomId;
    r in s.rooms && s.rooms[r].luaRefs > 0 && c in s.rooms[r].players
  }

  /** Before a player is destroyed its room may already miss it. */
  ghost predicate Leaving(s: State, c: int, r0: nat, dead: set<int>)
    requires c in s.players
  {
    var r := s.players[c].roomId;
    && InvLax(s, r0, dead, r)
    && (r in s.rooms ==>
          && OwnerOk(s, s.rooms[r], DeadIn(r, r0, dead))
          && (c in s.rooms[r].players || ReclaimOk(s, r, s.rooms[r])))
  }

  lemma OnlyInOwnRoom(s: State, c: int, r0: nat, dead: set<int>, x: nat)
    requires InvLax(s, r0, dead, x) && c in s.players
    ensures forall r :: r in s.rooms && r != s.players[c].roomId ==>
              c !in s.rooms[r].players && c !in s.rooms[r].observers
  {
    forall r | r in s.rooms && r != s.players[c].roomId
      ensures c !in s.rooms[r].players && c !in s.rooms[r].observers
    {
      assert RoomBasics(s, r, DeadIn(r, r0, dead));
    }
  }

  /** `c` may be destroyed: only a seat in room `r0` can still list it. */
  ghost predicate Droppable(s: State, c: int, r0: nat) {
    && NoEntry(s, c) && c !in s.lobby
    && c in s.players && s.players[c].sock == 0
    && (forall r :: r in s.rooms ==> c !in s.rooms[r].observers && s.rooms[r].owner != c)
    && (forall r :: r in s.rooms && c in s.rooms[r].players ==> r == r0)
  }

  lemma RemovedElsewhere(s: State, c: int, r0: nat, dead: set<int>, q: nat)
    requires c in s.players && Leaving(s, c, r0, dead) && s.players[c].roomId in s.rooms
    requires q in s.rooms && q != s.players[c].roomId
    ensures c !in s.rooms[q].players && c !in s.rooms[q].observers && s.rooms[q].owner != c
  {
    assert RoomBasics(s, q, DeadIn(q, r0, dead));
    assert PlayerOk(s, c);
    assert OwnerOk(s, s.rooms[q], DeadIn(q, r0, dead));
  }

  lemma RemovedHere(s: State, c: int, r0: nat, dead: set<int>)
    requires c in s.players && s.players[c].sock == 0 && Leaving(s, c, r0, dead)
    requires s.players[c].roomId in s.rooms
    ensures var r := s.players[c].roomId;
      var t := RemovePlayer(s, r, c, s.players[c]);
      && r in t.rooms && c !in t.rooms[r].observers && t.rooms[r].owner != c
      && (c in t.rooms[r].players <==> Playing(s, c))
  {
    var r := s.players[c].roomId;
    var room := s.rooms[r];
    assert PlayerOk(s, c) && RoomBasics(s, r, DeadIn(r, r0, dead));
    RemoveShape(s, c);
    RemoveTraces(s, c);
    EraseMembers(room.observers, c);
    EraseMembers(room.players, c);
    if c !in room.players || c in room.observers {
      assert RemovePlayer(s, r, c, s.players[c]).rooms[r].owner == room.owner;
    }
  }

  lemma RemovedDroppable(s: State, c: int, r0: nat, dead: set<int>)
    requires c in s.players && s.players[c].sock == 0 && Leaving(s, c, r0, dead)
    requires s.players[c].roomId in s.rooms && NoEntry(s, c)
    requires Playing(s, c) ==> s.players[c].roomId == r0
    ensures var t := RemovePlayer(s, s.players[c].roomId, c, s.players[c]);
      Droppable(t, c, r0) && (!Playing(s, c) ==> Unlisted(t, c))
  {
    var r := s.players[c].roomId;
    var t := RemovePlayer(s, r, c, s.players[c]);
    assert PlayerOk(s, c) && RoomBasics(s, r, DeadIn(r, r0, dead));
    RemoveShape(s, c);
    RemoveTraces(s, c);
    RemovedHere(s, c, r0, dead);
    forall q | q in s.rooms && q != r
      ensures c !in s.rooms[q].players && c !in s.rooms[q].observers && s.rooms[q].owner != c
    {
      RemovedElsewhere(s, c, r0, dead, q);
    }
  }

  lemma UnmapLeaving(s: State, c: int, r0: nat, dead: set<int>)
    requires c in s.players && Leaving(s, c, r0, dead)
    ensures Leaving(Unmap(s, c), c, r0, dead) && NoEntry(Unmap(s, c), c)
  {
    UnmapKeeps(s, c, r0, dead, s.players[c].roomId);
  }

  lemma DeleteSeated(s: State, c: int, r0: nat, dead: set<int>)
    requires c in s.players && s.players[c].sock == 0 && Leaving(s, c, r0, dead)
    requires s.players[c].roomId in s.rooms
    requires Playing(s, c) ==> s.players[c].roomId == r0
    ensures InvLax(DeletePlayer(s, c), r0, if Playing(s, c) then dead + {c} else dead, 0)
  {
    var u := Unmap(s, c);
    var r := s.players[c].roomId;
    assert PlayerOk(s, c) && RoomBasics(s, r, DeadIn(r, r0, dead));
    DeleteUnfold(s, c);
    UnmapLeaving(s, c, r0, dead);
    RemoveKeeps(u, c, r0, dead);
    RemovedDroppable(u, c, r0, dead);
    DropKeeps(RemovePlayer(u, r, c, s.players[c]), c, r0, dead);
  }

  lemma DeleteUnseated(s: State, c: int, r0: nat, dead: set<int>)
    requires c in s.players && s.players[c].sock == 0 && InvLax(s, r0, dead, 0)
    requires s.players[c].roomId !in s.rooms
    ensures InvLax(DeletePlayer(s, c), r0, dead, 0)
  {
    var p := s.players[c];
    assert PlayerOk(s, c);
    var u := Unmap(s, c);
    var u1 := if p.roomId == 0 then u.(lobby := s.lobby - {c}) else u;
    DeleteUnfold(s, c);
    UnmapKeeps(s, c, r0, dead, 0);
    LobbyFrame(u, u1, r0, dead);
    hide DeletePlayer, RemovePlayer;
    forall r | r in s.rooms
      ensures c !in s.rooms[r].players && c !in s.rooms[r].observers && s.rooms[r].owner != c
    {
      assert RoomOk(s, r, DeadIn(r, r0, dead));
    }
    DropKeeps(u1, c, r0, dead);
  }

  lemma LobbyFrame(s: State, t: State, r0: nat, dead: set<int>)
    requires InvLax(s, r0, dead, 0) && t == s.(lobby := t.lobby) && t.lobby <= s.lobby
    ensures InvLax(t, r0, dead, 0)
  {
    forall r | r in t.rooms
      ensures RoomOk(t, r, DeadIn(r, r0, dead))
    {
      RoomFrame(s, t, r, DeadIn(r, r0, dead));
    }
    assert forall d :: d in t.players ==> PlayerOk(s, d) && PlayerOk(t, d);
  }

  lemma DeleteKeeps(s: State, c: int, r0: nat, dead: set<int>)
    requires c in s.players && s.players[c].sock == 0 && Leaving(s, c, r0, dead)
    requires Playing(s, c) ==> s.players[c].roomId == r0
    ensures InvLax(DeletePlayer(s, c), r0, if Playing(s, c) then dead + {c} else dead, 0)
  {
    if s.players[c].roomId in s.rooms {
      DeleteSeated(s, c, r0, dead);
    } else {
      assert RoomsOk(s, r0, dead, 0);
      DeleteUnseated(s, c, r0, dead);
    }
  }
}
