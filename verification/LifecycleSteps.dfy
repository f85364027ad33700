/** Every event keeps the invariant, and so every run does. */
module LifecycleSteps {
  import opened Basics
  import opened Lifecycle
  import opened LifecycleInvariant

  // ---------------------------------------------------------------- small changes

  /** Changes that no room hears about. */
  lemma QuietKeeps(s: State, t: State)
    requires Inv(s) && PeopleOk(t) && t.rooms == s.rooms && Grows(s, t)
    requires forall r :: r in s.rooms ==>
               forall c :: c in s.rooms[r].players || c in s.rooms[r].observers ==> Carries(s, t, c)
    ensures Inv(t)
  {
    RoomsFrame(s, t, 0, {}, 0, 0, 0);
  }

  /** One room changed, nobody else. */
  lemma OneRoomKeeps(s: State, t: State, r: nat)
    requires r in t.rooms && RoomOk(t, r, {})
    requires InvLax(s, 0, {}, r) && t == s.(rooms := s.rooms[r := t.rooms[r]], checks := t.checks)
    requires forall k :: k in s.checks ==> k in t.checks
    ensures Inv(t)
  {
    PeopleFrame(s, t);
    RoomsFrame(s, t, 0, {}, r, r, 0);
  }

  lemma StatusKeeps(s: State, c: int, status: Status)
    requires Inv(s) && c in s.players && status != Robot
    ensures Inv(SetStatus(s, c, status))
  {
    var t := SetStatus(s, c, status);
    assert forall d :: d in t.players ==> PlayerOk(s, d) && PlayerOk(t, d);
    QuietKeeps(s, t);
  }

  lemma InNoRoom(s: State, c: int)
    requires Inv(s) && c in s.players && s.players[c].roomId !in s.rooms
    ensures forall r :: r in s.rooms ==> c !in s.rooms[r].players && c !in s.rooms[r].observers
  {
    OnlyInOwnRoom(s, c, 0, {}, 0);
  }

  lemma EnterLobbyKeeps(s: State, c: int)
    requires Inv(s) && c in s.players
    requires forall r :: r in s.rooms ==> c !in s.rooms[r].players && c !in s.rooms[r].observers
    ensures Inv(EnterLobby(s, c))
  {
    var t := EnterLobby(s, c);
    assert forall d :: d in t.players ==> PlayerOk(s, d) && PlayerOk(t, d);
    QuietKeeps(s, t);
  }

  lemma LobbyAddKeeps(s: State, c: int)
    requires Inv(s) && c in s.players
    requires forall r :: r in s.rooms ==> c !in s.rooms[r].players && c !in s.rooms[r].observers
    ensures Inv(LobbyAdd(s, c))
  {
    assert PlayerOk(s, c);
    if s.players[c].status == Robot {
      DeleteGone(s, c);
    } else {
      EnterLobbyKeeps(s, c);
    }
  }

  /** Deleting a socketless player that does not sit in a running game. */
  lemma DeleteGone(s: State, c: int)
    requires Inv(s) && c in s.players && s.players[c].sock == 0 && !Playing(s, c)
    ensures Inv(DeletePlayer(s, c))
  {
    var r := s.players[c].roomId;
    assert r in s.rooms ==> RoomOk(s, r, {});
    DeleteKeeps(s, c, 0, {});
  }

  // ---------------------------------------------------------------- sessions

  lemma SocketPeople(s: State, c: int, sock: nat)
    requires PeopleOk(s) && c in s.players
    requires sock != 0 ==> sock in s.handlers && s.handlers[sock] == Early && s.players[c].id > 0
    ensures PeopleOk(SetSocket(s, c, sock))
  {
    var t := SetSocket(s, c, sock);
    forall d | d in t.players
      ensures PlayerOk(t, d)
    {
      assert PlayerOk(s, d) && PlayerOk(s, c);
    }
  }

  lemma AttachKeeps(s: State, c: int, sock: nat)
    requires Inv(s) && c in s.players && s.players[c].id > 0
    requires sock != 0 && sock in s.handlers && s.handlers[sock] == Early
    ensures Inv(SetSocket(s, c, sock))
  {
    SocketPeople(s, c, sock);
    QuietKeeps(s, SetSocket(s, c, sock));
  }

  /** The player without its socket. */
  function Detach(s: State, c: int): State
    requires c in s.players
  {
    SetStatus(SetSocket(s, c, 0), c, Offline)
  }

  lemma DetachPeople(s: State, c: int)
    requires PeopleOk(s) && c in s.players
    ensures PeopleOk(Detach(s, c))
  {
    var u := SetSocket(s, c, 0);
    var t := Detach(s, c);
    SocketPeople(s, c, 0);
    assert forall d :: d in t.players ==> PlayerOk(u, d) && PlayerOk(t, d);
  }

  lemma DetachRoom(s: State, c: int, r: nat)
    requires c in s.players && r in s.rooms && RoomOk(s, r, {})
    ensures var t := Detach(s, c);
      && RoomBasics(t, r, {}) && OwnerOk(t, t.rooms[r], {})
      && (c !in s.rooms[r].players || s.rooms[r].luaRefs > 0 ==> ReclaimOk(t, r, t.rooms[r]))
  {
  }

  /** Losing the socket: only the player's own room may notice. */
  lemma DetachLax(s: State, c: int)
    requires Inv(s) && c in s.players
    ensures InvLax(Detach(s, c), 0, {}, s.players[c].roomId)
  {
    var r := s.players[c].roomId;
    var t := Detach(s, c);
    DetachPeople(s, c);
    OnlyInOwnRoom(s, c, 0, {}, 0);
    if r in s.rooms {
      DetachRoom(s, c, r);
    }
    RoomsFrame(s, t, 0, {}, 0, r, r);
  }

  lemma LaxIsInv(s: State, r: nat)
    requires InvLax(s, 0, {}, r) && (r in s.rooms ==> RoomOk(s, r, {}))
    ensures Inv(s)
  {
  }

  lemma DetachKeeps(s: State, c: int)
    requires Inv(s) && c in s.players
    ensures var t := Detach(s, c);
      && Leaving(t, c, 0, {})
      && (InsideGame(t, c) ==> Inv(t))
  {
    var r := s.players[c].roomId;
    DetachLax(s, c);
    if r in s.rooms {
      DetachRoom(s, c, r);
      if s.rooms[r].luaRefs > 0 {
        LaxIsInv(Detach(s, c), r);
      }
    }
  }

  lemma DisconnectKeeps(s: State, c: int)
    requires Inv(s) && c in s.players
    ensures Inv(OnDisconnected(s, c))
  {
    var t := Detach(s, c);
    DetachKeeps(s, c);
    if !InsideGame(t, c) {
      NotPlaying(s, c);
      DeleteKeeps(t, c, 0, {});
    }
  }

  lemma NotPlaying(s: State, c: int)
    requires Inv(s) && c in s.players && !InsideGame(Detach(s, c), c)
    ensures !Playing(Detach(s, c), c)
  {
    var r := s.players[c].roomId;
    if r in s.rooms {
      assert RoomOk(s, r, {});
    }
  }

  /** What a disconnect does to the sessions: it frees the one socket, and nobody else is touched. */
  ghost predicate OnlyLoses(s: State, t: State, c: int)
    requires c in s.players
  {
    && t.handlers == Release(s.handlers, s.players[c].sock)
    && t.players - {c} == s.players - {c}
    && (c in t.players ==> t.players[c].sock == 0)
    && t.nextConn == s.nextConn
    && (forall a :: a in s.online && s.online[a] != c ==> a in t.online && t.online[a] == s.online[a])
  }

  lemma DetachLoses(s: State, c: int)
    requires c in s.players
    ensures OnlyLoses(s, Detach(s, c), c)
  {
  }

  lemma DeleteLoses(s: State, c: int)
    requires c in s.players && s.players[c].sock == 0 && 0 < c < s.nextConn
    requires forall d :: Connected(s, d) ==> s.players[d].id > 0
    requires !Playing(s, c)
    ensures OnlyLoses(s, DeletePlayer(s, c), c)
  {
    var p := s.players[c];
    var u := Unmap(s, c);
    DeleteUnfold(s, c);
    if p.roomId != 0 && p.roomId in s.rooms && c in s.rooms[p.roomId].players && c !in s.rooms[p.roomId].observers {
      var room := s.rooms[p.roomId];
      AfterLeaveShape(SetRoom(u, p.roomId, room.(players := Erase(room.players, c))), p.roomId, c);
    }
  }

  lemma DisconnectSockets(s: State, c: int)
    requires Inv(s) && c in s.players
    ensures OnlyLoses(s, OnDisconnected(s, c), c)
  {
    var u := Detach(s, c);
    assert PlayerOk(s, c);
    DetachLoses(s, c);
    if !InsideGame(u, c) {
      NotPlaying(s, c);
      DetachPeople(s, c);
      assert forall d :: Connected(u, d) ==> PlayerOk(u, d);
      DeleteLoses(u, c);
    }
  }

  lemma SocketGoneKeeps(s: State, sock: nat)
    requires Inv(s) && sock in s.handlers
    ensures Inv(DoSocketGone(s, sock))
  {
    var h := s.handlers[sock];
    if h.Session? && h.conn in s.players && s.players[h.conn].sock == sock {
      DisconnectKeeps(s, h.conn);
      DisconnectSockets(s, h.conn);
      assert 0 !in s.handlers;
      assert DoSocketGone(s, sock) == OnDisconnected(s, h.conn);
    } else {
      var t := DoSocketGone(s, sock);
      assert forall d :: d in t.players ==> PlayerOk(s, d) && PlayerOk(t, d);
      QuietKeeps(s, t);
    }
  }

  /** A new player, still without a socket. */
  lemma RegisterKeeps(s: State, p: Player)
    requires Inv(s) && p.sock == 0 && p.roomId == 0 && p.id != 0 && (p.status == Robot ==> p.id < 0)
    requires p.id < 0 ==> p.id == s.nextRobot
    ensures var t := Register(s, s.nextConn, p)
        .(nextConn := s.nextConn + 1, nextRobot := if p.id < 0 then s.nextRobot - 1 else s.nextRobot);
      && Inv(t)
      && (forall r :: r in t.rooms ==> s.nextConn !in t.rooms[r].players && s.nextConn !in t.rooms[r].observers)
  {
    var c := s.nextConn;
    var t := Register(s, c, p)
      .(nextConn := c + 1, nextRobot := if p.id < 0 then s.nextRobot - 1 else s.nextRobot);
    assert forall d :: d in s.players ==> PlayerOk(s, d);
    assert PlayerOk(t, c);
    assert forall d :: d in t.players ==> PlayerOk(t, d);
    QuietKeeps(s, t);
    forall r | r in t.rooms
      ensures c !in t.rooms[r].players && c !in t.rooms[r].observers
    {
      assert RoomBasics(s, r, {});
    }
  }

  lemma FreshLoginKeeps(s: State, sock: nat, id: int)
    requires Inv(s) && id > 0 && sock != 0 && sock in s.handlers && s.handlers[sock] == Early
    ensures Inv(CreateNewPlayer(s, sock, id))
  {
    var c := s.nextConn;
    RegisterKeeps(s, Player(id, Online, 0, 0));
    var s1 := Register(s, c, Player(id, Online, 0, 0)).(nextConn := c + 1);
    AttachKeeps(s1, c, sock);
    EnterLobbyKeeps(SetSocket(s1, c, sock), c);
  }

  lemma LoginKeeps(s: State, sock: nat, id: int)
    requires Inv(s) && id > 0 && sock != 0 && sock in s.handlers && s.handlers[sock] == Early
    ensures Inv(DoLogin(s, sock, id))
  {
    if id in s.online && s.online[id] in s.players && InsideGame(s, s.online[id]) {
      ReloginKeeps(s, s.online[id], sock);
    } else {
      FreshLoginKeeps(s, sock, id);
    }
  }

  lemma ReloginKeeps(s: State, c: int, sock: nat)
    requires Inv(s) && c in s.players && s.players[c].id > 0
    requires sock != 0 && sock in s.handlers && s.handlers[sock] == Early
    ensures Inv(Reconnect(s, c, sock))
  {
    AttachKeeps(s, c, sock);
    StatusKeeps(SetSocket(s, c, sock), c, Online);
  }

  // ---------------------------------------------------------------- taking a seat

  /** Sitting down, as a function of the new room value. */
  function Sit(s: State, r: nat, room: Room, c: int): State
    requires c in s.players
  {
    SetRoom(s, r, room).(players := s.players[c := s.players[c].(roomId := r)], lobby := s.lobby - {c})
  }

  lemma SitKeeps(s: State, r: nat, room: Room, c: int)
    requires InvLax(s, 0, {}, r) && c in s.players && r in s.rooms
    requires forall q :: q in s.rooms ==> c !in s.rooms[q].players && c !in s.rooms[q].observers
    requires RoomOk(Sit(s, r, room, c), r, {})
    ensures Inv(Sit(s, r, room, c))
  {
    assert RoomBasics(s, r, DeadIn(r, 0, {}));
    SitPeople(s, r, room, c);
    RoomsFrame(s, Sit(s, r, room, c), 0, {}, r, r, 0);
  }

  lemma SitPeople(s: State, r: nat, room: Room, c: int)
    requires PeopleOk(s) && c in s.players && r < s.nextRoom
    ensures PeopleOk(Sit(s, r, room, c))
  {
    var t := Sit(s, r, room, c);
    assert forall d :: d in t.players ==> PlayerOk(s, d) && PlayerOk(t, d);
  }

  lemma AppendMembers(xs: seq<int>, c: int)
    requires Distinct(xs) && c !in xs
    ensures Distinct(xs + [c])
    ensures forall x :: x in xs + [c] <==> x in xs || x == c
  {
  }

  /** `c`, in no room and not rejected, takes a free seat of a room that is not playing. */
  lemma SeatRoom(s: State, r: nat, c: int)
    requires r in s.rooms && RoomBasics(s, r, {}) && OwnerOk(s, s.rooms[r], {})
    requires c in s.players && PlayerOk(s, c)
    requires c !in s.rooms[r].players && c !in s.rooms[r].observers && c !in s.rooms[r].npcs
    requires !IsFull(s.rooms[r])
    requires Connected(s, c) || (s.rooms[r].owner != 0 && ReclaimOk(s, r, s.rooms[r]))
    ensures var room := s.rooms[r];
      var room' := room.(players := room.players + [c], owner := if room.owner == 0 then c else room.owner);
      RoomOk(Sit(s, r, room', c), r, {})
  {
    var room := s.rooms[r];
    var room' := room.(players := room.players + [c], owner := if room.owner == 0 then c else room.owner);
    var t := Sit(s, r, room', c);
    AppendMembers(room.players, c);
    SeatedAppend(room.players, c, room.npcs);
    SeatedBound(room.players, room.npcs);
    assert MembersOk(t, r, room', {});
    assert c in room'.players;
    if IsAbandoned(t, room'.players) {
      assert forall d :: d in room.players ==> d in room'.players;
      assert IsAbandoned(s, room.players);
    }
  }

  /** The room after `c` took a seat in it. */
  function Joined(room: Room, c: int): Room {
    room.(players := room.players + [c], owner := if room.owner == 0 then c else room.owner)
  }

  predicate Admits(s: State, r: nat, c: int)
    requires r in s.rooms && c in s.players
  {
    s.players[c].id !in s.rooms[r].rejected && !IsFull(s.rooms[r]) && s.rooms[r].luaRefs <= 0
  }

  lemma EnterShape(s: State, r: nat, c: int)
    requires r in s.rooms && c in s.players && s.players[c].id > 0 && s.players[c].roomId != r
    ensures LeaveLobbyFor(AddPlayer(s, r, c), r, c) ==
            if Admits(s, r, c) then Sit(s, r, Joined(s.rooms[r], c), c) else s
  {
    var room := s.rooms[r];
    if Admits(s, r, c) {
      var u := LeaveLobbyFor(AddPlayer(s, r, c), r, c);
      var v := Sit(s, r, Joined(room, c), c);
      assert u.rooms == v.rooms;
      assert u.players == v.players;
    }
  }

  lemma SeatFree(s: State, r: nat, c: int)
    requires Inv(s) && r in s.rooms && c in s.players && Connected(s, c)
    requires forall q :: q in s.rooms ==> c !in s.rooms[q].players && c !in s.rooms[q].observers
    requires !IsFull(s.rooms[r])
    ensures RoomOk(Sit(s, r, Joined(s.rooms[r], c), c), r, {})
  {
    assert RoomOk(s, r, {}) && PlayerOk(s, c);
    SeatRoom(s, r, c);
  }

  lemma EnterKeeps(s: State, r: nat, c: int)
    requires Inv(s) && SenderInLobby(s, c) && r in s.rooms
    ensures Inv(LeaveLobbyFor(AddPlayer(s, r, c), r, c))
  {
    assert PlayerOk(s, c) && RoomBasics(s, r, {});
    EnterShape(s, r, c);
    InNoRoom(s, c);
    if Admits(s, r, c) {
      SeatFree(s, r, c);
      SitKeeps(s, r, Joined(s.rooms[r], c), c);
    }
  }

  lemma CreateRoomKeeps(s: State, c: int, capacity: nat)
    requires Inv(s) && SenderInLobby(s, c)
    ensures Inv(DoCreateRoom(s, c, capacity))
  {
    var r := s.nextRoom;
    var u := SetRoom(s, r, Room([], [], 0, capacity, 0, [], {})).(nextRoom := r + 1);
    NewRoomKeeps(s, capacity);
    assert PlayerOk(s, c) && PlayerOk(u, c) && RoomBasics(u, r, {});
    EnterShape(u, r, c);
    if capacity > 0 {
      OnlyInOwnRoom(u, c, 0, {}, r);
      SeatRoom(u, r, c);
      SitKeeps(u, r, Joined(u.rooms[r], c), c);
    }
  }

  /** Without a member there is nobody whose leaving would queue a check. */
  lemma NewRoomOk(t: State, r: nat)
    requires 0 < r < t.nextRoom && r in t.rooms && t.rooms[r] == Room([], [], 0, t.rooms[r].capacity, 0, [], {})
    ensures RoomBasics(t, r, {}) && (t.rooms[r].capacity == 0 ==> RoomOk(t, r, {}))
  {
  }

  lemma NewRoomPeople(s: State, t: State)
    requires PeopleOk(s) && t == s.(rooms := t.rooms, nextRoom := s.nextRoom + 1)
    ensures PeopleOk(t)
  {
    assert forall d :: d in t.players ==> PlayerOk(s, d) && PlayerOk(t, d);
  }

  lemma NewRoomKeeps(s: State, capacity: nat)
    requires Inv(s)
    ensures var t := SetRoom(s, s.nextRoom, Room([], [], 0, capacity, 0, [], {})).(nextRoom := s.nextRoom + 1);
      InvLax(t, 0, {}, s.nextRoom) && (capacity == 0 ==> Inv(t))
  {
    var r := s.nextRoom;
    var t := SetRoom(s, r, Room([], [], 0, capacity, 0, [], {})).(nextRoom := r + 1);
    hide RoomsOk, RoomBasics, RoomOk, MembersOk, SeatsOk, OwnerOk, ReclaimOk;
    NewRoomOk(t, r);
    NewRoomPeople(s, t);
    hide PeopleOk;
    RoomsFrame(s, t, 0, {}, 0, r, r);
    if capacity == 0 {
      RoomsFrame(s, t, 0, {}, 0, r, 0);
    }
  }

  lemma ObserveKeeps(s: State, r: nat, c: int)
    requires Inv(s) && c in s.players && s.players[c].roomId == 0 && r in s.rooms
    ensures Inv(LeaveLobbyFor(AddObserver(s, r, c), r, c))
  {
    var room := s.rooms[r];
    assert RoomOk(s, r, {}) && PlayerOk(s, c);
    if !(room.luaRefs <= 0 || s.players[c].id in room.rejected) {
      InNoRoom(s, c);
      var room' := room.(observers := room.observers + [c]);
      AppendMembers(room.observers, c);
      assert RoomOk(Sit(s, r, room', c), r, {});
      SitKeeps(s, r, room', c);
      assert LeaveLobbyFor(AddObserver(s, r, c), r, c) == Sit(s, r, room', c);
    }
  }

  // ---------------------------------------------------------------- leaving a room

  lemma LeaveKeeps(s: State, c: int)
    requires Inv(s) && c in s.players && s.players[c].roomId in s.rooms
    ensures Inv(RemovePlayer(s, s.players[c].roomId, c, s.players[c]))
  {
    assert RoomOk(s, s.players[c].roomId, {});
    RemoveKeeps(s, c, 0, {});
  }

  lemma LeaveStatus(s: State, c: int)
    requires PeopleOk(s) && c in s.players && s.players[c].roomId in s.rooms
    requires var room := s.rooms[s.players[c].roomId]; c in room.players ==> c !in room.observers
    ensures var t := RemovePlayer(s, s.players[c].roomId, c, s.players[c]);
      && c in t.players
      && (Playing(s, c) ==> t.players[c].status == Run)
      && (!Playing(s, c) ==> t.players == s.players)
  {
    var r := s.players[c].roomId;
    var room := s.rooms[r];
    assert PlayerOk(s, c);
    if c in room.players {
      if room.luaRefs <= 0 {
        assert forall d :: Connected(s, d) ==> PlayerOk(s, d);
        AfterLeaveShape(SetRoom(s, r, room.(players := Erase(room.players, c))), r, c);
      } else {
        RunAwayMap(s, c);
        RunAwayConnected(s, c);
        AfterLeaveShape(RunAway(s, c, s.players[c]), r, c);
      }
    }
  }

  /** After leaving, the player is in no list, unless its seat in a running game keeps its name. */
  lemma LeaveUnlists(s: State, c: int)
    requires Inv(s) && c in s.players && s.players[c].roomId in s.rooms
    ensures var t := RemovePlayer(s, s.players[c].roomId, c, s.players[c]);
      && c in t.players
      && (Playing(s, c) ==> t.players[c].status == Run)
      && (!Playing(s, c) ==>
            t.players == s.players &&
            forall r :: r in t.rooms ==> c !in t.rooms[r].players && c !in t.rooms[r].observers)
  {
    var r := s.players[c].roomId;
    var room := s.rooms[r];
    assert PlayerOk(s, c) && RoomOk(s, r, {});
    assert forall d :: Connected(s, d) ==> PlayerOk(s, d);
    LeaveStatus(s, c);
    RemoveShape(s, c);
    OnlyInOwnRoom(s, c, 0, {}, 0);
    EraseMembers(room.observers, c);
    EraseMembers(room.players, c);
  }

  lemma RunAwayConnected(s: State, c: int)
    requires PeopleOk(s) && c in s.players
    ensures var t := RunAway(s, c, s.players[c]);
      forall d :: Connected(t, d) ==> t.players[d].id > 0
  {
    var t := RunAway(s, c, s.players[c]);
    RunAwayPeople(s, c);
    assert forall d :: Connected(t, d) ==> PlayerOk(t, d);
  }

  lemma QuitKeeps(s: State, c: int)
    requires Inv(s) && SenderInRoom(s, c)
    ensures Inv(DoQuit(s, c))
  {
    LeaveKeeps(s, c);
    LeaveUnlists(s, c);
    var t := RemovePlayer(s, s.players[c].roomId, c, s.players[c]);
    if t.players[c].status == Online {
      LobbyAddKeeps(t, c);
    }
  }

  lemma RejectsKeep(s: State, r: nat, rejected: seq<int>)
    requires Inv(s) && r in s.rooms
    ensures Inv(SetRoom(s, r, s.rooms[r].(rejected := rejected)))
  {
    assert RoomOk(s, r, {});
    OneRoomKeeps(s, SetRoom(s, r, s.rooms[r].(rejected := rejected)), r);
  }

  lemma KickKeeps(s: State, r: nat, id: int)
    requires Inv(s) && r in s.rooms
    ensures Inv(DoKick(s, r, id))
  {
    var x := FindPlayer(s, id);
    if !(id == 0 || x !in s.players || s.rooms[r].luaRefs > 0 || s.players[x].roomId != r) {
      LeaveKeeps(s, x);
      LeaveUnlists(s, x);
      var s1 := RemovePlayer(s, r, x, s.players[x]);
      LobbyAddKeeps(s1, x);
      var s2 := LobbyAdd(s1, x);
      if r in s2.rooms {
        RejectsKeep(s2, r, s2.rooms[r].rejected + [id]);
      }
    }
  }

  // ---------------------------------------------------------------- robots

  lemma AddRobotKeeps(s: State, r: nat, c: int)
    requires Inv(s) && r in s.rooms && SenderInRoom(s, c)
    ensures Inv(DoAddRobot(s, r, c))
  {
    var x := s.nextConn;
    var u := CreateRobot(s);
    RegisterKeeps(s, Player(s.nextRobot, Robot, 0, 0));
    if !(c != s.rooms[r].owner || IsFull(s.rooms[r])) {
      assert PlayerOk(s, c) && RoomOk(u, r, {}) && PlayerOk(u, x);
      assert x !in s.rooms[r].npcs by {
        assert RoomOk(s, r, {});
      }
      if s.nextRobot !in u.rooms[r].rejected && u.rooms[r].luaRefs <= 0 {
        SeatRoom(u, r, x);
        SitKeeps(u, r, Joined(u.rooms[r], x), x);
        RobotShape(s, r, x);
        assert x !in u.lobby;
      }
    }
  }

  lemma RobotShape(s: State, r: nat, x: int)
    requires r in s.rooms && x == s.nextConn && s.rooms[r].owner != 0 && x !in s.lobby
    requires s.nextRobot !in s.rooms[r].rejected && !IsFull(s.rooms[r]) && s.rooms[r].luaRefs <= 0
    ensures AddPlayer(CreateRobot(s), r, x) == Sit(CreateRobot(s), r, Joined(s.rooms[r], x), x)
  {
    var u := CreateRobot(s);
    assert u.lobby - {x} == u.lobby;
  }

  lemma AddNpcKeeps(s: State, r: nat)
    requires Inv(s) && r in s.rooms
    ensures Inv(DoAddNpc(s, r))
  {
    var x := s.nextConn;
    var u := CreateRobot(s);
    RegisterKeeps(s, Player(s.nextRobot, Robot, 0, 0));
    var room := u.rooms[r];
    var room' := room.(players := room.players + [x], npcs := room.npcs + {x});
    assert RoomOk(u, r, {}) && RoomOk(s, r, {});
    AppendMembers(room.players, x);
    SeatedAppend(room.players, x, room'.npcs);
    SeatedNewNpc(room.players, room.npcs, x);
    assert u.lobby - {x} == u.lobby;
    NpcRoom(u, r, x);
    SitKeeps(u, r, room', x);
    assert DoAddNpc(s, r) == Sit(u, r, room', x);
  }

  lemma NpcRoom(s: State, r: nat, x: int)
    requires r in s.rooms && RoomOk(s, r, {}) && x in s.players && s.players[x].id < 0 && s.players[x].sock == 0
    requires x < s.nextConn && x !in s.rooms[r].players && x !in s.rooms[r].observers
    ensures var room := s.rooms[r];
      var room' := room.(players := room.players + [x], npcs := room.npcs + {x});
      RoomOk(Sit(s, r, room', x), r, {})
  {
    var room := s.rooms[r];
    var room' := room.(players := room.players + [x], npcs := room.npcs + {x});
    var t := Sit(s, r, room', x);
    AppendMembers(room.players, x);
    SeatedAppend(room.players, x, room'.npcs);
    SeatedNewNpc(room.players, room.npcs, x);
    if IsAbandoned(t, room'.players) {
      assert forall d :: d in room.players ==> d in room'.players;
      assert IsAbandoned(s, room.players);
    }
  }

  lemma RemoveNpcKeeps(s: State, r: nat, c: int)
    requires Inv(s) && r in s.rooms && c in s.players && c != s.rooms[r].owner && !Strands(s, r, c)
    ensures Inv(DoRemoveNpc(s, r, c))
  {
    if c in s.rooms[r].players {
      EraseSeatKeepsAll(s, r, c);
      var u := WithoutSeat(s, r, c);
      assert PlayerOk(s, c);
      hide Inv;
      UnseatedKeeps(u, c);
    }
  }

  /** Room `r` without member `c`. */
  function WithoutSeat(s: State, r: nat, c: int): State
    requires r in s.rooms
  {
    SetRoom(s, r, s.rooms[r].(players := Erase(s.rooms[r].players, c)))
  }

  lemma EraseSeatKeepsAll(s: State, r: nat, c: int)
    requires Inv(s) && r in s.rooms && c in s.players && c in s.rooms[r].players
    requires c != s.rooms[r].owner && !Strands(s, r, c)
    ensures var u := WithoutSeat(s, r, c);
      Inv(u) && forall q :: q in u.rooms ==> c !in u.rooms[q].players && c !in u.rooms[q].observers
  {
    var room := s.rooms[r];
    var u := WithoutSeat(s, r, c);
    assert RoomOk(s, r, {}) && PlayerOk(s, c);
    OnlyInOwnRoom(s, c, 0, {}, 0);
    EraseSeatKeeps(s, r, c, 0, {});
    EraseMembers(room.players, c);
    hide Erase;
    assert forall d :: Connected(u, d) == Connected(s, d);
    assert forall q :: Queued(u, q) == Queued(s, q);
    LaxIsInv(u, r);
  }

  /** Destroying a player whom no room lists is losing the socket first and being destroyed then. */
  lemma UnseatedDeletion(s: State, c: int)
    requires c in s.players
    requires forall q :: q in s.rooms ==> c !in s.rooms[q].players && c !in s.rooms[q].observers
    ensures DeletePlayer(s, c) == DeletePlayer(SetSocket(s, c, 0), c)
  {
    assert s.players - {c} == SetSocket(s, c, 0).players - {c};
  }

  lemma UnseatedKeeps(s: State, c: int)
    requires Inv(s) && c in s.players
    requires forall q :: q in s.rooms ==> c !in s.rooms[q].players && c !in s.rooms[q].observers
    ensures Inv(DeletePlayer(s, c))
  {
    var w := SetSocket(s, c, 0);
    UnseatedDeletion(s, c);
    SocketPeople(s, c, 0);
    QuietKeeps(s, w);
    hide Inv;
    DeleteGone(w, c);
  }

  // ---------------------------------------------------------------- games

  lemma ChangeRoomKeeps(s: State, r: nat, c: int, capacity: int)
    requires Inv(s) && r in s.rooms && Connected(s, c)
    ensures Inv(DoChangeRoom(s, r, c, capacity))
  {
    var room := s.rooms[r];
    assert RoomOk(s, r, {}) && PlayerOk(s, c);
    if !(c != room.owner || capacity < |room.players|) {
      SeatedBound(room.players, room.npcs);
      OneRoomKeeps(s, DoChangeRoom(s, r, c, capacity), r);
    }
  }

  lemma StartKeeps(s: State, r: nat)
    requires Inv(s) && r in s.rooms
    ensures Inv(DoStart(s, r))
  {
    assert RoomOk(s, r, {});
    if DoStart(s, r) != s {
      OneRoomKeeps(s, DoStart(s, r), r);
    }
  }

  lemma {:induction false} GameOverKeeps(s: State, members: seq<int>)
    requires Inv(s)
    ensures Inv(DoGameOver(s, members))
    decreases |members|
  {
    if members != [] {
      var c := members[0];
      if c in s.players && s.players[c].id > 0 && s.players[c].status == Trust {
        StatusKeeps(s, c, Online);
        GameOverKeeps(SetStatus(s, c, Online), members[1..]);
      } else {
        GameOverKeeps(s, members[1..]);
      }
    }
  }

  lemma LuaReleaseKeeps(s: State, r: nat)
    requires Inv(s) && r in s.rooms
    ensures Inv(DoLuaRelease(s, r))
  {
    var t := DoLuaRelease(s, r);
    assert RoomOk(s, r, {});
    if s.rooms[r].luaRefs - 1 <= 0 {
      assert Check(r, NoRefCount) in t.checks;
    }
    assert RoomOk(t, r, {});
    OneRoomKeeps(s, t, r);
  }

  // ---------------------------------------------------------------- reclaiming

  /** What destroying a socketless player does to everybody else. */
  ghost predicate Spares(s: State, t: State, c: int)
    requires c in s.players
  {
    var r := s.players[c].roomId;
    && t.rooms.Keys == s.rooms.Keys
    && (forall q :: q in s.rooms && q != r ==> t.rooms[q] == s.rooms[q])
    && (r in s.rooms ==>
          var room := s.rooms[r];
          && t.rooms[r].luaRefs == room.luaRefs && t.rooms[r].npcs == room.npcs
          && t.rooms[r].players ==
             (if c !in room.observers && room.luaRefs <= 0 then Erase(room.players, c) else room.players))
    && c !in t.players
    && (forall d :: d in s.players && d != c ==> d in t.players && t.players[d] == s.players[d])
    && (forall d :: d in t.players ==> d in s.players || s.nextConn <= d)
    && s.nextConn <= t.nextConn
  }

  lemma RemoveSpares(s: State, c: int)
    requires PeopleOk(s) && c in s.players && s.players[c].roomId in s.rooms
    ensures var t := RemovePlayer(s, s.players[c].roomId, c, s.players[c]);
      && (forall d :: d in s.players && d != c ==> d in t.players && t.players[d] == s.players[d])
      && (forall d :: d in t.players ==> d in s.players || s.nextConn <= d)
      && s.nextConn <= t.nextConn
  {
    var p := s.players[c];
    var r := p.roomId;
    var room := s.rooms[r];
    assert PlayerOk(s, c);
    assert forall d :: d in s.players ==> PlayerOk(s, d);
    if c !in room.observers && c in room.players {
      if room.luaRefs <= 0 {
        AfterLeaveShape(SetRoom(s, r, room.(players := Erase(room.players, c))), r, c);
      } else {
        RunAwayMap(s, c);
        RunAwayConnected(s, c);
        AfterLeaveShape(RunAway(s, c, p), r, c);
      }
    }
  }

  lemma DeleteSpares(s: State, c: int)
    requires PeopleOk(s) && c in s.players && s.players[c].sock == 0
    requires s.players[c].roomId in s.rooms ==> s.players[c].roomId != 0
    ensures Spares(s, DeletePlayer(s, c), c)
  {
    var r := s.players[c].roomId;
    var u := Unmap(s, c);
    assert PlayerOk(s, c);
    DeleteUnfold(s, c);
    if r in s.rooms {
      assert forall d :: d in u.players ==> PlayerOk(s, d) && PlayerOk(u, d);
      assert forall d :: Connected(u, d) ==> PlayerOk(u, d);
      RemoveSpares(u, c);
      RemoveShape(u, c);
    }
  }

  ghost predicate Doomed(s: State, r: nat, gone: seq<int>) {
    && r in s.rooms
    && Distinct(gone)
    && forall c :: c in gone ==>
         c in s.players && s.players[c].sock == 0 && s.players[c].roomId == r && c in s.rooms[r].players
  }

  lemma DoomedTail(s: State, t: State, r: nat, gone: seq<int>)
    requires Doomed(s, r, gone) && gone != [] && Spares(s, t, gone[0])
    requires Distinct(s.rooms[r].players)
    ensures Doomed(t, r, gone[1..])
    ensures gone[0] !in gone[1..]
    ensures (set d | d in gone) == {gone[0]} + set d | d in gone[1..]
  {
    assert gone[0] in gone && forall d :: d in gone <==> d == gone[0] || d in gone[1..];
    EraseMembers(s.rooms[r].players, gone[0]);
  }

  /** What a room looks like while `_checkAbandoned(NoRefCount)` throws members out of it. */
  ghost predicate Sweeping(s: State, r: nat, dead: set<int>) {
    r in s.rooms && InvLax(s, r, dead, r) && OwnerOk(s, s.rooms[r], dead)
  }

  lemma SweepOne(s: State, r: nat, c: int, dead: set<int>) returns (dead': set<int>)
    requires Sweeping(s, r, dead) && c in s.players && s.players[c].sock == 0
    requires s.players[c].roomId == r && c in s.rooms[r].players
    ensures Sweeping(DeletePlayer(s, c), r, dead')
    ensures dead <= dead' <= dead + {c}
  {
    dead' := if Playing(s, c) then dead + {c} else dead;
    assert DeadIn(r, r, dead) == dead;
    DeleteKeeps(s, c, r, dead);
    assert r in DeletePlayer(s, c).rooms by {
      assert RoomBasics(s, r, DeadIn(r, r, dead));
      DeleteSpares(s, c);
    }
    SweepingFrom(DeletePlayer(s, c), r, dead');
  }

  lemma SweepingFrom(s: State, r: nat, dead: set<int>)
    requires r in s.rooms && InvLax(s, r, dead, 0)
    ensures Sweeping(s, r, dead)
  {
    assert RoomBasics(s, r, DeadIn(r, r, dead));
    assert RoomOk(s, r, DeadIn(r, r, dead));
  }

  /** What the whole sweep leaves alone. */
  ghost predicate Swept(s: State, t: State, r: nat, gone: set<int>)
    requires r in s.rooms
  {
    && t.rooms.Keys == s.rooms.Keys
    && (forall q :: q in s.rooms && q != r ==> t.rooms[q] == s.rooms[q])
    && t.rooms[r].luaRefs == s.rooms[r].luaRefs
    && (forall c :: c in t.rooms[r].players ==> c in s.rooms[r].players)
    && (forall c :: c in s.rooms[r].players && c !in gone ==> c in t.rooms[r].players)
    && (forall c :: c in s.players && c !in gone ==> c in t.players && t.players[c] == s.players[c])
    && (forall c :: c in t.players ==> c in s.players || s.nextConn <= c)
    && (forall c :: c in gone ==> c !in t.players)
    && s.nextConn <= t.nextConn
  }

  lemma SweptCompose(s: State, u: State, t: State, r: nat, c: int, rest: set<int>)
    requires r in s.rooms && c in s.players && c < s.nextConn && s.players[c].roomId == r && Spares(s, u, c)
    requires Distinct(s.rooms[r].players)
    requires Swept(u, t, r, rest)
    ensures Swept(s, t, r, {c} + rest)
  {
    EraseMembers(s.rooms[r].players, c);
  }

  lemma {:induction false} SweepAll(s: State, r: nat, gone: seq<int>, dead: set<int>) returns (dead': set<int>)
    requires Sweeping(s, r, dead) && Doomed(s, r, gone)
    ensures Sweeping(DeleteAll(s, gone), r, dead')
    ensures dead' <= dead + set c | c in gone
    ensures Swept(s, DeleteAll(s, gone), r, set c | c in gone)
    decreases |gone|
  {
    if gone == [] {
      dead' := dead;
    } else {
      var c := gone[0];
      assert c in gone;
      var u := DeletePlayer(s, c);
      var mid := SweepOne(s, r, c, dead);
      assert RoomBasics(s, r, dead);
      DeleteSpares(s, c);
      DoomedTail(s, u, r, gone);
      assert PlayerOk(s, c);
      dead' := SweepAll(u, r, gone[1..], mid);
      SweptCompose(s, u, DeleteAll(u, gone[1..]), r, c, set d | d in gone[1..]);
    }
  }

  lemma SweepCore(s: State, r: nat) returns (dead: set<int>)
    requires r in s.rooms && InvLax(s, 0, {}, r) && OwnerOk(s, s.rooms[r], {})
    ensures var gone := Absent(s, s.rooms[r].players);
      var u := DeleteAll(s, gone);
      Sweeping(u, r, dead) && Swept(s, u, r, set c | c in gone) && dead <= set c | c in gone
  {
    assert DeadIn(r, 0, {}) == {};
    assert RoomBasics(s, r, DeadIn(r, 0, {}));
    StartSweep(s, r);
    dead := SweepAll(s, r, Absent(s, s.rooms[r].players), {});
  }

  lemma SweepKeeps(s: State, r: nat)
    requires r in s.rooms && InvLax(s, 0, {}, r) && OwnerOk(s, s.rooms[r], {})
    ensures var t := SweepAbsent(s, r);
      r in t.rooms && InvLax(t, 0, {}, r) && OwnerOk(t, t.rooms[r], {})
  {
    var gone := Absent(s, s.rooms[r].players);
    var dead := SweepCore(s, r);
    EndSweep(DeleteAll(s, gone), r, dead, set c | c in gone);
  }

  /** The members a sweep keeps are exactly the connected ones. */
  lemma SweepShape(s: State, r: nat)
    requires r in s.rooms && InvLax(s, 0, {}, r) && OwnerOk(s, s.rooms[r], {})
    ensures var t := SweepAbsent(s, r);
      && t.rooms.Keys == s.rooms.Keys && t.rooms[r].luaRefs == s.rooms[r].luaRefs
      && (forall q :: q in s.rooms && q != r ==> t.rooms[q] == s.rooms[q])
      && (forall c :: c in t.rooms[r].players <==> c in s.rooms[r].players && Connected(s, c))
      && (forall c :: Connected(s, c) ==> Connected(t, c))
  {
    var dead := SweepCore(s, r);
    SweptShape(s, r);
  }

  lemma SweptShape(s: State, r: nat)
    requires r in s.rooms
    requires var gone := Absent(s, s.rooms[r].players);
      Swept(s, DeleteAll(s, gone), r, set c | c in gone)
    ensures var t := SweepAbsent(s, r);
      && t.rooms.Keys == s.rooms.Keys && t.rooms[r].luaRefs == s.rooms[r].luaRefs
      && (forall q :: q in s.rooms && q != r ==> t.rooms[q] == s.rooms[q])
      && (forall c :: c in t.rooms[r].players <==> c in s.rooms[r].players && Connected(s, c))
      && (forall c :: Connected(s, c) ==> Connected(t, c))
  {
    var gone := Absent(s, s.rooms[r].players);
    var u := DeleteAll(s, gone);
    var out := set c | c in gone;
    hide Absent, Without, DeleteAll;
    AbsentMembers(s, s.rooms[r].players);
    WithoutMembers(u.rooms[r].players, out);
    assert forall c :: Connected(s, c) ==> c !in out;
  }

  lemma StartSweep(s: State, r: nat)
    requires r in s.rooms && InvLax(s, 0, {}, r) && OwnerOk(s, s.rooms[r], {})
    requires forall c :: c in s.rooms[r].players ==> Placed(s, r, c, {})
    ensures Sweeping(s, r, {})
    ensures Distinct(s.rooms[r].players) ==> Doomed(s, r, Absent(s, s.rooms[r].players))
  {
    AbsentMembers(s, s.rooms[r].players);
    assert forall q :: DeadIn(q, r, {}) == DeadIn(q, 0, {}) == {};
  }

  lemma EndSweep(s: State, r: nat, dead: set<int>, gone: set<int>)
    requires Sweeping(s, r, dead) && dead <= gone
    requires forall c :: c in gone ==> c !in s.players
    ensures var room := s.rooms[r];
      var t := SetRoom(s, r, room.(players := Without(room.players, gone)));
      InvLax(t, 0, {}, r) && OwnerOk(t, t.rooms[r], {})
  {
    var room := s.rooms[r];
    var t := SetRoom(s, r, room.(players := Without(room.players, gone)));
    WithoutMembers(room.players, gone);
    WithoutSeated(room.players, gone, room.npcs);
    assert RoomBasics(s, r, DeadIn(r, r, dead));
    assert RoomBasics(t, r, {});
    PeopleFrame(s, t);
    forall q | q in t.rooms && q != r
      ensures RoomOk(t, q, {})
    {
      assert RoomOk(s, q, DeadIn(q, r, dead));
      RoomFrame(s, t, q, {});
    }
  }

  lemma {:induction false} SendHomeKeeps(s: State, members: seq<int>)
    requires Inv(s)
    requires forall c :: c in members && c in s.players ==> s.players[c].roomId !in s.rooms
    ensures Inv(SendHome(s, members)) && SendHome(s, members).rooms == s.rooms
    decreases |members|
  {
    if members != [] {
      var c := members[0];
      assert c in members && forall d :: d in members[1..] ==> d in members;
      var t := if c !in s.players then s
               else if s.players[c].sock != 0 then LobbyAdd(s, c)
               else DeletePlayer(s, c);
      if c in s.players {
        HomeOne(s, c);
      }
      SendHomeKeeps(t, members[1..]);
    }
  }

  lemma NoRoomZero(s: State)
    requires Inv(s)
    ensures 0 !in s.rooms
  {
    assert forall r :: r in s.rooms ==> RoomBasics(s, r, DeadIn(r, 0, {})) && r != 0;
  }

  lemma HomeOne(s: State, c: int)
    requires Inv(s) && c in s.players && s.players[c].roomId !in s.rooms
    ensures var t := if s.players[c].sock != 0 then LobbyAdd(s, c) else DeletePlayer(s, c);
      && Inv(t) && t.rooms == s.rooms
      && (forall d :: d in t.players ==> d in s.players && (t.players[d] == s.players[d] || t.players[d].roomId !in s.rooms))
  {
    assert PlayerOk(s, c);
    InNoRoom(s, c);
    if s.players[c].sock != 0 {
      LobbyAddKeeps(s, c);
      NoRoomZero(s);
    } else {
      DeleteGone(s, c);
      DeleteUnfold(s, c);
    }
  }

  lemma DestroyKeeps(s: State, r: nat)
    requires r in s.rooms && InvLax(s, 0, {}, r)
    ensures Inv(DestroyRoom(s, r))
    ensures DestroyRoom(s, r).rooms == s.rooms - {r}
  {
    var u := s.(rooms := s.rooms - {r});
    assert RoomBasics(s, r, {});
    PeopleFrame(s, u);
    RoomsFrame(s, u, 0, {}, r, r, 0);
    SendHomeKeeps(u, s.rooms[r].players + s.rooms[r].observers);
  }

  lemma CheckKeeps(s: State, r: nat, reason: Reason)
    requires r in s.rooms && InvLax(s, 0, {}, r) && OwnerOk(s, s.rooms[r], {})
    ensures Inv(CheckAbandoned(s, r, reason))
  {
    var t := if reason == NoRefCount then SweepAbsent(s, r) else s;
    if reason == NoRefCount {
      SweepKeeps(s, r);
    }
    if !IsAbandoned(t, t.rooms[r].players) || t.rooms[r].luaRefs > 0 {
      assert RoomBasics(t, r, DeadIn(r, 0, {}));
      LaxIsInv(t, r);
    } else {
      DestroyKeeps(t, r);
    }
  }

  lemma PopKeeps(s: State)
    requires Inv(s) && s.checks != []
    ensures var t := s.(checks := s.checks[1..]);
      InvLax(t, 0, {}, s.checks[0].room)
  {
    var t := s.(checks := s.checks[1..]);
    PeopleFrame(s, t);
    forall r | r in t.rooms
      ensures RoomBasics(t, r, {})
      ensures r != s.checks[0].room ==> RoomOk(t, r, {})
    {
      assert RoomOk(s, r, {});
      if r != s.checks[0].room && Queued(s, r) {
        var k :| k in s.checks && k.room == r;
        assert k in t.checks;
      }
    }
  }

  lemma RunCheckKeeps(s: State)
    requires Inv(s) && s.checks != []
    ensures Inv(DoRunCheck(s))
  {
    var t := s.(checks := s.checks[1..]);
    var k := s.checks[0];
    PopKeeps(s);
    if k.room in s.rooms {
      assert RoomOk(s, k.room, {});
      CheckKeeps(t, k.room, k.reason);
    } else {
      LaxIsInv(t, k.room);
    }
  }

  lemma {:induction false} DeleteIdle(s: State, gone: seq<int>)
    requires Inv(s)
    requires Distinct(gone) && forall c :: c in gone ==> c in s.players && s.players[c].sock == 0 && s.players[c].roomId == 0
    ensures Inv(DeleteAll(s, gone)) && DeleteAll(s, gone).rooms == s.rooms
    decreases |gone|
  {
    if gone != [] {
      var c := gone[0];
      assert c in gone && forall d :: d in gone[1..] ==> d in gone && d != c;
      NoRoomZero(s);
      assert PlayerOk(s, c);
      DeleteGone(s, c);
      DeleteUnfold(s, c);
      DeleteIdle(DeletePlayer(s, c), gone[1..]);
    }
  }

  lemma SweepLobbyKeeps(s: State, gone: seq<int>)
    requires Inv(s) && Distinct(gone)
    requires forall c :: c in gone ==> c in s.lobby && !Connected(s, c)
    ensures Inv(DoSweepLobby(s, gone)) && DoSweepLobby(s, gone).rooms == s.rooms
  {
    DeleteIdle(s, gone);
    LobbyFrame(DeleteAll(s, gone), DoSweepLobby(s, gone), 0, {});
  }

  // ---------------------------------------------------------------- every step, every run

  lemma PostKeeps(s: State, r: nat)
    requires Inv(s)
    ensures Inv(s.(checks := s.checks + [Check(r, NoHuman)]))
  {
    var t := s.(checks := s.checks + [Check(r, NoHuman)]);
    PeopleFrame(s, t);
    QuietKeeps(s, t);
  }

  lemma ConnectKeeps(s: State, sock: nat)
    requires Inv(s) && sock != 0 && sock !in s.handlers
    ensures Inv(s.(handlers := s.handlers[sock := Early]))
  {
    var t := s.(handlers := s.handlers[sock := Early]);
    assert forall d :: d in t.players ==> PlayerOk(s, d) && PlayerOk(t, d);
    QuietKeeps(s, t);
  }

  lemma SessionStepKeeps(s: State, step: Step)
    requires Inv(s)
    ensures Inv(SessionStep(s, step))
  {
    if SessionStep(s, step) != s {
      match step
      case Connect(sock) => ConnectKeeps(s, sock);
      case Login(sock, id) => LoginKeeps(s, sock, id);
      case SocketGone(sock) => SocketGoneKeeps(s, sock);
    }
  }

  lemma LobbyStepKeeps(s: State, step: Step)
    requires Inv(s)
    ensures Inv(LobbyStep(s, step))
  {
    if LobbyStep(s, step) != s {
      match step
      case CreateRoom(c, capacity) => CreateRoomKeeps(s, c, ToSize(capacity));
      case EnterRoom(c, r) => EnterKeeps(s, r, c);
      case ObserveRoom(c, r) => ObserveKeeps(s, r, c);
    }
  }

  lemma RoomStepKeeps(s: State, step: Step)
    requires Inv(s)
    ensures Inv(RoomStep(s, step))
  {
    if RoomStep(s, step) != s {
      match step
      case QuitRoom(c) => QuitKeeps(s, c);
      case AddRobot(c) => AddRobotKeeps(s, s.players[c].roomId, c);
      case KickPlayer(c, id) => KickKeeps(s, s.players[c].roomId, id);
      case ToggleTrust(c) => StatusKeeps(s, c, if s.players[c].status == Trust then Online else Trust);
      case ChangeRoom(c, capacity) => ChangeRoomKeeps(s, s.players[c].roomId, c, capacity);
      case StartGame(c) => StartKeeps(s, s.players[c].roomId);
    }
  }

  lemma LuaStepKeeps(s: State, step: Step)
    requires Inv(s)
    ensures Inv(LuaStep(s, step))
  {
    if LuaStep(s, step) != s {
      match step
      case GameOver(r) => GameOverKeeps(s, s.rooms[r].players);
      case LuaRelease(r) => LuaReleaseKeeps(s, r);
      case AddNpc(r) => AddNpcKeeps(s, r);
      case RemoveNpc(r, c) => RemoveNpcKeeps(s, r, c);
    }
  }

  lemma HouseStepKeeps(s: State, step: Step)
    requires Inv(s)
    ensures Inv(HouseStep(s, step))
  {
    if HouseStep(s, step) != s {
      match step
      case ForgetReject(r, id) => RejectsKeep(s, r, Erase(s.rooms[r].rejected, id));
      case PostCheck(r) => PostKeeps(s, r);
      case RunCheck => RunCheckKeeps(s);
      case SweepLobby(gone) =>
        var listed, idle := set c | c in gone, set c | c in s.lobby && !Connected(s, c);
        assert listed == idle && forall c :: c in gone ==> c in listed;
        SweepLobbyKeeps(s, gone);
    }
  }

  /** Every event the server can receive keeps the invariant. */
  lemma StepKeeps(s: State, step: Step)
    requires Inv(s)
    ensures Inv(Next(s, step))
  {
    SessionStepKeeps(s, step);
    LobbyStepKeeps(s, step);
    RoomStepKeeps(s, step);
    LuaStepKeeps(s, step);
    HouseStepKeeps(s, step);
  }

  /** Every run does. */
  lemma {:induction false} ReachKeeps(steps: seq<Step>)
    ensures Inv(Reach(steps))
    decreases |steps|
  {
    if steps != [] {
      ReachKeeps(steps[..|steps| - 1]);
      StepKeeps(Reach(steps[..|steps| - 1]), steps[|steps| - 1]);
    }
  }

  /** A state some run ends in. */
  ghost predicate Reachable(s: State) {
    exists steps :: Reach(steps) == s
  }

  lemma ReachableKeeps(s: State)
    requires Reachable(s)
    ensures Inv(s)
  {
    var steps :| Reach(steps) == s;
    ReachKeeps(steps);
  }
}
