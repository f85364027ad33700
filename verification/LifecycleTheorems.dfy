/** What a reader of the server may rely on, over whole runs. */
module LifecycleTheorems {
  import opened Basics
  import opened Lifecycle
  import opened LifecycleInvariant
  import opened LifecycleSteps
  import opened LifecycleBounds

  // ---------------------------------------------------------------- one place per connection

  /** A place that can list a connection: the lobby, a seat or an observer's chair. */
  datatype Place = InLobby | Seat(room: nat, index: nat) | Chair(room: nat, index: nat)

  predicate ListedAt(s: State, c: int, place: Place) {
    match place
    case InLobby => c in s.lobby
    case Seat(r, i) => r in s.rooms && i < |s.rooms[r].players| && s.rooms[r].players[i] == c
    case Chair(r, i) => r in s.rooms && i < |s.rooms[r].observers| && s.rooms[r].observers[i] == c
  }

  function PlaceRoom(place: Place): nat {
    if place.InLobby? then 0 else place.room
  }

  /** In every reachable state a connection is listed in at most one place, it is a live player's, and
      that player's `roomId` names the place. */
  lemma ListedAtMostOnce(s: State, c: int, one: Place, other: Place)
    requires Reachable(s)
    requires ListedAt(s, c, one)
    ensures c in s.players && s.players[c].roomId == PlaceRoom(one)
    ensures ListedAt(s, c, other) ==> other == one
  {
    ReachableKeeps(s);
    ListedNames(s, c, one);
    if ListedAt(s, c, other) {
      ListedNames(s, c, other);
      NoRoomZero(s);
      if !one.InLobby? {
        assert RoomOk(s, one.room, {});
        assert one.Seat? ==> c in s.rooms[one.room].players;
        assert other.Seat? ==> c in s.rooms[one.room].players;
        assert one.index != other.index ==> one.Seat? != other.Seat?;
      }
    }
  }

  lemma ListedNames(s: State, c: int, place: Place)
    requires Inv(s) && ListedAt(s, c, place)
    ensures c in s.players && s.players[c].roomId == PlaceRoom(place)
  {
    match place
    case InLobby =>
    case Seat(r, i) =>
      assert RoomOk(s, r, {}) && c in s.rooms[r].players;
    case Chair(r, i) =>
      assert RoomOk(s, r, {}) && c in s.rooms[r].observers;
  }

  // ---------------------------------------------------------------- reclaiming rooms

  /** A room that can hold anybody, with nobody connected and no game running, is about to be checked. */
  lemma AbandonedRoomIsQueued(s: State, r: nat)
    requires Reachable(s)
    requires r in s.rooms
    requires var room := s.rooms[r];
      room.capacity > 0 && room.luaRefs <= 0 && IsAbandoned(s, room.players)
    ensures Queued(s, r)
  {
    ReachableKeeps(s);
    assert RoomOk(s, r, {});
  }

  /** The bound on the capacity is needed, and it is all that is needed: no check of a new room is queued, and
      the room is abandoned from the start exactly when its capacity, as stored, is 0. */
  lemma NewRoomIsReclaimable(s: State, c: int, capacity: int)
    requires Reachable(s)
    requires SenderInLobby(s, c) && capacity != -1
    ensures var t := Next(s, CreateRoom(c, capacity));
      && s.nextRoom in t.rooms && t.rooms[s.nextRoom].luaRefs <= 0
      && t.checks == s.checks && !Queued(t, s.nextRoom)
      && (IsAbandoned(t, t.rooms[s.nextRoom].players) && !Queued(t, s.nextRoom)
          <==> capacity % 0x1_0000_0000_0000_0000 == 0)
  {
    hide Reachable;
    ReachableKeeps(s);
    NothingQueuedAhead(s);
    var r := s.nextRoom;
    var u := SetRoom(s, r, Room([], [], 0, ToSize(capacity), 0, [], {})).(nextRoom := r + 1);
    assert PlayerOk(s, c);
    NoRoomZero(s);
    EnterShape(u, r, c);
    var t := DoCreateRoom(s, c, ToSize(capacity));
    assert t.rooms[r].players == if ToSize(capacity) > 0 then [] + [c] else [];
    assert ToSize(capacity) > 0 ==> c in t.rooms[r].players;
    assert Connected(t, c);
  }

  /** No check names a room that does not exist yet. */
  lemma NothingQueuedAhead(s: State)
    requires Reachable(s)
    ensures forall k :: k in s.checks ==> k.room < s.nextRoom
  {
    hide Reachable;
    ReachableTame(s);
  }

  lemma CheckRooms(s: State, r: nat, reason: Reason)
    requires r in s.rooms && InvLax(s, 0, {}, r) && OwnerOk(s, s.rooms[r], {})
    ensures var t := CheckAbandoned(s, r, reason);
      if IsAbandoned(s, s.rooms[r].players) && s.rooms[r].luaRefs <= 0
      then t.rooms.Keys == s.rooms.Keys - {r}
      else t.rooms.Keys == s.rooms.Keys
    ensures !(IsAbandoned(s, s.rooms[r].players) && s.rooms[r].luaRefs <= 0) && reason == NoRefCount ==>
              CheckAbandoned(s, r, reason) == SweepAbsent(s, r)
  {
    var u := if reason == NoRefCount then SweepAbsent(s, r) else s;
    if reason == NoRefCount {
      SweepKeeps(s, r);
      SweepShape(s, r);
    }
    SameAbandoned(s, u, r);
    if IsAbandoned(u, u.rooms[r].players) && u.rooms[r].luaRefs <= 0 {
      DestroyKeeps(u, r);
    }
  }

  lemma RunCheckRooms(s: State)
    requires Inv(s) && s.checks != [] && s.checks[0].room in s.rooms
    ensures var r := s.checks[0].room;
      DoRunCheck(s).rooms.Keys ==
      if IsAbandoned(s, s.rooms[r].players) && s.rooms[r].luaRefs <= 0 then s.rooms.Keys - {r} else s.rooms.Keys
  {
    var t := s.(checks := s.checks[1..]);
    PopChecked(s);
    CheckRooms(t, s.checks[0].room, s.checks[0].reason);
    assert forall c :: Connected(t, c) == Connected(s, c);
  }

  /** A check removes its room exactly when, as it runs, nobody in it is connected and no game runs; it
      removes no other. */
  lemma CheckRemovesExactlyTheDead(s: State)
    requires Reachable(s)
    requires s.checks != [] && s.checks[0].room in s.rooms
    ensures var r := s.checks[0].room;
      DoRunCheck(s).rooms.Keys ==
      if IsAbandoned(s, s.rooms[r].players) && s.rooms[r].luaRefs <= 0 then s.rooms.Keys - {r} else s.rooms.Keys
  {
    ReachableKeeps(s);
    RunCheckRooms(s);
  }

  lemma PopChecked(s: State)
    requires Inv(s) && s.checks != [] && s.checks[0].room in s.rooms
    ensures var t := s.(checks := s.checks[1..]);
      var r := s.checks[0].room;
      InvLax(t, 0, {}, r) && OwnerOk(t, t.rooms[r], {})
  {
    PopKeeps(s);
    assert RoomOk(s, s.checks[0].room, {});
  }

  lemma SameAbandoned(s: State, u: State, r: nat)
    requires r in s.rooms && r in u.rooms
    requires u == s || ((forall c :: c in u.rooms[r].players <==> c in s.rooms[r].players && Connected(s, c))
                        && forall c :: Connected(s, c) ==> Connected(u, c))
    ensures IsAbandoned(u, u.rooms[r].players) <==> IsAbandoned(s, s.rooms[r].players)
  {
    if !IsAbandoned(s, s.rooms[r].players) {
      var c :| c in s.rooms[r].players && Connected(s, c);
      assert c in u.rooms[r].players && Connected(u, c);
    }
  }

  lemma AfterLeaveRooms(s: State, r: nat, c: int)
    requires r in s.rooms
    ensures AfterLeave(s, r, c).rooms.Keys == s.rooms.Keys
  {
  }

  lemma RemoveRooms(s: State, r: nat, c: int, p: Player)
    requires r in s.rooms
    ensures RemovePlayer(s, r, c, p).rooms.Keys == s.rooms.Keys
  {
    var room := s.rooms[r];
    if room.luaRefs <= 0 {
      AfterLeaveRooms(SetRoom(s, r, room.(players := Erase(room.players, c))), r, c);
    } else {
      AfterLeaveRooms(RunAway(s, c, p), r, c);
    }
  }

  lemma DeleteRooms(s: State, c: int)
    requires c in s.players
    ensures DeletePlayer(s, c).rooms.Keys == s.rooms.Keys
  {
    var p := s.players[c];
    if p.roomId != 0 && p.roomId in s.rooms {
      RemoveRooms(Unregister(s, c, p), p.roomId, c, p);
    }
  }

  lemma {:induction false} DeleteAllRooms(s: State, gone: seq<int>)
    ensures DeleteAll(s, gone).rooms.Keys == s.rooms.Keys
    decreases |gone|
  {
    if gone != [] {
      if gone[0] in s.players {
        DeleteRooms(s, gone[0]);
        DeleteAllRooms(DeletePlayer(s, gone[0]), gone[1..]);
      } else {
        DeleteAllRooms(s, gone[1..]);
      }
    }
  }

  lemma {:induction false} GameOverRooms(s: State, members: seq<int>)
    ensures DoGameOver(s, members).rooms == s.rooms
    ensures DoGameOver(s, members).handlers == s.handlers
    decreases |members|
  {
    if members != [] {
      var c := members[0];
      GameOverRooms(if c in s.players && s.players[c].id > 0 && s.players[c].status == Trust
                    then SetStatus(s, c, Online) else s, members[1..]);
    }
  }

  lemma SocketGoneRooms(s: State, sock: nat)
    requires sock in s.handlers
    ensures DoSocketGone(s, sock).rooms.Keys == s.rooms.Keys
  {
    var h := s.handlers[sock];
    if h.Session? && h.conn in s.players {
      DeleteRooms(Detach(s, h.conn), h.conn);
    }
  }

  lemma EnterRooms(s: State, r: nat, c: int)
    requires r in s.rooms && c in s.players
    ensures LeaveLobbyFor(AddPlayer(s, r, c), r, c).rooms.Keys == s.rooms.Keys
    ensures LeaveLobbyFor(AddObserver(s, r, c), r, c).rooms.Keys == s.rooms.Keys
  {
    assert AddPlayer(s, r, c).rooms.Keys == s.rooms.Keys;
    assert AddObserver(s, r, c).rooms.Keys == s.rooms.Keys;
    hide AddPlayer, AddObserver;
  }

  lemma LoginRooms(s: State, sock: nat, id: int)
    ensures DoLogin(s, sock, id).rooms == s.rooms
  {
    hide InsideGame, Bind, Release;
  }

  lemma RobotRooms(s: State, r: nat, c: int)
    requires r in s.rooms
    ensures DoAddRobot(s, r, c).rooms.Keys == s.rooms.Keys
    ensures DoAddNpc(s, r).rooms.Keys == s.rooms.Keys
  {
  }

  lemma RemoveNpcRooms(s: State, r: nat, c: int)
    requires r in s.rooms && c in s.players
    ensures DoRemoveNpc(s, r, c).rooms.Keys == s.rooms.Keys
  {
    var u := SetRoom(s, r, s.rooms[r].(players := Erase(s.rooms[r].players, c)));
    DeleteRooms(u, c);
  }

  lemma CreateRooms(s: State, c: int, capacity: nat)
    requires c in s.players
    ensures s.rooms.Keys <= DoCreateRoom(s, c, capacity).rooms.Keys
  {
    var r := s.nextRoom;
    EnterRooms(SetRoom(s, r, Room([], [], 0, capacity, 0, [], {})).(nextRoom := r + 1), r, c);
  }

  lemma LobbyStepRooms(s: State, step: Step)
    ensures s.rooms.Keys <= LobbyStep(s, step).rooms.Keys
  {
    if LobbyStep(s, step) != s {
      match step
      case CreateRoom(c, capacity) => CreateRooms(s, c, ToSize(capacity));
      case EnterRoom(c, r) => EnterRooms(s, r, c);
      case ObserveRoom(c, r) => EnterRooms(s, r, c);
    }
  }

  lemma RoomStepRooms(s: State, step: Step)
    ensures s.rooms.Keys <= RoomStep(s, step).rooms.Keys
  {
    if RoomStep(s, step) != s {
      match step
      case QuitRoom(c) => QuitRooms(s, c);
      case AddRobot(c) => RobotRooms(s, s.players[c].roomId, c);
      case KickPlayer(c, id) => KickRooms(s, s.players[c].roomId, id);
      case ToggleTrust(c) =>
      case ChangeRoom(c, capacity) =>
      case StartGame(c) =>
    }
  }

  lemma LuaStepRooms(s: State, step: Step)
    ensures s.rooms.Keys <= LuaStep(s, step).rooms.Keys
  {
    if LuaStep(s, step) != s {
      match step
      case GameOver(r) => GameOverRooms(s, s.rooms[r].players);
      case LuaRelease(r) =>
      case AddNpc(r) => RobotRooms(s, r, 0);
      case RemoveNpc(r, c) => RemoveNpcRooms(s, r, c);
    }
  }

  /** No other event removes a room. */
  lemma OnlyChecksRemoveRooms(s: State, step: Step)
    requires !step.RunCheck?
    ensures s.rooms.Keys <= Next(s, step).rooms.Keys
  {
    hide LobbyStep, RoomStep, LuaStep, DoSocketGone, DoLogin, DeleteAll;
    if step.Login? {
      LoginRooms(s, step.sock, step.id);
    }
    LobbyStepRooms(s, step);
    RoomStepRooms(s, step);
    LuaStepRooms(s, step);
    if step.SocketGone? && step.sock in s.handlers {
      SocketGoneRooms(s, step.sock);
    }
    if step.SweepLobby? {
      DeleteAllRooms(s, step.gone);
    }
  }

  lemma QuitRooms(s: State, c: int)
    requires c in s.players && s.players[c].roomId in s.rooms
    ensures DoQuit(s, c).rooms.Keys == s.rooms.Keys
  {
    RemoveRooms(s, s.players[c].roomId, c, s.players[c]);
    var t := RemovePlayer(s, s.players[c].roomId, c, s.players[c]);
    if c in t.players && t.players[c].status == Robot {
      DeleteRooms(t, c);
    }
  }

  lemma KickRooms(s: State, r: nat, id: int)
    requires r in s.rooms
    ensures DoKick(s, r, id).rooms.Keys == s.rooms.Keys
  {
    var x := FindPlayer(s, id);
    if x in s.players {
      RemoveRooms(s, r, x, s.players[x]);
      var t := RemovePlayer(s, r, x, s.players[x]);
      if x in t.players {
        DeleteRooms(t, x);
      }
    }
  }

  // ---------------------------------------------------------------- owners and seats

  /** An owner is always a seated member with an account. */
  lemma OwnerIsSeated(s: State, r: nat)
    requires Reachable(s)
    requires r in s.rooms && s.rooms[r].owner != 0
    ensures var owner := s.rooms[r].owner;
      owner in s.rooms[r].players && owner in s.players && s.players[owner].id > 0
  {
    ReachableKeeps(s);
    assert RoomOk(s, r, {});
  }

  /** When the owner quits, the room has a connected owner again if anybody in it is connected, and none
      otherwise. */
  lemma OwnerSuccession(s: State, c: int)
    requires Reachable(s)
    requires SenderInRoom(s, c)
    requires s.rooms[s.players[c].roomId].owner == c
    ensures var r := s.players[c].roomId;
      var t := DoQuit(s, c);
      OwnerSettled(t, r) && t.rooms[r].owner != c
  {
    ReachableKeeps(s);
    QuitOwner(s, c);
  }

  lemma QuitOwner(s: State, c: int)
    requires Inv(s) && SenderInRoom(s, c) && s.rooms[s.players[c].roomId].owner == c
    ensures var r := s.players[c].roomId;
      var t := DoQuit(s, c);
      OwnerSettled(t, r) && t.rooms[r].owner != c
  {
    var p := s.players[c];
    var r := p.roomId;
    var room := s.rooms[r];
    assert RoomOk(s, r, {}) && PlayerOk(s, c);
    assert forall d :: Connected(s, d) ==> PlayerOk(s, d);
    hide Inv, RoomOk, PlayerOk;
    if room.luaRefs <= 0 {
      assert c in room.players && c !in room.observers && Distinct(room.players) && p.status != Robot by {
        SeatedOwner(s, r, c);
      }
      QuitWaiting(s, r, c);
    } else {
      LeaveUnlists(s, c);
      RunAwayMap(s, c);
      RunAwayConnected(s, c);
      AfterLeaveShape(RunAway(s, c, p), r, c);
    }
  }

  lemma SeatedOwner(s: State, r: nat, c: int)
    requires r in s.rooms && RoomOk(s, r, {}) && s.rooms[r].owner == c != 0
    requires c in s.players && PlayerOk(s, c)
    ensures c in s.rooms[r].players && c !in s.rooms[r].observers && Distinct(s.rooms[r].players)
    ensures s.players[c].status != Robot
  {
  }

  lemma QuitWaiting(s: State, r: nat, c: int)
    requires c in s.players && s.players[c].roomId == r && s.players[c].status != Robot && c != 0
    requires r in s.rooms && s.rooms[r].luaRefs <= 0 && s.rooms[r].owner == c
    requires c in s.rooms[r].players && c !in s.rooms[r].observers && Distinct(s.rooms[r].players)
    requires forall d :: Connected(s, d) ==> s.players[d].id > 0
    ensures OwnerSettled(DoQuit(s, c), r) && DoQuit(s, c).rooms[r].owner != c
  {
    var room := s.rooms[r];
    EraseMembers(room.players, c);
    var u := SetRoom(s, r, room.(players := Erase(room.players, c)));
    hide Erase, Distinct;
    LeftOwner(u, r, c);
    var v := AfterLeave(u, r, c);
    assert RemovePlayer(s, r, c, s.players[c]) == v;
    hide AfterLeave, RemovePlayer;
    var t := DoQuit(s, c);
    assert t.rooms == v.rooms;
    assert forall d :: Connected(t, d) == Connected(v, d);
    SettledFrame(v, t, r);
  }

  /** Room `r` is owned by a connected member, or nobody in it is connected and it has no owner. */
  predicate OwnerSettled(s: State, r: nat) {
    r in s.rooms && if IsAbandoned(s, s.rooms[r].players) then s.rooms[r].owner == 0 else Connected(s, s.rooms[r].owner)
  }

  /** The seat of the owner is already empty. */
  lemma LeftOwner(s: State, r: nat, c: int)
    requires r in s.rooms && s.rooms[r].owner == c && c !in s.rooms[r].players
    requires forall d :: Connected(s, d) ==> s.players[d].id > 0
    ensures var t := AfterLeave(s, r, c);
      && t.players == s.players && OwnerSettled(t, r) && (c != 0 ==> t.rooms[r].owner != c)
      && t.rooms[r].players == s.rooms[r].players && t.rooms[r].observers == s.rooms[r].observers
  {
    if !IsAbandoned(s, s.rooms[r].players) {
      FirstConnectedFound(s, s.rooms[r].players);
      assert !IsAbandoned(AfterLeave(s, r, c), s.rooms[r].players);
    }
  }

  lemma SettledFrame(s: State, t: State, r: nat)
    requires OwnerSettled(s, r) && r in t.rooms
    requires t.rooms[r].players == s.rooms[r].players && t.rooms[r].owner == s.rooms[r].owner
    requires forall d :: Connected(t, d) == Connected(s, d)
    ensures OwnerSettled(t, r)
  {
  }

  /** The same when the owner is kicked. */
  lemma KickedOwnerSucceeded(s: State, r: nat, id: int)
    requires Reachable(s) && r in s.rooms && s.rooms[r].luaRefs <= 0
    requires s.rooms[r].owner != 0 && FindPlayer(s, id) == s.rooms[r].owner && id != 0
    ensures OwnerSettled(DoKick(s, r, id), r)
  {
    hide Reachable;
    ReachableKeeps(s);
    var c, room := s.rooms[r].owner, s.rooms[r];
    assert RoomOk(s, r, {}) && PlayerOk(s, c);
    assert c in room.players;
    assert forall d :: Connected(s, d) ==> PlayerOk(s, d);
    EraseMembers(room.players, c);
    var u := SetRoom(s, r, room.(players := Erase(room.players, c)));
    hide Inv, RoomOk;
    LeftOwner(u, r, c);
    var v := AfterLeave(u, r, c);
    hide AfterLeave;
    var t := DoKick(s, r, id);
    assert t.rooms[r].players == v.rooms[r].players && t.rooms[r].owner == v.rooms[r].owner;
    assert forall d :: Connected(t, d) == Connected(v, d);
    SettledFrame(v, t, r);
  }

  /** Deleting an owner that has lost its socket. */
  lemma DeletedOwner(s: State, r: nat, c: int)
    requires c in s.players && s.players[c].sock == 0 && s.players[c].roomId == r != 0
    requires r in s.rooms && s.rooms[r].luaRefs <= 0 && s.rooms[r].owner == c
    requires c in s.rooms[r].players && c !in s.rooms[r].observers && Distinct(s.rooms[r].players)
    requires forall d :: Connected(s, d) ==> s.players[d].id > 0
    ensures OwnerSettled(DeletePlayer(s, c), r)
  {
    var p, room := s.players[c], s.rooms[r];
    EraseMembers(room.players, c);
    var s1 := Unregister(s, c, p);
    var u := SetRoom(s1, r, room.(players := Erase(room.players, c)));
    assert RemovePlayer(s1, r, c, p) == AfterLeave(u, r, c);
    assert u.players == s.players - {c};
    hide Unregister, Erase, AfterLeave, Distinct, RemovePlayer;
    assert forall d :: Connected(u, d) ==> Connected(s, d) && u.players[d] == s.players[d];
    LeftOwner(u, r, c);
    var v := AfterLeave(u, r, c);
    var t := DeletePlayer(s, c);
    assert t.rooms == v.rooms && t.players == v.players;
    SettledFrame(v, t, r);
  }

  /** The same when the owner's socket goes and no game runs. */
  lemma LostOwnerSucceeded(s: State, r: nat)
    requires Reachable(s) && r in s.rooms && s.rooms[r].luaRefs <= 0
    requires s.rooms[r].owner != 0 && Connected(s, s.rooms[r].owner)
    ensures var sock := s.players[s.rooms[r].owner].sock;
      sock in s.handlers && OwnerSettled(DoSocketGone(s, sock), r)
  {
    hide Reachable, DeletePlayer;
    ReachableKeeps(s);
    var c := s.rooms[r].owner;
    assert RoomOk(s, r, {}) && PlayerOk(s, c);
    assert forall d :: Connected(s, d) ==> PlayerOk(s, d);
    hide Inv, RoomOk, PlayerOk;
    OwnerGone(s, r, c);
  }

  lemma OwnerGone(s: State, r: nat, c: int)
    requires r in s.rooms && s.rooms[r].luaRefs <= 0 && s.rooms[r].owner == c && RoomOk(s, r, {})
    requires c in s.players && s.players[c].sock != 0 && PlayerOk(s, c)
    requires forall d :: Connected(s, d) ==> s.players[d].id > 0
    ensures OwnerSettled(DoSocketGone(s, s.players[c].sock), r)
  {
    hide DeletePlayer;
    var sock := s.players[c].sock;
    var w := Detach(s, c);
    assert c in s.rooms[r].players && s.players[c].roomId == r && r != 0;
    assert w.rooms == s.rooms && w.players == s.players[c := w.players[c]] && w.players[c].sock == 0;
    assert !InsideGame(w, c);
    DeletedOwner(w, r, c);
    var t := DoSocketGone(s, sock);
    assert t == DeletePlayer(w, c).(handlers := t.handlers);
    SettledFrame(DeletePlayer(w, c), t, r);
  }

  /** Members that did not come through `addNpc` never outnumber the seats. */
  lemma SeatsNeverOverbooked(s: State, r: nat)
    requires Reachable(s)
    requires r in s.rooms
    ensures Seated(s.rooms[r].players, s.rooms[r].npcs) <= s.rooms[r].capacity
  {
    ReachableKeeps(s);
    assert RoomOk(s, r, {});
  }

  /** After the end-of-game check of a room that stays, only connected members are left in it, and they
      fit it. */
  lemma CleanupFitsRoom(s: State)
    requires Reachable(s) && s.checks != [] && s.checks[0].reason == NoRefCount
    requires s.checks[0].room in s.rooms
    ensures var t := DoRunCheck(s);
      var r := s.checks[0].room;
      r in t.rooms ==>
        |t.rooms[r].players| <= t.rooms[r].capacity && forall c :: c in t.rooms[r].players ==> Connected(t, c)
  {
    ReachableKeeps(s);
    RunCheckFits(s);
  }

  lemma RunCheckFits(s: State)
    requires Inv(s) && s.checks != [] && s.checks[0].reason == NoRefCount && s.checks[0].room in s.rooms
    ensures var t := DoRunCheck(s);
      var r := s.checks[0].room;
      r in t.rooms ==>
        |t.rooms[r].players| <= t.rooms[r].capacity && forall c :: c in t.rooms[r].players ==> Connected(t, c)
  {
    var r := s.checks[0].room;
    var t := s.(checks := s.checks[1..]);
    PopChecked(s);
    CheckRooms(t, r, NoRefCount);
    SweptFits(t, r);
  }

  lemma SweptFits(s: State, r: nat)
    requires r in s.rooms && InvLax(s, 0, {}, r) && OwnerOk(s, s.rooms[r], {})
    ensures var u := SweepAbsent(s, r);
      && r in u.rooms && |u.rooms[r].players| <= u.rooms[r].capacity
      && forall c :: c in u.rooms[r].players ==> Connected(u, c)
  {
    SweepKeeps(s, r);
    SweepShape(s, r);
    var u := SweepAbsent(s, r);
    assert RoomBasics(u, r, DeadIn(r, 0, {}));
    forall c | c in u.rooms[r].players
      ensures c !in u.rooms[r].npcs
    {
      assert PlayerOk(u, c);
    }
    SeatedBound(u.rooms[r].players, u.rooms[r].npcs);
  }

  // ---------------------------------------------------------------- sessions

  /** The end of any socket leaves alone every account that has moved on to another connection. */
  lemma SupersededPlayerKeepsAccount(s: State, sock: nat, account: int)
    requires Reachable(s)
    requires sock in s.handlers && account in s.online && s.online[account] in s.players
    requires s.players[s.online[account]].sock != sock
    ensures StillOnline(s, DoSocketGone(s, sock), account)
  {
    ReachableKeeps(s);
    var h := s.handlers[sock];
    if h.Session? && h.conn in s.players && s.players[h.conn].sock == sock {
      DisconnectSockets(s, h.conn);
      var t := OnDisconnected(s, h.conn);
      assert s.online[account] in s.players - {h.conn};
      assert s.online[account] in t.players - {h.conn};
      assert (t.players - {h.conn})[s.online[account]] == (s.players - {h.conn})[s.online[account]];
    }
  }

  /** The account's current player is the same one, unchanged. */
  predicate StillOnline(s: State, t: State, account: int)
    requires account in s.online && s.online[account] in s.players
  {
    var c := s.online[account];
    account in t.online && t.online[account] == c && c in t.players && t.players[c] == s.players[c]
  }

  /** The account maps are views of the connection map. */
  lemma AccountsAreAView(s: State, account: int)
    requires Reachable(s)
    ensures && (account in s.online ==> s.online[account] in s.players && s.players[s.online[account]].id == account)
      && (account in s.robots ==> s.robots[account] in s.players && s.players[s.robots[account]].id == account)
  {
    ReachableKeeps(s);
  }

  ghost predicate StaysInert(s: State, t: State) {
    forall k :: k in s.handlers && s.handlers[k] == Inert ==> k in t.handlers && t.handlers[k] == Inert
  }

  lemma RemoveInert(s: State, r: nat, c: int, p: Player)
    requires r in s.rooms && (p.sock != 0 ==> p.sock in s.handlers && s.handlers[p.sock] != Inert)
    ensures StaysInert(s, RemovePlayer(s, r, c, p))
  {
    RemoveHandlers(s, r, c, p);
  }

  lemma RemoveHandlers(s: State, r: nat, c: int, p: Player)
    requires r in s.rooms
    ensures var t := RemovePlayer(s, r, c, p);
      t.handlers == s.handlers || t.handlers == Bind(Release(s.handlers, p.sock), p.sock, s.nextConn)
  {
    var room := s.rooms[r];
    if c !in room.observers && c in room.players {
      if room.luaRefs <= 0 {
        AfterLeaveHandlers(SetRoom(s, r, room.(players := Erase(room.players, c))), r, c);
      } else {
        AfterLeaveHandlers(RunAway(s, c, p), r, c);
      }
    }
  }

  lemma AfterLeaveHandlers(s: State, r: nat, c: int)
    requires r in s.rooms
    ensures AfterLeave(s, r, c).handlers == s.handlers
  {
  }

  lemma DeleteInert(s: State, c: int)
    requires c in s.players
    requires var p := s.players[c]; p.sock != 0 ==> p.sock in s.handlers && s.handlers[p.sock] != Inert
    ensures StaysInert(s, DeletePlayer(s, c))
  {
    var p := s.players[c];
    if p.roomId != 0 && p.roomId in s.rooms {
      RemoveInert(Unregister(s, c, p), p.roomId, c, p);
    }
  }

  lemma LobbyAddInert(s: State, c: int)
    requires Inv(s) && c in s.players
    ensures StaysInert(s, LobbyAdd(s, c))
  {
    assert PlayerOk(s, c);
    DeleteInert(s, c);
  }

  lemma {:induction false} SweepInert(s: State, r: nat, gone: seq<int>, dead: set<int>)
    requires Sweeping(s, r, dead) && Doomed(s, r, gone)
    ensures StaysInert(s, DeleteAll(s, gone))
    decreases |gone|
  {
    if gone != [] {
      var c := gone[0];
      assert c in gone;
      var u := DeletePlayer(s, c);
      var mid := SweepOne(s, r, c, dead);
      assert RoomBasics(s, r, dead);
      DeleteSpares(s, c);
      DoomedTail(s, u, r, gone);
      DeleteInert(s, c);
      SweepInert(u, r, gone[1..], mid);
    }
  }

  lemma {:induction false} HomeInert(s: State, members: seq<int>)
    requires Inv(s)
    requires forall c :: c in members && c in s.players ==> s.players[c].roomId !in s.rooms
    ensures StaysInert(s, SendHome(s, members))
    decreases |members|
  {
    if members != [] {
      var c := members[0];
      assert c in members && forall d :: d in members[1..] ==> d in members;
      if c in s.players {
        HomeOne(s, c);
        LobbyAddInert(s, c);
        DeleteInert(s, c) by { assert PlayerOk(s, c); }
        HomeInert(if s.players[c].sock != 0 then LobbyAdd(s, c) else DeletePlayer(s, c), members[1..]);
      } else {
        HomeInert(s, members[1..]);
      }
    }
  }

  lemma CheckInert(s: State, r: nat, reason: Reason)
    requires r in s.rooms && InvLax(s, 0, {}, r) && OwnerOk(s, s.rooms[r], {})
    ensures StaysInert(s, CheckAbandoned(s, r, reason))
  {
    var t := if reason == NoRefCount then SweepAbsent(s, r) else s;
    if reason == NoRefCount {
      SweepKeeps(s, r);
      assert DeadIn(r, 0, {}) == {};
      assert RoomBasics(s, r, DeadIn(r, 0, {}));
      StartSweep(s, r);
      SweepInert(s, r, Absent(s, s.rooms[r].players), {});
    }
    if IsAbandoned(t, t.rooms[r].players) && t.rooms[r].luaRefs <= 0 {
      DestroyInert(t, r);
    }
  }

  lemma DestroyInert(t: State, r: nat)
    requires r in t.rooms && InvLax(t, 0, {}, r)
    ensures StaysInert(t, DestroyRoom(t, r))
  {
    var u := t.(rooms := t.rooms - {r});
    assert RoomBasics(t, r, DeadIn(r, 0, {}));
    PeopleFrame(t, u);
    RoomsFrame(t, u, 0, {}, r, r, 0);
    HomeInert(u, t.rooms[r].players + t.rooms[r].observers);
  }

  lemma QuitInert(s: State, c: int)
    requires Inv(s) && SenderInRoom(s, c)
    ensures StaysInert(s, DoQuit(s, c))
  {
    assert PlayerOk(s, c);
    LeaveKeeps(s, c);
    RemoveInert(s, s.players[c].roomId, c, s.players[c]);
    var t := RemovePlayer(s, s.players[c].roomId, c, s.players[c]);
    if c in t.players && t.players[c].status == Online {
      LobbyAddInert(t, c);
    }
  }

  lemma KickInert(s: State, r: nat, id: int)
    requires Inv(s) && r in s.rooms
    ensures StaysInert(s, DoKick(s, r, id))
  {
    var x := FindPlayer(s, id);
    if x in s.players && s.players[x].roomId == r {
      assert PlayerOk(s, x);
      LeaveKeeps(s, x);
      RemoveInert(s, r, x, s.players[x]);
      var t := RemovePlayer(s, r, x, s.players[x]);
      if x in t.players {
        LobbyAddInert(t, x);
      }
    }
  }

  lemma RemoveNpcInert(s: State, r: nat, c: int)
    requires Inv(s) && r in s.rooms && c in s.players
    ensures StaysInert(s, DoRemoveNpc(s, r, c))
  {
    assert PlayerOk(s, c);
    DeleteInert(SetRoom(s, r, s.rooms[r].(players := Erase(s.rooms[r].players, c))), c);
  }

  lemma SocketGoneInert(s: State, sock: nat)
    requires Inv(s) && sock in s.handlers
    ensures StaysInert(s, DoSocketGone(s, sock)) && DoSocketGone(s, sock).handlers[sock] == Inert
  {
    var h := s.handlers[sock];
    if h.Session? && h.conn in s.players && s.players[h.conn].sock == sock {
      DisconnectSockets(s, h.conn);
    }
  }

  lemma SeatInert(s: State, r: nat, c: int, capacity: nat)
    requires c in s.players
    ensures r in s.rooms ==> LeaveLobbyFor(AddPlayer(s, r, c), r, c).handlers == s.handlers
    ensures r in s.rooms ==> LeaveLobbyFor(AddObserver(s, r, c), r, c).handlers == s.handlers
    ensures DoCreateRoom(s, c, capacity).handlers == s.handlers
  {
  }

  lemma RobotInert(s: State, r: nat, c: int)
    requires r in s.rooms
    ensures DoAddRobot(s, r, c).handlers == s.handlers
  {
    SeatInert(CreateRobot(s), r, s.nextConn, 0);
  }

  lemma NpcInert(s: State, r: nat)
    requires r in s.rooms
    ensures DoAddNpc(s, r).handlers == s.handlers
  {
  }

  lemma LoginInert(s: State, sock: nat, id: int)
    requires Inv(s) && sock in s.handlers && s.handlers[sock] == Early
    ensures StaysInert(s, DoLogin(s, sock, id))
  {
    if id in s.online && s.online[id] in s.players && InsideGame(s, s.online[id]) {
      SocketInert(s, s.online[id], sock);
    } else {
      SocketInert(Register(s, s.nextConn, Player(id, Online, 0, 0)), s.nextConn, sock);
    }
  }

  lemma SocketInert(s: State, c: int, sock: nat)
    requires c in s.players && sock in s.handlers && s.handlers[sock] == Early
    ensures StaysInert(s, SetSocket(s, c, sock))
  {
  }

  lemma {:induction false} DeleteIdleInert(s: State, gone: seq<int>)
    requires Inv(s)
    requires Distinct(gone) && forall c :: c in gone ==> c in s.players && s.players[c].sock == 0 && s.players[c].roomId == 0
    ensures StaysInert(s, DeleteAll(s, gone))
    decreases |gone|
  {
    if gone != [] {
      var c := gone[0];
      assert c in gone && forall d :: d in gone[1..] ==> d in gone && d != c;
      NoRoomZero(s);
      assert PlayerOk(s, c);
      DeleteGone(s, c);
      DeleteUnfold(s, c);
      DeleteIdleInert(DeletePlayer(s, c), gone[1..]);
    }
  }

  lemma SweepLobbyInert(s: State, gone: seq<int>)
    requires Inv(s) && Distinct(gone)
    requires (set c | c in gone) == (set c | c in s.lobby && !Connected(s, c))
    ensures StaysInert(s, DoSweepLobby(s, gone))
  {
    var listed, idle := set c | c in gone, set c | c in s.lobby && !Connected(s, c);
    assert listed == idle && forall c :: c in gone ==> c in listed;
    DeleteIdleInert(s, gone);
  }

  lemma RunCheckInert(s: State)
    requires Inv(s) && s.checks != []
    ensures StaysInert(s, DoRunCheck(s))
  {
    if s.checks[0].room in s.rooms {
      PopChecked(s);
      CheckInert(s.(checks := s.checks[1..]), s.checks[0].room, s.checks[0].reason);
    }
  }

  lemma SessionStepInert(s: State, step: Step)
    requires Inv(s)
    ensures StaysInert(s, SessionStep(s, step))
  {
    if SessionStep(s, step) != s {
      match step
      case Connect(sock) =>
      case Login(sock, id) => LoginInert(s, sock, id);
      case SocketGone(sock) => SocketGoneInert(s, sock);
    }
  }

  lemma LobbyStepInert(s: State, step: Step)
    ensures LobbyStep(s, step).handlers == s.handlers
  {
    if LobbyStep(s, step) != s {
      match step
      case CreateRoom(c, capacity) => SeatInert(s, 0, c, ToSize(capacity));
      case EnterRoom(c, r) => SeatInert(s, r, c, 0);
      case ObserveRoom(c, r) => SeatInert(s, r, c, 0);
    }
  }

  lemma RoomStepInert(s: State, step: Step)
    requires Inv(s)
    ensures StaysInert(s, RoomStep(s, step))
  {
    hide Inv, DoQuit, DoAddRobot, DoKick;
    if RoomStep(s, step) != s {
      match step
      case QuitRoom(c) => QuitInert(s, c);
      case AddRobot(c) => RobotInert(s, s.players[c].roomId, c);
      case KickPlayer(c, id) => KickInert(s, s.players[c].roomId, id);
      case ToggleTrust(c) =>
      case ChangeRoom(c, capacity) =>
      case StartGame(c) =>
    }
  }

  lemma LuaStepInert(s: State, step: Step)
    requires Inv(s)
    ensures StaysInert(s, LuaStep(s, step))
  {
    hide Inv, DoRemoveNpc, DoAddNpc, DoGameOver;
    if LuaStep(s, step) != s {
      match step
      case GameOver(r) => GameOverRooms(s, s.rooms[r].players);
      case LuaRelease(r) =>
      case AddNpc(r) => NpcInert(s, r);
      case RemoveNpc(r, c) => RemoveNpcInert(s, r, c);
    }
  }

  lemma HouseStepInert(s: State, step: Step)
    requires Inv(s)
    ensures StaysInert(s, HouseStep(s, step))
  {
    if HouseStep(s, step) != s {
      match step
      case ForgetReject(r, id) =>
      case PostCheck(r) =>
      case RunCheck => RunCheckInert(s);
      case SweepLobby(gone) => SweepLobbyInert(s, gone);
    }
  }

  /** A callback that has been disarmed is never armed again. */
  lemma InertStays(s: State, step: Step)
    requires Inv(s)
    ensures StaysInert(s, Next(s, step))
  {
    SessionStepInert(s, step);
    LobbyStepInert(s, step);
    RoomStepInert(s, step);
    LuaStepInert(s, step);
    HouseStepInert(s, step);
  }

  /** The states a run goes through after `s`. */
  function Continue(s: State, steps: seq<Step>): State
    decreases |steps|
  {
    if steps == [] then s else Continue(Next(s, steps[0]), steps[1..])
  }

  lemma {:induction false} InertForever(s: State, steps: seq<Step>, k: nat)
    requires Inv(s) && k in s.handlers && s.handlers[k] == Inert
    ensures k in Continue(s, steps).handlers && Continue(s, steps).handlers[k] == Inert
    decreases |steps|
  {
    if steps != [] {
      StepKeeps(s, steps[0]);
      InertStays(s, steps[0]);
      InertForever(Next(s, steps[0]), steps[1..], k);
    }
  }

  /** A socket's end takes effect once: whatever happens afterwards, a second report of it changes nothing,
      and so no player is logged out twice for one socket. */
  lemma LogoutAtMostOnce(s: State, sock: nat, steps: seq<Step>)
    requires Reachable(s) && sock in s.handlers
    ensures var t := Continue(Next(s, SocketGone(sock)), steps);
      Next(t, SocketGone(sock)) == t
  {
    ReachableKeeps(s);
    StepKeeps(s, SocketGone(sock));
    SocketGoneInert(s, sock);
    InertForever(Next(s, SocketGone(sock)), steps, sock);
    var t := Continue(Next(s, SocketGone(sock)), steps);
    assert t.handlers[sock := Inert] == t.handlers;
  }
}
