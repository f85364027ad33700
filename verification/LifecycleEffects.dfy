/** What each event does to the players and rooms it is about, in every reachable state, and that it does
    nothing to the others. */
module LifecycleEffects {
  import opened Basics
  import opened Lifecycle
  import opened LifecycleInvariant
  import opened LifecycleSteps
  import opened LifecycleBounds
  import opened LifecyclePlaces

  // ---------------------------------------------------------------- what is left alone

  /** Players other than `cs` are as before, in the lobby or not, and so are rooms other than `r`. */
  ghost predicate Elsewhere(s: State, t: State, cs: set<int>, r: nat) {
    && (forall d :: d !in cs ==> (d in t.players <==> d in s.players) && (d in t.lobby <==> d in s.lobby))
    && (forall d :: d !in cs && d in s.players ==> t.players[d] == s.players[d])
    && (forall q :: q != r ==> (q in t.rooms <==> q in s.rooms))
    && (forall q :: q != r && q in s.rooms ==> t.rooms[q] == s.rooms[q])
  }

  /** The room but for its two lists and its owner. */
  predicate SameSettings(a: Room, b: Room) {
    a.capacity == b.capacity && a.luaRefs == b.luaRefs && a.rejected == b.rejected && a.npcs == b.npcs
  }

  /** The two lists without `c`, and with nobody new. */
  ghost predicate ListsWithout(a: Room, b: Room, c: int) {
    && (forall d :: d in b.players <==> d in a.players && d != c)
    && (forall d :: d in b.observers <==> d in a.observers && d != c)
  }

  lemma ReachableRests(s: State)
    requires Reachable(s)
    ensures Inv(s) && AtRest(s)
  {
    ReachableKeeps(s);
    assert forall r :: r in s.rooms ==> RoomBasics(s, r, DeadIn(r, 0, {}));
  }

  // ---------------------------------------------------------------- leaving

  ghost predicate Left(s: State, t: State, c: int, r: nat)
    requires r in s.rooms
  {
    && r in t.rooms && SameSettings(s.rooms[r], t.rooms[r]) && ListsWithout(s.rooms[r], t.rooms[r], c)
    && t == s.(rooms := s.rooms[r := t.rooms[r]], checks := t.checks)
  }

  ghost predicate ListsOk(room: Room) {
    Distinct(room.players) && Distinct(room.observers) && forall c :: c in room.players ==> c !in room.observers
  }

  lemma RestLists(s: State, r: nat)
    requires AtRest(s) && r in s.rooms
    ensures ListsOk(s.rooms[r])
  {
    assert RoomBasics(s, r, DeadIn(r, 0, {}));
  }

  /** Leaving a room without a game, or an observer's chair, or a room one is not in. */
  lemma LeftWaiting(s: State, r: nat, c: int, p: Player)
    requires r in s.rooms && ListsOk(s.rooms[r]) && !(c in s.rooms[r].players && s.rooms[r].luaRefs > 0)
    ensures Left(s, RemovePlayer(s, r, c, p), c, r)
  {
    var room := s.rooms[r];
    EraseMembers(room.players, c);
    EraseMembers(room.observers, c);
    AfterLeaveAlone(WithoutSeat(s, r, c), r, c);
    assert s.rooms == s.rooms[r := s.rooms[r]];
    hide AfterLeave, Erase, RunAway;
  }

  lemma AfterLeaveAlone(s: State, r: nat, c: int)
    requires r in s.rooms
    ensures var t := AfterLeave(s, r, c);
      && t == s.(rooms := s.rooms[r := t.rooms[r]], checks := t.checks) && r in t.rooms
      && t.rooms[r] == s.rooms[r].(owner := t.rooms[r].owner)
  {
    assert s.rooms == s.rooms[r := s.rooms[r]];
    hide IsAbandoned, FirstConnected;
  }

  /** Out of both lists of room `r`; in the lobby exactly with status online. */
  ghost predicate WentHome(s: State, t: State, c: int, r: nat)
    requires c in s.players && r in s.rooms
  {
    var p := s.players[c];
    && r in t.rooms && SameSettings(s.rooms[r], t.rooms[r]) && ListsWithout(s.rooms[r], t.rooms[r], c)
    && c in t.players && t.players[c] == p.(roomId := if p.status == Online then 0 else r)
    && (c in t.lobby <==> p.status == Online)
    && t.online == s.online && t.handlers == s.handlers && Elsewhere(s, t, {c}, r)
  }

  /** The seat stays with the old connection, without a socket; a new connection of the account is in the lobby
      on the old socket. */
  ghost predicate RanAway(s: State, t: State, c: int, r: nat)
    requires c in s.players && r in s.rooms
  {
    var p, n := s.players[c], s.nextConn;
    && r in t.rooms && SameSettings(s.rooms[r], t.rooms[r])
    && t.rooms[r].players == s.rooms[r].players && t.rooms[r].observers == s.rooms[r].observers
    && c in t.players && t.players[c] == p.(status := Run, sock := 0) && c !in t.lobby
    && n in t.players && n in t.lobby && t.players[n] == Player(p.id, Online, p.sock, 0)
    && t.online == s.online[p.id := n] && t.handlers == s.handlers[p.sock := Session(n)]
    && Elsewhere(s, t, {c, n}, r)
  }

  /** Whoever quits a running game runs away; whoever quits a room without a game, or an observer's chair, goes
      home. */
  lemma QuitterGoesHome(s: State, c: int)
    requires Reachable(s) && SenderInRoom(s, c)
    ensures var r := s.players[c].roomId;
      if c in s.rooms[r].players && s.rooms[r].luaRefs > 0
      then RanAway(s, Next(s, QuitRoom(c)), c, r)
      else WentHome(s, Next(s, QuitRoom(c)), c, r)
  {
    hide Reachable, RanAway, WentHome, DoQuit;
    ReachableRests(s);
    if Playing(s, c) {
      QuitPlaying(s, c);
    } else {
      QuitWaiting(s, c);
    }
  }

  lemma NotARobot(s: State, c: int)
    requires Inv(s) && Connected(s, c)
    ensures s.players[c].status != Robot && s.players[c].id > 0
  {
    assert PlayerOk(s, c);
  }

  lemma OutOfLobby(s: State, c: int)
    requires AtRest(s) && c in s.players && s.players[c].roomId in s.rooms
    ensures c !in s.lobby && 0 !in s.rooms && (Playing(s, c) ==> c !in s.rooms[s.players[c].roomId].observers)
  {
    var r := s.players[c].roomId;
    NoRoomZeroYet(s, 0, {});
    assert RoomBasics(s, r, DeadIn(r, 0, {}));
  }

  lemma QuitWaiting(s: State, c: int)
    requires Inv(s) && AtRest(s) && SenderInRoom(s, c) && !Playing(s, c)
    ensures WentHome(s, DoQuit(s, c), c, s.players[c].roomId)
  {
    var r := s.players[c].roomId;
    hide PlacesOk, RemovePlayer, Inv, ListsOk;
    RestLists(s, r);
    LeftWaiting(s, r, c, s.players[c]);
    OutOfLobby(s, c);
    NotARobot(s, c);
    var u := RemovePlayer(s, r, c, s.players[c]);
    assert DoQuit(s, c) == if s.players[c].status == Online then EnterLobby(u, c) else u;
    hide DoQuit;
  }

  lemma QuitPlaying(s: State, c: int)
    requires Inv(s) && AtRest(s) && SenderInRoom(s, c) && Playing(s, c)
    ensures RanAway(s, DoQuit(s, c), c, s.players[c].roomId)
  {
    hide Inv, AtRest, RunAway, AfterLeave, DoQuit, RanAway;
    OutOfLobby(s, c);
    var r, u := s.players[c].roomId, RunAway(s, c, s.players[c]);
    AwayFrom(s, c);
    AfterLeaveAlone(u, r, c);
    QuitIs(s, c);
    AwayStays(s, u, DoQuit(s, c), c, r);
  }

  lemma QuitIs(s: State, c: int)
    requires SenderInRoom(s, c) && Playing(s, c) && c !in s.rooms[s.players[c].roomId].observers
    requires var r, u := s.players[c].roomId, RunAway(s, c, s.players[c]);
      r in u.rooms && c in AfterLeave(u, r, c).players && AfterLeave(u, r, c).players[c].status == Run
    ensures DoQuit(s, c) == AfterLeave(RunAway(s, c, s.players[c]), s.players[c].roomId, c)
  {
    hide RunAway, AfterLeave;
  }

  lemma AwayFrom(s: State, c: int)
    requires Inv(s) && SenderInRoom(s, c) && c !in s.lobby
    ensures var u := RunAway(s, c, s.players[c]);
      && u.rooms == s.rooms && RanAway(s, u, c, s.players[c].roomId) && c in u.players && u.players[c].status == Run
  {
    assert PlayerOk(s, c);
    var p, u := s.players[c], RunAway(s, c, s.players[c]);
    RunAwayMap(s, c);
    RunAwayShape(s, c, p);
    assert u.handlers == s.handlers[p.sock := Session(s.nextConn)];
    hide RunAway, Inv, PlayerOk;
  }

  lemma AwayStays(s: State, u: State, t: State, c: int, r: nat)
    requires c in s.players && r in s.rooms && u.rooms == s.rooms && RanAway(s, u, c, r) && r in t.rooms
    requires t == u.(rooms := u.rooms[r := t.rooms[r]], checks := t.checks) && t.rooms[r] == u.rooms[r].(owner := t.rooms[r].owner)
    ensures RanAway(s, t, c, r)
  {
  }

  // ---------------------------------------------------------------- coming in

  /** Sits in the last seat of room `r`, and not in the lobby; a room without an owner is now theirs. */
  ghost predicate SatDown(s: State, t: State, c: int, r: nat)
    requires c in s.players && r in s.rooms
  {
    var room := s.rooms[r];
    && r in t.rooms && SameSettings(room, t.rooms[r])
    && t.rooms[r].players == room.players + [c] && t.rooms[r].observers == room.observers
    && t.rooms[r].owner == (if room.owner == 0 then c else room.owner)
    && c in t.players && t.players[c] == s.players[c].(roomId := r) && c !in t.lobby
    && Elsewhere(s, t, {c}, r)
  }

  /** A room takes a player in exactly when it has a free seat, no game runs and the account is not rejected;
      otherwise nothing happens, and the player stays in the lobby. */
  lemma EnteringSeats(s: State, c: int, r: nat)
    requires Reachable(s) && SenderInLobby(s, c) && r in s.rooms
    ensures var t, room := Next(s, EnterRoom(c, r)), s.rooms[r];
      if |room.players| < room.capacity && room.luaRefs <= 0 && s.players[c].id !in room.rejected
      then SatDown(s, t, c, r) else t == s
  {
    hide Reachable, Inv, AddPlayer, LeaveLobbyFor, SatDown;
    ReachableKeeps(s);
    NoRoomZero(s);
    NotARobot(s, c);
    TakenIn(s, r, c);
  }

  lemma TakenIn(s: State, r: nat, c: int)
    requires c in s.players && r in s.rooms && s.players[c].id > 0 && s.players[c].roomId != r
    ensures var t, room := LeaveLobbyFor(AddPlayer(s, r, c), r, c), s.rooms[r];
      if |room.players| < room.capacity && room.luaRefs <= 0 && s.players[c].id !in room.rejected
      then SatDown(s, t, c, r) else t == s
  {
    hide SatDown;
    var room := s.rooms[r];
    if |room.players| < room.capacity && room.luaRefs <= 0 && s.players[c].id !in room.rejected {
      var room' := room.(players := room.players + [c], owner := if room.owner == 0 then c else room.owner);
      var t := s.(players := s.players[c := s.players[c].(roomId := r)], rooms := s.rooms[r := room'], lobby := s.lobby - {c});
      assert LeaveLobbyFor(AddPlayer(s, r, c), r, c) == t;
      hide AddPlayer, LeaveLobbyFor;
      SatIs(s, t, c, r);
    }
  }

  lemma SatIs(s: State, t: State, c: int, r: nat)
    requires c in s.players && r in s.rooms && r in t.rooms
    requires t == s.(players := s.players[c := s.players[c].(roomId := r)], rooms := s.rooms[r := t.rooms[r]], lobby := s.lobby - {c})
    requires var room := s.rooms[r];
      t.rooms[r] == room.(players := room.players + [c], owner := if room.owner == 0 then c else room.owner)
    ensures SatDown(s, t, c, r)
  {
  }

  /** Coming in and quitting again leaves every player and the lobby as they were, and the same people in the
      room. */
  lemma EnterThenQuit(s: State, c: int, r: nat)
    requires Reachable(s) && SenderInLobby(s, c) && r in s.rooms && c in s.lobby && s.players[c].status == Online
    requires var room := s.rooms[r]; |room.players| < room.capacity && room.luaRefs <= 0 && s.players[c].id !in room.rejected
    ensures var t := Next(Next(s, EnterRoom(c, r)), QuitRoom(c));
      && t.players == s.players && t.lobby == s.lobby && t.rooms.Keys == s.rooms.Keys
      && (forall d :: d in t.rooms[r].players <==> d in s.rooms[r].players)
      && (forall d :: d in t.rooms[r].observers <==> d in s.rooms[r].observers)
      && forall q :: q in s.rooms && q != r ==> t.rooms[q] == s.rooms[q]
  {
    hide Next, Inv, Reachable;
    var u := Next(s, EnterRoom(c, r));
    EnteringSeats(s, c, r);
    ReachableStep(s, EnterRoom(c, r));
    ReachableKeeps(s);
    NotListed(s, c, r);
    assert SenderInRoom(u, c) && u.rooms[r].luaRefs <= 0;
    QuitterGoesHome(u, c);
    InAndOut(s, u, Next(u, QuitRoom(c)), c, r);
  }

  lemma InAndOut(s: State, u: State, t: State, c: int, r: nat)
    requires c in s.players && r in s.rooms && SatDown(s, u, c, r) && r in u.rooms && c in u.players && WentHome(u, t, c, r)
    requires c in s.lobby && s.players[c].status == Online && s.players[c].roomId == 0
    requires c !in s.rooms[r].players && c !in s.rooms[r].observers
    ensures t.players == s.players && t.lobby == s.lobby && t.rooms.Keys == s.rooms.Keys
    ensures (forall d :: d in t.rooms[r].players <==> d in s.rooms[r].players)
    ensures (forall d :: d in t.rooms[r].observers <==> d in s.rooms[r].observers)
    ensures forall q :: q in s.rooms && q != r ==> t.rooms[q] == s.rooms[q]
  {
    forall d
      ensures (d in t.players <==> d in s.players) && (d in t.lobby <==> d in s.lobby)
      ensures d in s.players ==> t.players[d] == s.players[d]
    {
      if d != c {
        assert d !in {c};
      }
    }
    assert t.players.Keys == s.players.Keys;
  }

  lemma ReachableStep(s: State, step: Step)
    requires Reachable(s)
    ensures Reachable(Next(s, step))
  {
    var steps :| Reach(steps) == s;
    assert (steps + [step])[..|steps|] == steps;
    assert Reach(steps + [step]) == Next(s, step);
  }

  lemma NotListed(s: State, c: int, r: nat)
    requires Inv(s) && c in s.players && s.players[c].roomId == 0 && r in s.rooms
    ensures c !in s.rooms[r].players && c !in s.rooms[r].observers
  {
    NoRoomZero(s);
    assert RoomOk(s, r, {});
  }

  /** A running game can be watched, by accounts that are not rejected; anything else is refused. */
  lemma ObservingSeats(s: State, c: int, r: nat)
    requires Reachable(s) && SenderInLobby(s, c) && r in s.rooms
    ensures var t, room := Next(s, ObserveRoom(c, r)), s.rooms[r];
      if room.luaRefs > 0 && s.players[c].id !in room.rejected
      then
        && r in t.rooms && t.rooms[r] == room.(observers := t.rooms[r].observers)
        && t.rooms[r].observers == room.observers + [c]
        && c in t.players && t.players[c] == s.players[c].(roomId := r) && c !in t.lobby && Elsewhere(s, t, {c}, r)
      else t == s
  {
    hide Reachable;
    ReachableKeeps(s);
    NoRoomZero(s);
    hide Inv;
  }

  /** A new room has the capacity asked for, as 64 bits hold it, no game and nobody rejected; its maker sits in it
      and owns it if it has a seat at all, and stays in the lobby otherwise. */
  lemma CreatingRoom(s: State, c: int, capacity: int)
    requires Reachable(s) && SenderInLobby(s, c) && capacity != -1
    ensures var t, r := Next(s, CreateRoom(c, capacity)), s.nextRoom;
      && r !in s.rooms && r in t.rooms && t.nextRoom == r + 1
      && t.rooms[r].capacity == capacity % 0x1_0000_0000_0000_0000 && t.rooms[r].luaRefs == 0
      && t.rooms[r].rejected == [] && t.rooms[r].observers == [] && t.rooms[r].npcs == {}
      && (if t.rooms[r].capacity > 0
          then t.rooms[r].players == [c] && t.rooms[r].owner == c && c !in t.lobby && c in t.players
               && t.players[c] == s.players[c].(roomId := r) && Elsewhere(s, t, {c}, r)
          else t.rooms[r].players == [] && t.rooms[r].owner == 0 && t.players == s.players && t.lobby == s.lobby
               && Elsewhere(s, t, {}, r))
  {
    hide Reachable, Inv, AddPlayer, LeaveLobbyFor, SatDown;
    ReachableKeeps(s);
    NotARobot(s, c);
    NewRoomNumber(s);
    var r := s.nextRoom;
    var u := SetRoom(s, r, Room([], [], 0, ToSize(capacity), 0, [], {})).(nextRoom := r + 1);
    var t := Next(s, CreateRoom(c, capacity));
    TakenIn(u, r, c);
    NumbersKept(u, r, c);
    assert t == LeaveLobbyFor(AddPlayer(u, r, c), r, c);
    hide Next, ToSize;
    if ToSize(capacity) > 0 {
      Opened(s, u, t, c, r);
    }
    assert capacity % 0x1_0000_0000_0000_0000 == ToSize(capacity) by {
      SizeIs(capacity);
    }
  }

  lemma SizeIs(n: int)
    ensures ToSize(n) == n % 0x1_0000_0000_0000_0000
  {
  }

  lemma NumbersKept(s: State, r: nat, c: int)
    requires r in s.rooms && c in s.players
    ensures c in AddPlayer(s, r, c).players && LeaveLobbyFor(AddPlayer(s, r, c), r, c).nextRoom == s.nextRoom
  {
  }

  lemma Opened(s: State, u: State, t: State, c: int, r: nat)
    requires r !in s.rooms && r in u.rooms && u == s.(rooms := s.rooms[r := u.rooms[r]], nextRoom := u.nextRoom)
    requires c in s.players && c in u.players && SatDown(u, t, c, r) && u.rooms[r].players == [] && u.rooms[r].owner == 0
    ensures r in t.rooms && t.rooms[r].players == [c] && t.rooms[r].owner == c && c !in t.lobby && c in t.players
    ensures t.players[c] == s.players[c].(roomId := r) && Elsewhere(s, t, {c}, r) && SameSettings(u.rooms[r], t.rooms[r])
    ensures t.rooms[r].observers == u.rooms[r].observers
  {
    assert [] + [c] == [c];
  }

  lemma NewRoomNumber(s: State)
    requires Inv(s)
    ensures s.nextRoom !in s.rooms && s.nextRoom != 0
  {
    assert forall r :: r in s.rooms ==> RoomOk(s, r, {});
  }

  // ---------------------------------------------------------------- robots

  /** A new robot without a socket, known by a new negative id, in room `where`. */
  predicate Made(s: State, t: State, where: nat) {
    && t.nextConn == s.nextConn + 1 && t.nextRobot == s.nextRobot - 1
    && s.nextConn in t.players && t.players[s.nextConn] == Player(s.nextRobot, Robot, 0, where)
    && t.robots == s.robots[s.nextRobot := s.nextConn] && t.online == s.online
    && s.nextConn !in s.players && s.nextRobot !in s.robots && s.nextRobot < 0 && s.nextConn !in t.lobby
  }

  lemma NewNumbers(s: State)
    requires Reachable(s)
    ensures s.nextConn !in s.players && s.nextConn !in s.lobby && s.nextRobot !in s.robots && s.nextRobot < 0
  {
    hide Reachable;
    ReachableKeeps(s);
    assert forall d :: d in s.players ==> PlayerOk(s, d) && d < s.nextConn;
    forall a | a in s.robots
      ensures a != s.nextRobot
    {
      assert PlayerOk(s, s.robots[a]);
    }
  }

  /** Only the owner adds robots, and only while a seat is free; the robot sits in it unless a game runs. */
  lemma AddingRobot(s: State, c: int)
    requires Reachable(s) && SenderInRoom(s, c)
    ensures var r := s.players[c].roomId;
      var t, x, room := Next(s, AddRobot(c)), s.nextConn, s.rooms[r];
      var sits := room.luaRefs <= 0 && s.nextRobot !in room.rejected;
      if c != room.owner || |room.players| >= room.capacity then t == s
      else
        && Made(s, t, if sits then r else 0) && Elsewhere(s, t, {x}, r)
        && r in t.rooms && t.rooms[r] == room.(players := t.rooms[r].players)
        && t.rooms[r].players == room.players + (if sits then [x] else [])
  {
    hide Reachable, Inv, AddPlayer, CreateRobot, Made;
    NewNumbers(s);
    ReachableKeeps(s);
    NotARobot(s, c);
    ConnectedId(s, c);
    var r := s.players[c].roomId;
    if c == s.rooms[r].owner && |s.rooms[r].players| < s.rooms[r].capacity {
      RobotSits(s, r);
    }
  }

  lemma ConnectedId(s: State, c: int)
    requires Inv(s) && c in s.players
    ensures c != 0
  {
    assert PlayerOk(s, c);
  }

  lemma RobotSits(s: State, r: nat)
    requires r in s.rooms && s.rooms[r].owner != 0 && |s.rooms[r].players| < s.rooms[r].capacity
    requires s.nextConn !in s.players && s.nextConn !in s.lobby && s.nextRobot !in s.robots && s.nextRobot < 0
    ensures var x, room := s.nextConn, s.rooms[r];
      var sits := room.luaRefs <= 0 && s.nextRobot !in room.rejected;
      && x in CreateRobot(s).players && r in CreateRobot(s).rooms
      && var t := AddPlayer(CreateRobot(s), r, x);
      && Made(s, t, if sits then r else 0) && Elsewhere(s, t, {x}, r)
      && r in t.rooms && t.rooms[r] == room.(players := t.rooms[r].players)
      && t.rooms[r].players == room.players + (if sits then [x] else [])
  {
    assert s.rooms[r].players + [] == s.rooms[r].players;
  }

  /** Lua's robots are seated whatever the capacity. */
  lemma AddingNpc(s: State, r: nat)
    requires Reachable(s) && r in s.rooms
    ensures var t, x, room := Next(s, AddNpc(r)), s.nextConn, s.rooms[r];
      && Made(s, t, r) && Elsewhere(s, t, {x}, r) && r in t.rooms
      && t.rooms[r].players == room.players + [x] && t.rooms[r].npcs == room.npcs + {x}
      && t.rooms[r] == room.(players := t.rooms[r].players, npcs := t.rooms[r].npcs)
  {
    NewNumbers(s);
    hide Reachable;
  }

  // ---------------------------------------------------------------- settings

  /** Only the owner changes the capacity, and never below the members present; nothing else changes. */
  lemma ChangingRoom(s: State, c: int, capacity: int)
    requires SenderInRoom(s, c)
    ensures var r := s.players[c].roomId;
      var t, room := Next(s, ChangeRoom(c, capacity)), s.rooms[r];
      && r in t.rooms && t == s.(rooms := t.rooms) && Elsewhere(s, t, {}, r)
      && t.rooms[r] == room.(capacity := t.rooms[r].capacity)
      && t.rooms[r].capacity == if c == room.owner && |room.players| <= capacity then capacity else room.capacity
  {
    assert s.rooms == s.rooms[s.players[c].roomId := s.rooms[s.players[c].roomId]];
  }

  /** A game runs afterwards exactly when one ran before or the room is full, and Lua holds one reference more
      exactly when it is a new one; nothing else changes. */
  lemma StartingGame(s: State, c: int)
    requires SenderInRoom(s, c)
    ensures var r := s.players[c].roomId;
      var t, room := Next(s, StartGame(c)), s.rooms[r];
      && r in t.rooms && t == s.(rooms := t.rooms) && Elsewhere(s, t, {}, r)
      && t.rooms[r] == room.(luaRefs := t.rooms[r].luaRefs)
      && t.rooms[r].luaRefs == room.luaRefs + if room.luaRefs <= 0 && |room.players| >= room.capacity then 1 else 0
  {
    assert s.rooms == s.rooms[s.players[c].roomId := s.rooms[s.players[c].roomId]];
  }

  /** Lua lets go of one reference, and with the last one the end-of-game check is queued, behind all others. */
  lemma ReleasingRoom(s: State, r: nat)
    requires r in s.rooms
    ensures var t, room := Next(s, LuaRelease(r)), s.rooms[r];
      && r in t.rooms && t == s.(rooms := t.rooms, checks := t.checks) && Elsewhere(s, t, {}, r)
      && t.rooms[r] == room.(luaRefs := t.rooms[r].luaRefs) && t.rooms[r].luaRefs == room.luaRefs - 1
      && t.checks == s.checks + if t.rooms[r].luaRefs > 0 then [] else [Check(r, NoRefCount)]
  {
    assert s.checks + [] == s.checks;
  }

  /** A game that is started and released leaves the room as it was, with its end-of-game check queued. */
  lemma StartThenRelease(s: State, c: int)
    requires SenderInRoom(s, c)
    requires var room := s.rooms[s.players[c].roomId]; room.luaRefs == 0 && |room.players| >= room.capacity
    ensures var r := s.players[c].roomId;
      var t := Next(Next(s, StartGame(c)), LuaRelease(r));
      t.rooms == s.rooms && t.players == s.players && t.checks == s.checks + [Check(r, NoRefCount)]
  {
    var r := s.players[c].roomId;
    var t := Next(s, StartGame(c));
    StartingGame(s, c);
    ReleasingRoom(t, r);
    hide Next;
    assert Next(t, LuaRelease(r)).rooms == s.rooms;
  }

  /** Inside a game auto-play is turned on and off; outside nothing happens. */
  lemma TogglingTrust(s: State, c: int)
    requires SenderInRoom(s, c)
    ensures var t := Next(s, ToggleTrust(c));
      && c in t.players && t == s.(players := t.players) && Elsewhere(s, t, {c}, 0)
      && t.players[c] == s.players[c].(status := t.players[c].status)
      && t.players[c].status ==
         if s.rooms[s.players[c].roomId].luaRefs <= 0 then s.players[c].status
         else if s.players[c].status == Trust then Online else Trust
  {
    assert s.players == s.players[c := s.players[c]];
  }

  /** The end of a game takes exactly the accounts among the room's players off auto-play. */
  lemma GameEnds(s: State, r: nat)
    requires r in s.rooms
    ensures var t := Next(s, GameOver(r));
      && t == s.(players := t.players) && t.players.Keys == s.players.Keys
      && forall d :: d in s.players ==>
           t.players[d] == s.players[d].(status := if OnTrust(s, d) && d in s.rooms[r].players then Online else s.players[d].status)
  {
    EndsFor(s, s.rooms[r].players);
  }

  predicate OnTrust(s: State, c: int) {
    c in s.players && s.players[c].id > 0 && s.players[c].status == Trust
  }

  lemma {:induction false} EndsFor(s: State, members: seq<int>)
    ensures var t := DoGameOver(s, members);
      && t == s.(players := t.players) && t.players.Keys == s.players.Keys
      && forall d :: d in s.players ==>
           t.players[d] == s.players[d].(status := if OnTrust(s, d) && d in members then Online else s.players[d].status)
    decreases |members|
  {
    if members != [] {
      var c := members[0];
      assert forall d :: d in members <==> d == c || d in members[1..];
      EndsFor(if OnTrust(s, c) then SetStatus(s, c, Online) else s, members[1..]);
    }
  }

  /** The administrator's check is queued behind all others; forgetting a rejection takes its first occurrence off
      the list. */
  lemma PostingAndForgetting(s: State, r: nat, id: int)
    requires r in s.rooms
    ensures Next(s, PostCheck(r)) == s.(checks := Next(s, PostCheck(r)).checks)
    ensures Next(s, PostCheck(r)).checks == s.checks + [Check(r, NoHuman)]
    ensures var t := Next(s, ForgetReject(r, id));
      && r in t.rooms && t == s.(rooms := t.rooms) && Elsewhere(s, t, {}, r)
      && t.rooms[r] == s.rooms[r].(rejected := t.rooms[r].rejected)
      && multiset(t.rooms[r].rejected) == multiset(s.rooms[r].rejected) - multiset{id}
  {
    EraseOne(s.rooms[r].rejected, id);
  }

  lemma {:induction false} EraseOne(xs: seq<int>, c: int)
    ensures multiset(Erase(xs, c)) == multiset(xs) - multiset{c}
    decreases |xs|
  {
    if xs != [] {
      assert xs == [xs[0]] + xs[1..];
      EraseOne(xs[1..], c);
    }
  }
}
