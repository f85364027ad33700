/** Ids, queued checks and owners over single operations: what every one of them keeps, whatever state it is
    applied to in the middle of an event. */
module LifecycleBounds {
  import opened Basics
  import opened Lifecycle
  import opened LifecycleInvariant
  import opened LifecycleSteps

  /** Ids in use are below the counters, a connected player has an account, and one whose room id is the
      lobby's is listed there. */
  ghost predicate Tame(s: State) {
    && 0 < s.nextConn
    && (forall k :: k in s.checks ==> k.room < s.nextRoom)
    && (forall r :: r in s.rooms ==> 0 < r < s.nextRoom)
    && (forall c :: c in s.players ==> 0 < c < s.nextConn)
    && (forall c :: c in s.lobby ==> c < s.nextConn)
    && (forall c :: Connected(s, c) ==> s.players[c].id > 0)
    && (forall c :: Connected(s, c) && s.players[c].roomId == 0 ==> c in s.lobby)
    && (forall r :: r in s.rooms ==> forall c :: c in s.rooms[r].players ==> c < s.nextConn)
  }

  /** A room without owner has no connected member. */
  predicate Safe(s: State, r: nat) {
    r in s.rooms && s.rooms[r].owner == 0 ==> IsAbandoned(s, s.rooms[r].players)
  }

  ghost predicate Goes(s: State, t: State) {
    && Tame(t)
    && s.nextConn <= t.nextConn && s.nextRoom <= t.nextRoom
    && forall r :: Safe(s, r) ==> Safe(t, r)
  }

  /** No room and no check changed, and no member of a room gained a connection. */
  lemma SameRooms(s: State, t: State)
    requires Tame(s) && Tame(t) && t.rooms == s.rooms && s.nextConn <= t.nextConn && s.nextRoom <= t.nextRoom
    requires forall c :: Connected(t, c) ==> Connected(s, c) || s.nextConn <= c
    ensures Goes(s, t)
  {
    forall r | Safe(s, r)
      ensures Safe(t, r)
    {
    }
  }

  // ---------------------------------------------------------------- leaving

  lemma EraseGoes(s: State, r: nat, c: int)
    requires Tame(s) && r in s.rooms
    ensures Goes(s, SetRoom(s, r, s.rooms[r].(players := Erase(s.rooms[r].players, c))))
  {
    var room := s.rooms[r];
    var t := SetRoom(s, r, room.(players := Erase(room.players, c)));
    EraseFewer(room.players, c);
    assert forall d :: Connected(t, d) == Connected(s, d);
    forall q | Safe(s, q)
      ensures Safe(t, q)
    {
    }
  }

  lemma {:induction false} EraseFewer(xs: seq<int>, c: int)
    ensures forall x :: x in Erase(xs, c) ==> x in xs
    decreases |xs|
  {
    if xs != [] && xs[0] != c {
      EraseFewer(xs[1..], c);
    }
  }

  lemma RunAwayGoes(s: State, c: int, p: Player)
    requires Tame(s) && (p.sock != 0 ==> p.id > 0)
    ensures Goes(s, RunAway(s, c, p)) && RunAway(s, c, p).rooms == s.rooms
  {
    var t := RunAway(s, c, p);
    RunAwayShape(s, c, p);
    hide RunAway;
    RunAwayTame(s, t);
    hide Tame;
    SameRooms(s, t);
  }

  lemma RunAwayShape(s: State, c: int, p: Player)
    ensures var t := RunAway(s, c, p);
      && t == s.(players := t.players, online := t.online, robots := t.robots, lobby := s.lobby + {s.nextConn},
                 handlers := t.handlers, nextConn := s.nextConn + 1)
      && t.players.Keys == s.players.Keys + {s.nextConn}
      && t.players[s.nextConn] == Player(p.id, Online, p.sock, 0)
      && t.online == (if p.id > 0 then s.online[p.id := s.nextConn] else s.online)
      && forall d :: d in s.players && d != s.nextConn ==>
           t.players[d] == if d == c then p.(status := Run, sock := 0) else s.players[d]
  {
    hide Bind, Release;
  }

  lemma RunAwayTame(s: State, t: State)
    requires Tame(s) && t == s.(players := t.players, online := t.online, robots := t.robots,
                                lobby := s.lobby + {s.nextConn}, handlers := t.handlers, nextConn := s.nextConn + 1)
    requires t.players.Keys == s.players.Keys + {s.nextConn}
    requires t.players[s.nextConn].sock != 0 ==> t.players[s.nextConn].id > 0
    requires forall d :: d in s.players ==> t.players[d] == s.players[d] || t.players[d].sock == 0
    ensures Tame(t) && forall d :: Connected(t, d) ==> Connected(s, d) || d == s.nextConn
  {
    assert forall d :: Connected(t, d) && d != s.nextConn ==> Connected(s, d) && t.players[d] == s.players[d];
  }

  lemma AfterLeaveGoes(s: State, r: nat, c: int)
    requires Tame(s) && r in s.rooms
    ensures Goes(s, AfterLeave(s, r, c))
  {
    var t, room := AfterLeave(s, r, c), s.rooms[r];
    if !IsAbandoned(s, room.players) {
      FirstConnectedFound(s, room.players);
    }
    AfterLeavePeople(s, r, c);
    assert forall d :: Connected(t, d) == Connected(s, d);
    forall q | Safe(s, q)
      ensures Safe(t, q)
    {
    }
  }

  lemma ObserverGoes(s: State, r: nat, observers: seq<int>)
    requires Tame(s) && r in s.rooms
    ensures Goes(s, SetRoom(s, r, s.rooms[r].(observers := observers)))
  {
    var t := SetRoom(s, r, s.rooms[r].(observers := observers));
    assert forall d :: Connected(t, d) == Connected(s, d);
    forall q | Safe(s, q)
      ensures Safe(t, q)
    {
    }
  }

  lemma GoesTrans(s: State, t: State, u: State)
    requires Goes(s, t) && Goes(t, u)
    ensures Goes(s, u)
  {
  }

  lemma GoesSame(s: State)
    requires Tame(s)
    ensures Goes(s, s)
  {
  }

  lemma RemoveGoes(s: State, r: nat, c: int, p: Player)
    requires Tame(s) && r in s.rooms && (p.sock != 0 ==> p.id > 0)
    ensures Goes(s, RemovePlayer(s, r, c, p))
  {
    hide Goes, Tame, AfterLeave, RunAway;
    var room := s.rooms[r];
    if c in room.observers {
      ObserverGoes(s, r, Erase(room.observers, c));
    } else if c !in room.players {
      GoesSame(s);
    } else if room.luaRefs <= 0 {
      var u := SetRoom(s, r, room.(players := Erase(room.players, c)));
      EraseGoes(s, r, c);
      GoesTame(s, u);
      AfterLeaveGoes(u, r, c);
      GoesTrans(s, u, AfterLeave(u, r, c));
    } else {
      RunAwayGoes(s, c, p);
      GoesTame(s, RunAway(s, c, p));
      AfterLeaveGoes(RunAway(s, c, p), r, c);
      GoesTrans(s, RunAway(s, c, p), AfterLeave(RunAway(s, c, p), r, c));
    }
  }

  lemma GoesTame(s: State, t: State)
    requires Goes(s, t)
    ensures Tame(t)
  {
  }

  // ---------------------------------------------------------------- players that go, come and move

  /** Only players, accounts, handlers and the lobby changed, and nobody gained a connection. */
  lemma PeopleGoes(s: State, t: State)
    requires Tame(s)
    requires t == s.(players := t.players, online := t.online, robots := t.robots, lobby := t.lobby, handlers := t.handlers)
    requires forall c :: c in t.players ==> c in s.players
    requires forall c :: c in t.lobby ==> c in s.lobby || c in s.players
    requires forall c :: Connected(t, c) ==>
      Connected(s, c) && t.players[c].id == s.players[c].id && (t.players[c].roomId == 0 ==> c in t.lobby)
    ensures Goes(s, t)
  {
    SameRooms(s, t);
  }

  lemma DeleteGoes(s: State, c: int)
    requires Tame(s) && c in s.players
    ensures Goes(s, DeletePlayer(s, c))
  {
    var p := s.players[c];
    assert p.sock != 0 ==> Connected(s, c);
    var s1 := Unregister(s, c, p);
    PeopleGoes(s, s1);
    var s2 := if p.roomId == 0 then s1.(lobby := s1.lobby - {c})
              else if p.roomId in s1.rooms then RemovePlayer(s1, p.roomId, c, p)
              else s1;
    if p.roomId == 0 {
      PeopleGoes(s1, s2);
    } else if p.roomId in s1.rooms {
      RemoveGoes(s1, p.roomId, c, p);
    } else {
      GoesSame(s1);
    }
    GoesTrans(s, s1, s2);
    var t := DeletePlayer(s, c);
    hide RemovePlayer;
    assert t == s2.(handlers := t.handlers);
    PeopleGoes(s2, t);
    GoesTrans(s, s2, t);
  }

  lemma EnterLobbyGoes(s: State, c: int)
    requires Tame(s) && c in s.players
    ensures Goes(s, EnterLobby(s, c))
  {
    PeopleGoes(s, EnterLobby(s, c));
  }

  lemma LobbyAddGoes(s: State, c: int)
    requires Tame(s) && c in s.players
    ensures Goes(s, LobbyAdd(s, c))
  {
    DeleteGoes(s, c);
    EnterLobbyGoes(s, c);
  }

  lemma {:induction false} DeleteAllGoes(s: State, gone: seq<int>)
    requires Tame(s)
    ensures Goes(s, DeleteAll(s, gone))
    decreases |gone|
  {
    hide Goes, Tame, DeletePlayer;
    if gone == [] {
      GoesSame(s);
    } else {
      var u := if gone[0] in s.players then DeletePlayer(s, gone[0]) else s;
      if gone[0] in s.players {
        DeleteGoes(s, gone[0]);
      } else {
        GoesSame(s);
      }
      GoesTame(s, u);
      DeleteAllGoes(u, gone[1..]);
      GoesTrans(s, u, DeleteAll(u, gone[1..]));
    }
  }

  lemma {:induction false} SendHomeGoes(s: State, members: seq<int>)
    requires Tame(s)
    ensures Goes(s, SendHome(s, members))
    decreases |members|
  {
    hide Goes, Tame, DeletePlayer, LobbyAdd;
    if members == [] {
      GoesSame(s);
    } else {
      var c := members[0];
      var u := if c !in s.players then s else if s.players[c].sock != 0 then LobbyAdd(s, c) else DeletePlayer(s, c);
      if c in s.players {
        DeleteGoes(s, c);
        LobbyAddGoes(s, c);
      } else {
        GoesSame(s);
      }
      GoesTame(s, u);
      SendHomeGoes(u, members[1..]);
      GoesTrans(s, u, SendHome(u, members[1..]));
    }
  }

  /** Only the list of members shrinks. */
  lemma FewerMembersGoes(s: State, r: nat, members: seq<int>)
    requires Tame(s) && r in s.rooms && forall c :: c in members ==> c in s.rooms[r].players
    ensures Goes(s, SetRoom(s, r, s.rooms[r].(players := members)))
  {
    var t := SetRoom(s, r, s.rooms[r].(players := members));
    assert forall d :: Connected(t, d) == Connected(s, d);
    forall q | Safe(s, q)
      ensures Safe(t, q)
    {
    }
  }

  lemma SweepGoes(s: State, r: nat)
    requires Tame(s) && r in s.rooms
    ensures Goes(s, SweepAbsent(s, r))
  {
    var gone := Absent(s, s.rooms[r].players);
    var u := DeleteAll(s, gone);
    DeleteAllGoes(s, gone);
    hide Goes, Tame, DeleteAll, Absent;
    if r in u.rooms {
      GoesTame(s, u);
      WithoutMembers(u.rooms[r].players, set c | c in gone);
      FewerMembersGoes(u, r, Without(u.rooms[r].players, set c | c in gone));
      GoesTrans(s, u, SweepAbsent(s, r));
    }
  }

  lemma DropRoomGoes(s: State, r: nat)
    requires Tame(s)
    ensures Goes(s, s.(rooms := s.rooms - {r}))
  {
    var t := s.(rooms := s.rooms - {r});
    assert forall d :: Connected(t, d) == Connected(s, d);
    forall q | Safe(s, q)
      ensures Safe(t, q)
    {
    }
  }

  lemma CheckGoes(s: State, r: nat, reason: Reason)
    requires Tame(s) && r in s.rooms
    ensures Goes(s, CheckAbandoned(s, r, reason))
  {
    var u := if reason == NoRefCount then SweepAbsent(s, r) else s;
    if reason == NoRefCount {
      SweepGoes(s, r);
    } else {
      GoesSame(s);
    }
    hide Goes, Tame, SweepAbsent, SendHome;
    if r in u.rooms && IsAbandoned(u, u.rooms[r].players) && u.rooms[r].luaRefs <= 0 {
      var v := u.(rooms := u.rooms - {r});
      GoesTame(s, u);
      DropRoomGoes(u, r);
      GoesTame(u, v);
      SendHomeGoes(v, u.rooms[r].players + u.rooms[r].observers);
      GoesTrans(u, v, DestroyRoom(u, r));
      GoesTrans(s, u, DestroyRoom(u, r));
    }
  }

  lemma PopGoes(s: State)
    requires Tame(s) && s.checks != []
    ensures Goes(s, s.(checks := s.checks[1..]))
  {
    var t := s.(checks := s.checks[1..]);
    assert forall k :: k in t.checks ==> k in s.checks;
    SameRooms(s, t);
  }

  lemma RunCheckGoes(s: State)
    requires Tame(s) && s.checks != []
    ensures Goes(s, DoRunCheck(s))
  {
    var u := s.(checks := s.checks[1..]);
    PopGoes(s);
    hide Goes, Tame, CheckAbandoned;
    if s.checks[0].room in u.rooms {
      GoesTame(s, u);
      CheckGoes(u, s.checks[0].room, s.checks[0].reason);
      GoesTrans(s, u, DoRunCheck(s));
    }
  }

  // ---------------------------------------------------------------- seats

  /** A room changed whose members and owner are as before, or that got an owner. */
  lemma OneRoomGoes(s: State, t: State, r: nat)
    requires Tame(s) && Tame(t) && r in t.rooms
    requires s.nextConn <= t.nextConn && s.nextRoom <= t.nextRoom
    requires forall q :: q in t.rooms && q != r ==> q in s.rooms && t.rooms[q] == s.rooms[q]
    requires forall c :: Connected(t, c) ==> Connected(s, c) || s.nextConn <= c
    requires Safe(s, r) ==> Safe(t, r)
    ensures Goes(s, t)
  {
    forall q | Safe(s, q)
      ensures Safe(t, q)
    {
    }
  }

  lemma AddPlayerGoes(s: State, r: nat, c: int)
    requires Tame(s) && r in s.rooms && c in s.players
    ensures Goes(s, LeaveLobbyFor(AddPlayer(s, r, c), r, c))
  {
    var t := LeaveLobbyFor(AddPlayer(s, r, c), r, c);
    AddPlayerShape(s, r, c);
    hide AddPlayer, LeaveLobbyFor;
    SeatTame(s, t, r, c);
    hide Tame;
    OneRoomGoes(s, t, r);
  }

  lemma ObserverTame(s: State, t: State, r: nat, c: int)
    requires Tame(s) && r in s.rooms && c in s.players && r in t.rooms
    requires t == s.(players := s.players[c := s.players[c].(roomId := r)], rooms := s.rooms[r := t.rooms[r]],
                     lobby := s.lobby - {c})
    requires t.rooms[r].players == s.rooms[r].players && t.rooms[r].owner == s.rooms[r].owner
    ensures Tame(t) && (Safe(s, r) ==> Safe(t, r)) && forall d :: Connected(t, d) == Connected(s, d)
  {
    assert forall d :: Connected(t, d) == Connected(s, d);
  }

  /** Either nothing happened but that `c`, already of this room, left the lobby, or `c` has a seat. */
  lemma AddPlayerShape(s: State, r: nat, c: int)
    requires r in s.rooms && c in s.players && c != 0
    ensures var t := LeaveLobbyFor(AddPlayer(s, r, c), r, c);
      && t == s.(players := t.players, rooms := t.rooms, lobby := t.lobby)
      && t.players.Keys == s.players.Keys && (forall d :: d in s.players && d != c ==> t.players[d] == s.players[d])
      && t.players[c] == s.players[c].(roomId := t.players[c].roomId)
      && (t.players[c].roomId == r || t.players[c].roomId == s.players[c].roomId)
      && t.lobby == (if t.players[c].roomId == r then s.lobby - {c} else s.lobby)
      && t.rooms.Keys == s.rooms.Keys && (forall q :: q in s.rooms && q != r ==> t.rooms[q] == s.rooms[q])
      && (t.rooms[r].players == s.rooms[r].players || t.rooms[r].players == s.rooms[r].players + [c])
      && (t.rooms[r].owner == s.rooms[r].owner || t.rooms[r].owner == c)
      && (t.rooms[r].owner == 0 ==> t.rooms[r].players == s.rooms[r].players || s.players[c].id < 0)
  {
    var t := LeaveLobbyFor(AddPlayer(s, r, c), r, c);
    hide IsFull;
    if AddPlayer(s, r, c) == s {
      assert t == s.(lobby := t.lobby);
    }
  }

  lemma SeatTame(s: State, t: State, r: nat, c: int)
    requires Tame(s) && r in s.rooms && c in s.players && r in t.rooms
    requires t == s.(players := t.players, rooms := t.rooms, lobby := t.lobby)
    requires t.players.Keys == s.players.Keys && forall d :: d in s.players && d != c ==> t.players[d] == s.players[d]
    requires t.players[c] == s.players[c].(roomId := t.players[c].roomId)
    requires t.players[c].roomId == r || t.players[c].roomId == s.players[c].roomId
    requires t.lobby == if t.players[c].roomId == r then s.lobby - {c} else s.lobby
    requires t.rooms.Keys == s.rooms.Keys && forall q :: q in s.rooms && q != r ==> t.rooms[q] == s.rooms[q]
    requires t.rooms[r].players == s.rooms[r].players || t.rooms[r].players == s.rooms[r].players + [c]
    requires t.rooms[r].owner == 0 ==> t.rooms[r].players == s.rooms[r].players || s.players[c].id < 0
    requires t.rooms[r].owner == s.rooms[r].owner || t.rooms[r].owner == c
    ensures Tame(t) && (Safe(s, r) ==> Safe(t, r)) && forall d :: Connected(t, d) == Connected(s, d)
  {
    assert forall d :: Connected(t, d) == Connected(s, d);
    assert forall d :: d in t.rooms[r].players ==> d in s.rooms[r].players || d == c;
  }

  lemma AddObserverGoes(s: State, r: nat, c: int)
    requires Tame(s) && r in s.rooms && c in s.players
    ensures Goes(s, LeaveLobbyFor(AddObserver(s, r, c), r, c))
  {
    var t := LeaveLobbyFor(AddObserver(s, r, c), r, c);
    if AddObserver(s, r, c) == s {
      assert t == s.(lobby := t.lobby);
      PeopleGoes(s, t);
    } else {
      assert t.rooms == s.rooms[r := t.rooms[r]] && t.players == s.players[c := s.players[c].(roomId := r)];
      assert t == s.(rooms := t.rooms, players := t.players, lobby := s.lobby - {c});
      hide AddObserver, LeaveLobbyFor;
      ObserverTame(s, t, r, c);
      hide Tame;
      OneRoomGoes(s, t, r);
    }
  }

  lemma CreateRoomGoes(s: State, c: int, capacity: nat)
    requires Tame(s) && c in s.players && 0 < s.nextRoom
    ensures Goes(s, DoCreateRoom(s, c, capacity))
  {
    var r := s.nextRoom;
    var u := SetRoom(s, r, Room([], [], 0, capacity, 0, [], {})).(nextRoom := r + 1);
    EmptyRoomGoes(s, u, r);
    GoesTame(s, u);
    hide Goes, Tame, AddPlayer, LeaveLobbyFor;
    AddPlayerGoes(u, r, c);
    GoesTrans(s, u, DoCreateRoom(s, c, capacity));
  }

  lemma EmptyRoomGoes(s: State, u: State, r: nat)
    requires Tame(s) && 0 < s.nextRoom == r && u == s.(rooms := u.rooms, nextRoom := r + 1)
    requires r in u.rooms && u.rooms == s.rooms[r := u.rooms[r]] && u.rooms[r].players == []
    ensures Goes(s, u)
  {
    assert forall d :: Connected(u, d) == Connected(s, d);
    OneRoomGoes(s, u, r);
  }

  lemma CreateRobotGoes(s: State)
    requires Tame(s)
    ensures Goes(s, CreateRobot(s)) && s.nextConn in CreateRobot(s).players && CreateRobot(s).players[s.nextConn].sock == 0
  {
    var t := CreateRobot(s);
    assert forall d :: Connected(t, d) ==> Connected(s, d);
    SameRooms(s, t);
  }

  lemma AddRobotGoes(s: State, r: nat, c: int)
    requires Tame(s) && r in s.rooms
    ensures Goes(s, DoAddRobot(s, r, c))
  {
    GoesSame(s);
    var u := CreateRobot(s);
    CreateRobotGoes(s);
    AddPlayerGoes(u, r, s.nextConn);
    var t := AddPlayer(u, r, s.nextConn);
    var v := LeaveLobbyFor(t, r, s.nextConn);
    RobotNotInLobby(u, r, s.nextConn);
    GoesTrans(s, u, t);
  }

  /** A robot is never in the lobby's way: seating it needs no step out of the lobby. */
  lemma RobotNotInLobby(s: State, r: nat, c: int)
    requires Tame(s) && r in s.rooms && c in s.players && s.players[c].sock == 0
    requires Goes(s, LeaveLobbyFor(AddPlayer(s, r, c), r, c))
    ensures Goes(s, AddPlayer(s, r, c))
  {
    var t, v := AddPlayer(s, r, c), LeaveLobbyFor(AddPlayer(s, r, c), r, c);
    assert forall d :: Connected(t, d) == Connected(v, d);
    assert t == v.(lobby := t.lobby) && v.lobby <= t.lobby;
    forall q | Safe(v, q)
      ensures Safe(t, q)
    {
    }
  }

  lemma AddNpcGoes(s: State, r: nat)
    requires Tame(s) && r in s.rooms
    ensures Goes(s, DoAddNpc(s, r))
  {
    var u, t := CreateRobot(s), DoAddNpc(s, r);
    CreateRobotGoes(s);
    GoesTame(s, u);
    hide CreateRobot;
    NpcTame(u, t, r, s.nextConn);
    hide Tame;
    OneRoomGoes(u, t, r);
    GoesTrans(s, u, t);
  }

  lemma NpcTame(s: State, t: State, r: nat, c: int)
    requires Tame(s) && r in s.rooms && c in s.players && s.players[c].sock == 0 && r in t.rooms
    requires t == s.(players := s.players[c := s.players[c].(roomId := r)], rooms := s.rooms[r := t.rooms[r]])
    requires t.rooms[r].players == s.rooms[r].players + [c] && t.rooms[r].owner == s.rooms[r].owner
    ensures Tame(t) && (Safe(s, r) ==> Safe(t, r)) && forall d :: Connected(t, d) == Connected(s, d)
  {
    assert forall d :: Connected(t, d) == Connected(s, d);
  }

  /** Members, owner and connections stay; checks may be added for an existing room. */
  lemma SettingsGoes(s: State, t: State, r: nat)
    requires Tame(s) && r in s.rooms
    requires r in t.rooms && t == s.(rooms := s.rooms[r := t.rooms[r]], checks := t.checks)
    requires t.rooms[r].players == s.rooms[r].players && t.rooms[r].owner == s.rooms[r].owner
    requires forall k :: k in t.checks ==> k in s.checks || k.room == r
    ensures Goes(s, t)
  {
    assert forall d :: Connected(t, d) == Connected(s, d);
    OneRoomGoes(s, t, r);
  }

  lemma RemoveNpcGoes(s: State, r: nat, c: int)
    requires Tame(s) && r in s.rooms && c in s.players
    ensures Goes(s, DoRemoveNpc(s, r, c))
  {
    var u := WithoutSeat(s, r, c);
    GoesSame(s);
    EraseGoes(s, r, c);
    DeleteGoes(u, c);
    GoesTrans(s, u, DeletePlayer(u, c));
  }

  lemma StatusGoes(s: State, c: int, status: Status)
    requires Tame(s) && c in s.players
    ensures Goes(s, SetStatus(s, c, status))
  {
    PeopleGoes(s, SetStatus(s, c, status));
  }

  lemma {:induction false} GameOverGoes(s: State, members: seq<int>)
    requires Tame(s)
    ensures Goes(s, DoGameOver(s, members))
    decreases |members|
  {
    hide Goes, Tame;
    GoesSame(s);
    if members != [] {
      var c := members[0];
      var change := c in s.players && s.players[c].id > 0 && s.players[c].status == Trust;
      var u := if change then SetStatus(s, c, Online) else s;
      if change {
        StatusGoes(s, c, Online);
      }
      GoesTame(s, u);
      GameOverGoes(u, members[1..]);
      GoesTrans(s, u, DoGameOver(u, members[1..]));
    }
  }

  lemma QuitGoes(s: State, c: int)
    requires Tame(s) && c in s.players && s.players[c].roomId in s.rooms
    ensures Goes(s, DoQuit(s, c))
  {
    var u := RemovePlayer(s, s.players[c].roomId, c, s.players[c]);
    assert s.players[c].sock != 0 ==> Connected(s, c);
    RemoveGoes(s, s.players[c].roomId, c, s.players[c]);
    hide RemovePlayer, LobbyAdd;
    if c in u.players && u.players[c].status == Online {
      LobbyAddGoes(u, c);
      GoesTrans(s, u, LobbyAdd(u, c));
    }
  }

  lemma KickGoes(s: State, r: nat, id: int)
    requires Tame(s) && r in s.rooms
    ensures Goes(s, DoKick(s, r, id))
  {
    var x := FindPlayer(s, id);
    GoesSame(s);
    if !(id == 0 || x !in s.players || s.rooms[r].luaRefs > 0 || s.players[x].roomId != r) {
      var u := RemovePlayer(s, r, x, s.players[x]);
      assert s.players[x].sock != 0 ==> Connected(s, x);
      RemoveGoes(s, r, x, s.players[x]);
      hide RemovePlayer, LobbyAdd;
      var v := if x in u.players then LobbyAdd(u, x) else u;
      if x in u.players {
        LobbyAddGoes(u, x);
        GoesTrans(s, u, v);
      }
      if r in v.rooms {
        SettingsGoes(v, DoKick(s, r, id), r);
        GoesTrans(s, v, DoKick(s, r, id));
      }
    }
  }

  lemma SweepLobbyGoes(s: State, gone: seq<int>)
    requires Tame(s) && (set c | c in gone) == (set c | c in s.lobby && !Connected(s, c))
    ensures Goes(s, DoSweepLobby(s, gone))
  {
    var u := DeleteAll(s, gone);
    DeleteAllGoes(s, gone);
    GoneStay(s, gone);
    hide DeleteAll;
    var listed, idle := set c | c in gone, set c | c in s.lobby && !Connected(s, c);
    assert listed == idle && forall c :: c in gone ==> c in listed;
    PeopleGoes(u, DoSweepLobby(s, gone));
    GoesTrans(s, u, DoSweepLobby(s, gone));
  }

  /** Deleting players connects none of the older ones. */
  lemma {:induction false} GoneStay(s: State, gone: seq<int>)
    requires Tame(s)
    ensures s.nextConn <= DeleteAll(s, gone).nextConn
    ensures forall c :: Connected(DeleteAll(s, gone), c) && c < s.nextConn ==> Connected(s, c)
    decreases |gone|
  {
    hide Tame, DeletePlayer;
    if gone != [] {
      var u := if gone[0] in s.players then DeletePlayer(s, gone[0]) else s;
      if gone[0] in s.players {
        DeleteGoes(s, gone[0]);
        DeleteConnects(s, gone[0]);
        GoesTame(s, u);
      }
      GoneStay(u, gone[1..]);
    }
  }

  lemma FewerConnected(s: State, t: State, c: int)
    requires t.players == s.players - {c}
    ensures forall d :: Connected(t, d) ==> Connected(s, d)
  {
  }

  lemma DeleteConnects(s: State, c: int)
    requires c in s.players
    ensures s.nextConn <= DeletePlayer(s, c).nextConn
    ensures forall d :: Connected(DeletePlayer(s, c), d) && d < s.nextConn ==> Connected(s, d)
  {
    var p := s.players[c];
    var s1 := Unregister(s, c, p);
    assert s1.players == s.players - {c} && s1.nextConn == s.nextConn && s1.rooms == s.rooms;
    hide RemovePlayer, Unregister, Release, Connected;
    assert forall d :: Connected(s1, d) ==> Connected(s, d) by {
      FewerConnected(s, s1, c);
    }
    if p.roomId != 0 && p.roomId in s1.rooms {
      RemoveConnects(s1, p.roomId, c, p);
      var s2 := RemovePlayer(s1, p.roomId, c, p);
      assert DeletePlayer(s, c).players == s2.players && DeletePlayer(s, c).nextConn == s2.nextConn;
    }
  }

  lemma RemoveConnects(s: State, r: nat, c: int, p: Player)
    requires r in s.rooms
    ensures s.nextConn <= RemovePlayer(s, r, c, p).nextConn
    ensures forall d :: Connected(RemovePlayer(s, r, c, p), d) && d < s.nextConn ==> Connected(s, d)
  {
    var t, room := RemovePlayer(s, r, c, p), s.rooms[r];
    if c !in room.observers && c in room.players {
      if room.luaRefs <= 0 {
        assert t.players == s.players by {
          AfterLeavePeople(SetRoom(s, r, room.(players := Erase(room.players, c))), r, c);
        }
      } else {
        AfterLeavePeople(RunAway(s, c, p), r, c);
        RunAwayShape(s, c, p);
        hide AfterLeave, RunAway;
        assert t.players == RunAway(s, c, p).players;
      }
    }
  }

  lemma AfterLeavePeople(s: State, r: nat, c: int)
    requires r in s.rooms
    ensures var t := AfterLeave(s, r, c);
      t.players == s.players && t.online == s.online && t.lobby == s.lobby && t.nextConn == s.nextConn
      && t.rooms.Keys == s.rooms.Keys && t.rooms[r].luaRefs == s.rooms[r].luaRefs && t.rooms[r].players == s.rooms[r].players
      && t.rooms[r].observers == s.rooms[r].observers
  {
    hide IsAbandoned, FirstConnected;
  }

  // ---------------------------------------------------------------- events

  lemma SocketGoneGoes(s: State, sock: nat)
    requires Tame(s) && sock in s.handlers
    ensures Goes(s, DoSocketGone(s, sock))
  {
    var h := s.handlers[sock];
    GoesSame(s);
    if h.Session? && h.conn in s.players && s.players[h.conn].sock == sock {
      var c := h.conn;
      var u := Detach(s, c);
      assert forall d :: Connected(u, d) ==> Connected(s, d) && u.players[d] == s.players[d];
      PeopleGoes(s, u);
      DeleteGoes(u, c);
      GoesTrans(s, u, DeletePlayer(u, c));
      var v := OnDisconnected(s, c);
      assert Goes(s, v);
      hide DeletePlayer, OnDisconnected;
      assert forall d :: Connected(DoSocketGone(s, sock), d) == Connected(v, d);
      PeopleGoes(v, DoSocketGone(s, sock));
      GoesTrans(s, v, DoSocketGone(s, sock));
    } else {
      PeopleGoes(s, DoSocketGone(s, sock));
    }
  }

  lemma ConnectGoes(s: State, sock: nat)
    requires Tame(s)
    ensures Goes(s, s.(handlers := s.handlers[sock := Early]))
  {
    PeopleGoes(s, s.(handlers := s.handlers[sock := Early]));
  }

  /** A login that gives a player back the seat in a running game of room `r`, which has no owner. */
  predicate Rejoins(s: State, step: Step, r: nat) {
    && step.Login? && step.sock != 0 && step.sock in s.handlers && s.handlers[step.sock] == Early && step.id > 0
    && step.id in s.online && s.online[step.id] in s.players && InsideGame(s, s.online[step.id])
    && s.players[s.online[step.id]].roomId == r && s.online[step.id] in s.rooms[r].players && s.rooms[r].owner == 0
  }

  lemma NewPlayerGoes(s: State, sock: nat, id: int)
    requires Tame(s) && sock != 0 && id > 0
    ensures Goes(s, CreateNewPlayer(s, sock, id))
  {
    var t := CreateNewPlayer(s, sock, id);
    assert forall d :: Connected(t, d) ==> (Connected(s, d) && t.players[d] == s.players[d]) || d == s.nextConn;
    SameRooms(s, t);
  }

  lemma ReconnectTame(s: State, c: int, sock: nat)
    requires Tame(s) && c in s.players && s.players[c].id > 0 && s.players[c].roomId != 0
    ensures Tame(Reconnect(s, c, sock))
  {
    var t := Reconnect(s, c, sock);
    assert forall d :: Connected(t, d) ==> Connected(s, d) || d == c;
  }

  lemma LoginTame(s: State, sock: nat, id: int)
    requires Tame(s) && Inv(s) && sock != 0 && id > 0
    ensures Tame(DoLogin(s, sock, id))
  {
    if id in s.online && s.online[id] in s.players && InsideGame(s, s.online[id]) {
      ReconnectTame(s, s.online[id], sock);
    } else {
      NewPlayerGoes(s, sock, id);
    }
  }

  /** A login leaves a room that is safe safe unless it is such a one. */
  lemma LoginSafe(s: State, step: Step, r: nat)
    requires Tame(s) && Inv(s) && Safe(s, r) && step.Login?
    requires step.sock != 0 && step.sock in s.handlers && s.handlers[step.sock] == Early && step.id > 0
    ensures Safe(DoLogin(s, step.sock, step.id), r) <==> !Rejoins(s, step, r)
  {
    var sock, id := step.sock, step.id;
    if id in s.online && s.online[id] in s.players && InsideGame(s, s.online[id]) {
      var c := s.online[id];
      var t := Reconnect(s, c, sock);
      assert t.rooms == s.rooms && Connected(t, c);
      assert forall d :: d != c ==> Connected(t, d) == Connected(s, d);
      assert r in s.rooms ==> RoomOk(s, r, {});
      hide Inv, RoomOk, Tame;
      if Rejoins(s, step, r) {
        assert c in t.rooms[r].players;
      } else if r in s.rooms && s.rooms[r].owner == 0 {
        assert c !in s.rooms[r].players by {
          ListedInOwnRoom(s, c, r);
        }
      }
    } else {
      NewPlayerGoes(s, sock, id);
    }
  }

  lemma ListedInOwnRoom(s: State, c: int, r: nat)
    requires Inv(s) && c in s.players && r in s.rooms
    ensures c in s.rooms[r].players ==> s.players[c].roomId == r
  {
    assert RoomOk(s, r, {});
  }

  lemma LobbyStepGoes(s: State, step: Step)
    requires Tame(s) && 0 < s.nextRoom
    ensures Goes(s, LobbyStep(s, step))
  {
    hide Goes, Tame;
    GoesSame(s);
    if LobbyStep(s, step) != s {
      match step
      case CreateRoom(c, capacity) => CreateRoomGoes(s, c, ToSize(capacity));
      case EnterRoom(c, r) => AddPlayerGoes(s, r, c);
      case ObserveRoom(c, r) => AddObserverGoes(s, r, c);
    }
  }

  lemma RoomStepGoes(s: State, step: Step)
    requires Tame(s)
    ensures Goes(s, RoomStep(s, step))
  {
    hide Goes, Tame, DoQuit, DoAddRobot, DoKick;
    GoesSame(s);
    if RoomStep(s, step) != s {
      match step
      case QuitRoom(c) => QuitGoes(s, c);
      case AddRobot(c) => AddRobotGoes(s, s.players[c].roomId, c);
      case KickPlayer(c, id) => KickGoes(s, s.players[c].roomId, id);
      case ToggleTrust(c) => StatusGoes(s, c, if s.players[c].status == Trust then Online else Trust);
      case ChangeRoom(c, _) => SettingsGoes(s, RoomStep(s, step), s.players[c].roomId);
      case StartGame(c) => SettingsGoes(s, RoomStep(s, step), s.players[c].roomId);
    }
  }

  lemma LuaStepGoes(s: State, step: Step)
    requires Tame(s)
    ensures Goes(s, LuaStep(s, step))
  {
    hide Goes, Tame, DoGameOver, DoAddNpc, DoRemoveNpc;
    GoesSame(s);
    if LuaStep(s, step) != s {
      match step
      case GameOver(r) => GameOverGoes(s, s.rooms[r].players);
      case LuaRelease(r) => SettingsGoes(s, DoLuaRelease(s, r), r);
      case AddNpc(r) => AddNpcGoes(s, r);
      case RemoveNpc(r, c) => RemoveNpcGoes(s, r, c);
    }
  }

  lemma HouseStepGoes(s: State, step: Step)
    requires Tame(s)
    ensures Goes(s, HouseStep(s, step))
  {
    hide Goes, Tame, DoRunCheck, DoSweepLobby;
    GoesSame(s);
    if HouseStep(s, step) != s {
      match step
      case ForgetReject(r, id) => SettingsGoes(s, HouseStep(s, step), r);
      case PostCheck(r) =>
        assert s.rooms == s.rooms[r := s.rooms[r]];
        SettingsGoes(s, HouseStep(s, step), r);
      case RunCheck => RunCheckGoes(s);
      case SweepLobby(gone) => SweepLobbyGoes(s, gone);
    }
  }

  lemma RoomCounter(s: State)
    requires Inv(s)
    ensures 0 < s.nextRoom
  {
  }

  /** One step: the bounds stay, and a room that is safe stays so unless somebody rejoins it. */
  lemma StepGoes(s: State, step: Step)
    requires Tame(s) && Inv(s)
    ensures Tame(Next(s, step))
    ensures !step.Login? ==> Goes(s, Next(s, step))
  {
    hide Goes, Tame, Inv, LobbyStep, RoomStep, LuaStep, HouseStep, DoLogin, DoSocketGone;
    assert 0 < s.nextRoom by {
      RoomCounter(s);
    }
    LobbyStepGoes(s, step);
    RoomStepGoes(s, step);
    LuaStepGoes(s, step);
    HouseStepGoes(s, step);
    GoesSame(s);
    GoesTame(s, LobbyStep(s, step));
    GoesTame(s, RoomStep(s, step));
    GoesTame(s, LuaStep(s, step));
    GoesTame(s, HouseStep(s, step));
    match step
    case Connect(sock) =>
      ConnectGoes(s, sock);
      GoesTame(s, s.(handlers := s.handlers[sock := Early]));
    case Login(sock, id) =>
      if sock != 0 && id > 0 {
        LoginTame(s, sock, id);
      }
    case SocketGone(sock) =>
      if sock in s.handlers {
        SocketGoneGoes(s, sock);
        GoesTame(s, DoSocketGone(s, sock));
      }
    case _ =>
  }

  lemma StepSafe(s: State, step: Step, r: nat)
    requires Tame(s) && Inv(s) && Safe(s, r)
    ensures Safe(Next(s, step), r) <==> !Rejoins(s, step, r)
  {
    StepGoes(s, step);
    if step.Login? && Next(s, step) != s {
      LoginSafe(s, step, r);
    }
  }

  lemma {:induction false} ReachTame(steps: seq<Step>)
    ensures Tame(Reach(steps))
    decreases |steps|
  {
    hide Tame, Next, Inv;
    if steps == [] {
      InitialTame();
    } else {
      ReachTame(steps[..|steps| - 1]);
      ReachKeeps(steps[..|steps| - 1]);
      StepGoes(Reach(steps[..|steps| - 1]), steps[|steps| - 1]);
    }
  }

  lemma InitialTame()
    ensures Tame(INITIAL)
  {
  }

  lemma ReachableTame(s: State)
    requires Reachable(s)
    ensures Tame(s)
  {
    hide Tame;
    var steps :| Reach(steps) == s;
    ReachTame(steps);
  }
}
