/** Departures and returns: players that are kicked, destroyed, disconnected or logged in again, rooms that are
    checked, and the lobby when it is swept. */
module LifecycleDepartures {
  import opened Basics
  import opened Lifecycle
  import opened LifecycleInvariant
  import opened LifecycleSteps
  import opened LifecyclePlaces
  import opened LifecycleEffects
  import Bounds = LifecycleBounds
  import Theorems = LifecycleTheorems

  // ---------------------------------------------------------------- destroying a player

  /** Destroyed, and listed nowhere any more; nobody else is touched. */
  ghost predicate Gone(s: State, t: State, c: int)
    requires c in s.players
  {
    var r := s.players[c].roomId;
    && c !in t.players && c !in t.lobby && t.nextConn == s.nextConn && t.nextRoom == s.nextRoom
    && Elsewhere(s, t, {c}, r)
    && (r in s.rooms ==> r in t.rooms && SameSettings(s.rooms[r], t.rooms[r]) && ListsWithout(s.rooms[r], t.rooms[r], c))
    && (r in t.rooms ==> r in s.rooms)
  }

  lemma DeletedGone(s: State, c: int)
    requires AtRest(s) && c in s.players && !Playing(s, c)
    ensures Gone(s, DeletePlayer(s, c), c)
    ensures var p, t := s.players[c], DeletePlayer(s, c);
      && t.online == (if p.id in s.online && s.online[p.id] == c then s.online - {p.id} else s.online)
      && t.robots == s.robots - {p.id}
  {
    var p := s.players[c];
    var s1 := Unregister(s, c, p);
    assert c in s.lobby ==> p.roomId == 0;
    NoRoomZeroYet(s, 0, {});
    if p.roomId in s.rooms {
      RestLists(s, p.roomId);
      LeftWaiting(s1, p.roomId, c, p);
      hide RemovePlayer, PlacesOk;
    } else {
      hide PlacesOk;
    }
  }

  // ---------------------------------------------------------------- kicks

  /** `x` is the current player of the account, or the robot, with that id. */
  predicate Current(s: State, id: int, x: int) {
    (id > 0 && id in s.online && s.online[id] == x) || (id < 0 && id in s.robots && s.robots[id] == x)
  }

  /** Out of room `r`, whose list of rejections grows by the id: into the lobby, or destroyed if it is a robot. */
  ghost predicate Kicked(s: State, t: State, x: int, id: int, r: nat)
    requires x in s.players && r in s.rooms
  {
    && r in t.rooms && ListsWithout(s.rooms[r], t.rooms[r], x) && t.rooms[r].rejected == s.rooms[r].rejected + [id]
    && SameSettings(s.rooms[r], t.rooms[r].(rejected := s.rooms[r].rejected))
    && Elsewhere(s, t, {x}, r) && t.online == s.online
    && if s.players[x].status == Robot then x !in t.players && x !in t.lobby && t.robots == s.robots - {s.players[x].id}
       else x in t.players && t.players[x] == s.players[x].(roomId := 0) && x in t.lobby && t.robots == s.robots
  }

  /** A kick meets the member with that id, account or robot, in a room without a game; anything else is no kick. */
  lemma KickedOut(s: State, c: int, id: int, x: int)
    requires Reachable(s) && SenderInRoom(s, c)
    ensures var t, r := Next(s, KickPlayer(c, id)), s.players[c].roomId;
      if Current(s, id, x)
      then x in s.players && if s.rooms[r].luaRefs <= 0 && s.players[x].roomId == r then Kicked(s, t, x, id, r) else t == s
      else (forall y :: !Current(s, id, y)) ==> t == s
  {
    hide Reachable;
    ReachableRests(s);
    var r := s.players[c].roomId;
    CurrentAlive(s, id);
    ConnectionIds(s);
    hide Inv, PlacesOk, Kicked;
    if Current(s, id, x) {
      if s.rooms[r].luaRefs <= 0 && s.players[x].roomId == r {
        KickMeets(s, r, id, x);
      }
    } else if FindPlayer(s, id) in s.players {
      assert Current(s, id, FindPlayer(s, id)) || id == 0;
    }
  }

  lemma CurrentAlive(s: State, id: int)
    requires Inv(s)
    ensures forall x :: Current(s, id, x) ==> x in s.players && s.players[x].id == id
  {
  }

  lemma ConnectionIds(s: State)
    requires Inv(s)
    ensures forall d :: d in s.players ==> 0 < d < s.nextConn
  {
    assert forall d :: d in s.players ==> PlayerOk(s, d);
  }

  lemma KickMeets(s: State, r: nat, id: int, x: int)
    requires Inv(s) && AtRest(s) && r in s.rooms && Current(s, id, x) && x in s.players && s.players[x].id == id
    requires s.rooms[r].luaRefs <= 0 && s.players[x].roomId == r
    ensures Kicked(s, DoKick(s, r, id), x, id, r)
  {
    hide RemovePlayer, PlacesOk, ListsOk, Inv, DeletePlayer, DoKick, Kicked, LobbyAdd;
    var p := s.players[x];
    var u := RemovePlayer(s, r, x, p);
    RestLists(s, r);
    OutOfLobby(s, x);
    LeftWaiting(s, r, x, p);
    LeftAlone(s, u, x, r);
    var v := LobbyAdd(u, x);
    if p.status == Robot {
      RobotIds(s, x);
      PlacedRemove(s, x, 0, {});
      DeletedGone(u, x);
      assert v == DeletePlayer(u, x) by {
        AddUnfold(u, x);
      }
      GoneTwice(s, u, v, x);
      assert r in v.rooms by {
        GoneRooms(s, v, x, r);
      }
      KickUnfold(s, r, id, x);
      RejectGone(s, v, x, id, r);
    } else {
      assert v == EnterLobby(u, x) by {
        AddUnfold(u, x);
      }
      RejectHome(s, u, x, id, r);
      KickUnfold(s, r, id, x);
    }
  }

  lemma AddUnfold(s: State, c: int)
    requires c in s.players
    ensures LobbyAdd(s, c) == if s.players[c].status == Robot then DeletePlayer(s, c) else EnterLobby(s, c)
  {
  }

  lemma LeftAlone(s: State, u: State, x: int, r: nat)
    requires r in s.rooms && Left(s, u, x, r)
    ensures u.players == s.players && u.lobby == s.lobby && u.online == s.online && u.robots == s.robots && r in u.rooms
    ensures u.rooms[r].luaRefs == s.rooms[r].luaRefs && u.rooms.Keys == s.rooms.Keys
    ensures x !in u.rooms[r].players && x !in u.rooms[r].observers
  {
  }

  lemma KickUnfold(s: State, r: nat, id: int, x: int)
    requires r in s.rooms && Current(s, id, x) && x in s.players && s.players[x].id == id
    requires s.rooms[r].luaRefs <= 0 && s.players[x].roomId == r && x in RemovePlayer(s, r, x, s.players[x]).players
    requires r in LobbyAdd(RemovePlayer(s, r, x, s.players[x]), x).rooms
    ensures var v := LobbyAdd(RemovePlayer(s, r, x, s.players[x]), x);
      DoKick(s, r, id) == SetRoom(v, r, v.rooms[r].(rejected := v.rooms[r].rejected + [id]))
  {
    hide RemovePlayer, LobbyAdd;
  }

  lemma GoneRooms(s: State, v: State, x: int, r: nat)
    requires x in s.players && Gone(s, v, x)
    ensures r in s.rooms ==> r in v.rooms
  {
  }

  lemma RejectGone(s: State, v: State, x: int, id: int, r: nat)
    requires x in s.players && s.players[x].roomId == r && r in s.rooms && Gone(s, v, x) && s.players[x].status == Robot
    requires v.online == s.online && v.robots == s.robots - {s.players[x].id} && r in v.rooms
    ensures Kicked(s, SetRoom(v, r, v.rooms[r].(rejected := v.rooms[r].rejected + [id])), x, id, r)
  {
  }

  lemma RejectHome(s: State, u: State, x: int, id: int, r: nat)
    requires x in s.players && s.players[x].roomId == r && r in s.rooms && Left(s, u, x, r) && s.players[x].status != Robot && x in u.players
    ensures var v := EnterLobby(u, x);
      r in v.rooms && Kicked(s, SetRoom(v, r, v.rooms[r].(rejected := v.rooms[r].rejected + [id])), x, id, r)
  {
  }

  lemma RobotIds(s: State, x: int)
    requires Inv(s) && x in s.players
    ensures s.players[x].status == Robot ==> s.players[x].id !in s.online
  {
    assert PlayerOk(s, x);
  }

  /** Whoever has left its room already is in nobody's list when it is destroyed. */
  lemma GoneTwice(s: State, u: State, t: State, x: int)
    requires x in s.players && s.players[x].roomId in s.rooms && Left(s, u, x, s.players[x].roomId) && x in u.players
    requires u.players == s.players && Gone(u, t, x)
    ensures Gone(s, t, x)
  {
  }

  // ---------------------------------------------------------------- a kick lasts

  /** What the rooms have rejected stays rejected; a room number that is gone does not come back. */
  ghost predicate Remembers(s: State, t: State) {
    && s.nextRoom <= t.nextRoom
    && forall r :: r in t.rooms && r < s.nextRoom ==> r in s.rooms && forall id :: id in s.rooms[r].rejected ==> id in t.rooms[r].rejected
  }

  lemma RemembersTrans(s: State, t: State, u: State)
    requires Remembers(s, t) && Remembers(t, u)
    ensures Remembers(s, u)
  {
  }

  lemma AfterLeaveRemembers(s: State, r: nat, c: int)
    requires r in s.rooms
    ensures Remembers(s, AfterLeave(s, r, c))
  {
    AfterLeaveAlone(s, r, c);
    hide AfterLeave;
  }

  lemma RemoveRemembers(s: State, r: nat, c: int, p: Player)
    requires r in s.rooms
    ensures Remembers(s, RemovePlayer(s, r, c, p))
  {
    var room := s.rooms[r];
    Bounds.RunAwayShape(s, c, p);
    AfterLeaveRemembers(RunAway(s, c, p), r, c);
    AfterLeaveRemembers(WithoutSeat(s, r, c), r, c);
    hide AfterLeave, RunAway, Erase;
  }

  lemma DeleteRemembers(s: State, c: int)
    requires c in s.players
    ensures Remembers(s, DeletePlayer(s, c))
  {
    var p := s.players[c];
    if p.roomId in s.rooms {
      RemoveRemembers(Unregister(s, c, p), p.roomId, c, p);
    }
    hide RemovePlayer;
  }

  lemma AddRemembers(s: State, c: int)
    requires c in s.players
    ensures Remembers(s, LobbyAdd(s, c))
  {
    DeleteRemembers(s, c);
    hide DeletePlayer;
  }

  lemma {:induction false} DeleteAllRemembers(s: State, gone: seq<int>)
    ensures Remembers(s, DeleteAll(s, gone))
    decreases |gone|
  {
    hide DeletePlayer;
    if gone != [] {
      var u := if gone[0] in s.players then DeletePlayer(s, gone[0]) else s;
      if gone[0] in s.players {
        DeleteRemembers(s, gone[0]);
      }
      DeleteAllRemembers(u, gone[1..]);
      RemembersTrans(s, u, DeleteAll(u, gone[1..]));
    }
  }

  lemma {:induction false} SendHomeRemembers(s: State, members: seq<int>)
    ensures Remembers(s, SendHome(s, members))
    decreases |members|
  {
    hide DeletePlayer, LobbyAdd;
    if members != [] {
      var c := members[0];
      var u := if c !in s.players then s else if s.players[c].sock != 0 then LobbyAdd(s, c) else DeletePlayer(s, c);
      if c in s.players {
        DeleteRemembers(s, c);
        AddRemembers(s, c);
      }
      SendHomeRemembers(u, members[1..]);
      RemembersTrans(s, u, SendHome(u, members[1..]));
    }
  }

  lemma CheckRemembers(s: State, r: nat, reason: Reason)
    requires r in s.rooms
    ensures Remembers(s, CheckAbandoned(s, r, reason))
  {
    var v := DeleteAll(s, Absent(s, s.rooms[r].players));
    DeleteAllRemembers(s, Absent(s, s.rooms[r].players));
    hide DeleteAll, Absent, Without;
    var u := if reason == NoRefCount then SweepAbsent(s, r) else s;
    assert Remembers(s, u);
    if r in u.rooms {
      var w := u.(rooms := u.rooms - {r});
      SendHomeRemembers(w, u.rooms[r].players + u.rooms[r].observers);
      RemembersTrans(s, u, w);
      RemembersTrans(s, w, DestroyRoom(u, r));
    }
    hide SendHome, SweepAbsent;
  }

  lemma SocketGoneRemembers(s: State, sock: nat)
    requires sock in s.handlers
    ensures Remembers(s, DoSocketGone(s, sock))
  {
    var h := s.handlers[sock];
    if h.Session? && h.conn in s.players {
      DeleteRemembers(Detach(s, h.conn), h.conn);
    }
    hide DeletePlayer, InsideGame, Bind, Release;
  }

  lemma QuitRemembers(s: State, c: int)
    requires c in s.players && s.players[c].roomId in s.rooms
    ensures Remembers(s, DoQuit(s, c))
  {
    var u := RemovePlayer(s, s.players[c].roomId, c, s.players[c]);
    RemoveRemembers(s, s.players[c].roomId, c, s.players[c]);
    hide RemovePlayer;
    if c in u.players {
      AddRemembers(u, c);
    }
    hide LobbyAdd;
  }

  lemma KickRemembers(s: State, r: nat, id: int)
    requires r in s.rooms
    ensures Remembers(s, DoKick(s, r, id))
  {
    var x := FindPlayer(s, id);
    if x in s.players && s.players[x].roomId == r {
      var u := RemovePlayer(s, r, x, s.players[x]);
      RemoveRemembers(s, r, x, s.players[x]);
      hide RemovePlayer;
      if x in u.players {
        AddRemembers(u, x);
      }
      hide LobbyAdd;
    }
  }

  lemma SeatRemembers(s: State, r: nat, c: int)
    requires r in s.rooms && c in s.players
    ensures Remembers(s, LeaveLobbyFor(AddPlayer(s, r, c), r, c))
    ensures Remembers(s, LeaveLobbyFor(AddObserver(s, r, c), r, c))
    ensures Remembers(s, AddPlayer(s, r, c))
  {
    assert Remembers(s, AddPlayer(s, r, c));
    assert Remembers(s, AddObserver(s, r, c));
    hide AddPlayer, AddObserver;
  }

  lemma CreateRemembers(s: State, c: int, capacity: nat)
    requires c in s.players
    ensures Remembers(s, DoCreateRoom(s, c, capacity))
  {
    var r := s.nextRoom;
    var u := SetRoom(s, r, Room([], [], 0, capacity, 0, [], {})).(nextRoom := r + 1);
    assert Remembers(s, u);
    SeatRemembers(u, r, c);
    hide AddPlayer, LeaveLobbyFor;
    RemembersTrans(s, u, DoCreateRoom(s, c, capacity));
  }

  lemma RobotRemembers(s: State, r: nat, c: int)
    requires r in s.rooms
    ensures Remembers(s, DoAddRobot(s, r, c)) && Remembers(s, DoAddNpc(s, r))
  {
    var u := CreateRobot(s);
    assert u.rooms == s.rooms && u.nextRoom == s.nextRoom && s.nextConn in u.players;
    hide CreateRobot;
    SeatRemembers(u, r, s.nextConn);
    hide AddPlayer;
  }

  lemma RemoveNpcRemembers(s: State, r: nat, c: int)
    requires r in s.rooms && c in s.players
    ensures Remembers(s, DoRemoveNpc(s, r, c))
  {
    DeleteRemembers(WithoutSeat(s, r, c), c);
    hide DeletePlayer, Erase;
    assert Remembers(s, WithoutSeat(s, r, c));
    RemembersTrans(s, WithoutSeat(s, r, c), DeletePlayer(WithoutSeat(s, r, c), c));
  }

  lemma {:induction false} GameOverRemembers(s: State, members: seq<int>)
    ensures Remembers(s, DoGameOver(s, members))
    decreases |members|
  {
    Theorems.GameOverRooms(s, members);
    EndsFor(s, members);
    hide DoGameOver;
  }

  lemma ForgettingRemembers(s: State, step: Step, r: nat, id: int)
    requires Inv(s) && r < s.nextRoom && (r in s.rooms ==> id in s.rooms[r].rejected) && step != ForgetReject(r, id)
    ensures var t := Next(s, step); r < t.nextRoom && (r in t.rooms ==> id in t.rooms[r].rejected)
  {
    hide Inv;
    if step.ForgetReject? {
      if step.r in s.rooms {
        PostingAndForgetting(s, step.r, step.id);
        EraseOne(s.rooms[step.r].rejected, step.id);
        assert step.r == r ==> multiset(s.rooms[r].rejected)[id] > 0 && multiset(Next(s, step).rooms[r].rejected)[id] > 0;
      }
    } else {
      StepRemembers(s, step);
    }
  }

  lemma StepRemembers(s: State, step: Step)
    requires !step.ForgetReject?
    ensures Remembers(s, Next(s, step))
  {
    hide SessionStep, LobbyStep, RoomStep, LuaStep, HouseStep, Remembers;
    SessionRemembers(s, step);
    LobbyRemembers(s, step);
    RoomRemembers(s, step);
    LuaRemembers(s, step);
    HouseRemembers(s, step);
  }

  lemma SessionRemembers(s: State, step: Step)
    ensures Remembers(s, SessionStep(s, step))
  {
    hide DoLogin, DoSocketGone;
    if SessionStep(s, step) != s {
      match step
      case Connect(_) =>
      case Login(sock, id) => Theorems.LoginRooms(s, sock, id); LoginNumbers(s, sock, id);
      case SocketGone(sock) => SocketGoneRemembers(s, sock);
    }
  }

  lemma LobbyRemembers(s: State, step: Step)
    ensures Remembers(s, LobbyStep(s, step))
  {
    hide DoCreateRoom, AddPlayer, AddObserver, LeaveLobbyFor;
    if LobbyStep(s, step) != s {
      match step
      case CreateRoom(c, capacity) => CreateRemembers(s, c, ToSize(capacity));
      case EnterRoom(c, r) => SeatRemembers(s, r, c);
      case ObserveRoom(c, r) => SeatRemembers(s, r, c);
    }
  }

  lemma RoomRemembers(s: State, step: Step)
    ensures Remembers(s, RoomStep(s, step))
  {
    hide DoQuit, DoKick, DoAddRobot;
    if RoomStep(s, step) != s {
      match step
      case QuitRoom(c) => QuitRemembers(s, c);
      case KickPlayer(c, id) => KickRemembers(s, s.players[c].roomId, id);
      case AddRobot(c) => RobotRemembers(s, s.players[c].roomId, c);
      case _ =>
    }
  }

  lemma LuaRemembers(s: State, step: Step)
    ensures Remembers(s, LuaStep(s, step))
  {
    hide DoAddNpc, DoRemoveNpc, DoGameOver;
    if LuaStep(s, step) != s {
      match step
      case GameOver(r) => GameOverRemembers(s, s.rooms[r].players);
      case LuaRelease(_) =>
      case AddNpc(r) => RobotRemembers(s, r, 0);
      case RemoveNpc(r, c) => RemoveNpcRemembers(s, r, c);
    }
  }

  lemma HouseRemembers(s: State, step: Step)
    requires !step.ForgetReject?
    ensures Remembers(s, HouseStep(s, step))
  {
    hide CheckAbandoned, DeleteAll;
    if HouseStep(s, step) != s {
      match step
      case PostCheck(_) =>
      case RunCheck =>
        if s.checks[0].room in s.rooms {
          CheckRemembers(s.(checks := s.checks[1..]), s.checks[0].room, s.checks[0].reason);
        }
      case SweepLobby(gone) => DeleteAllRemembers(s, gone);
    }
  }

  lemma LoginNumbers(s: State, sock: nat, id: int)
    ensures DoLogin(s, sock, id).nextRoom == s.nextRoom
  {
    hide InsideGame, Bind, Release;
  }

  lemma {:induction false} RejectionLasts(s: State, steps: seq<Step>, r: nat, id: int)
    requires Inv(s) && r < s.nextRoom && (r in s.rooms ==> id in s.rooms[r].rejected)
    requires forall i :: 0 <= i < |steps| ==> steps[i] != ForgetReject(r, id)
    ensures var u := Theorems.Continue(s, steps); Inv(u) && (r in u.rooms ==> id in u.rooms[r].rejected)
    decreases |steps|
  {
    hide Inv, Next;
    if steps != [] {
      ForgettingRemembers(s, steps[0], r, id);
      StepKeeps(s, steps[0]);
      RejectionLasts(Next(s, steps[0]), steps[1..], r, id);
    }
  }

  /** Whoever was kicked neither sits in that room nor watches it again, under any connection, until the rejection
      is forgotten: in every run without that, entering and observing change nothing. */
  lemma KickedStaysOut(s: State, c: int, id: int, x: int, steps: seq<Step>, d: int)
    requires Reachable(s) && SenderInRoom(s, c) && Current(s, id, x) && x in s.players
    requires s.rooms[s.players[c].roomId].luaRefs <= 0 && s.players[x].roomId == s.players[c].roomId
    requires forall i :: 0 <= i < |steps| ==> steps[i] != ForgetReject(s.players[c].roomId, id)
    ensures var r := s.players[c].roomId;
      var u := Theorems.Continue(Next(s, KickPlayer(c, id)), steps);
      d in u.players && u.players[d].id == id ==> Next(u, EnterRoom(d, r)) == u && Next(u, ObserveRoom(d, r)) == u
  {
    hide Reachable, DoKick, Inv;
    var r, t := s.players[c].roomId, Next(s, KickPlayer(c, id));
    KickedOut(s, c, id, x);
    ReachableKeeps(s);
    StepKeeps(s, KickPlayer(c, id));
    RoomNumbers(t, r);
    RejectionLasts(t, steps, r, id);
    var u := Theorems.Continue(t, steps);
    NoRoomZero(u);
    hide Next;
    if d in u.players && u.players[d].id == id {
      Refused(u, d, r);
    }
  }

  lemma RoomNumbers(s: State, r: nat)
    requires Inv(s) && r in s.rooms
    ensures r < s.nextRoom
  {
    assert RoomOk(s, r, {});
  }

  lemma Refused(s: State, d: int, r: nat)
    requires d in s.players && r in s.rooms ==> s.players[d].id in s.rooms[r].rejected
    requires 0 !in s.rooms
    ensures d in s.players ==> Next(s, EnterRoom(d, r)) == s && Next(s, ObserveRoom(d, r)) == s
  {
  }
}
