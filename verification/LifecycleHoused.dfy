/** Nobody gets lost: every account's player is listed in exactly one place, unless it quit a room while its
    status was not online. */
module LifecycleHoused {
  import opened Basics
  import opened Lifecycle
  import opened LifecycleInvariant
  import opened LifecycleSteps
  import opened LifecycleAccounts
  import opened LifecyclePlaces
  import opened LifecycleEffects
  import opened LifecycleDepartures
  import opened LifecycleSessions
  import opened LifecycleChecks
  import Bounds = LifecycleBounds
  import Theorems = LifecycleTheorems

  // ---------------------------------------------------------------- everybody is somewhere

  predicate Inside(room: Room, c: int) {
    c in room.players || c in room.observers
  }

  predicate InPlace(s: State, c: int)
    requires c in s.players
  {
    var r := s.players[c].roomId;
    (r == 0 && c in s.lobby) || (r in s.rooms && Inside(s.rooms[r], c))
  }

  predicate Housed(s: State) {
    forall c :: c in s.players && s.players[c].id > 0 ==> InPlace(s, c)
  }

  /** The one way to get lost: quitting, other than from a seat in a running game, with a status that is not
      online. */
  predicate LosesHome(s: State, step: Step) {
    && step.QuitRoom? && SenderInRoom(s, step.c) && s.players[step.c].status != Online
    && var room := s.rooms[s.players[step.c].roomId]; !(step.c in room.players && room.luaRefs > 0)
  }

  /** Whoever was in room `r` and is not one of `cs` still is. */
  ghost predicate StaysInside(s: State, t: State, cs: set<int>, r: nat) {
    r in s.rooms ==> r in t.rooms && forall d :: d !in cs && Inside(s.rooms[r], d) ==> Inside(t.rooms[r], d)
  }

  lemma HousedElsewhere(s: State, t: State, cs: set<int>, r: nat)
    requires Housed(s) && Elsewhere(s, t, cs, r) && StaysInside(s, t, cs, r)
    requires forall c :: c in cs && c in t.players && t.players[c].id > 0 ==> InPlace(t, c)
    ensures Housed(t)
  {
    forall d | d in t.players && t.players[d].id > 0
      ensures InPlace(t, d)
    {
      if d !in cs {
        assert d in s.players && t.players[d] == s.players[d] && InPlace(s, d);
        var q := s.players[d].roomId;
        if q != r && q in s.rooms {
          assert t.rooms[q] == s.rooms[q];
        }
      }
    }
  }

  lemma HousedGone(s: State, t: State, gone: set<int>)
    requires Housed(s) && AllGone(s, t, gone)
    ensures Housed(t)
  {
    forall d | d in t.players && t.players[d].id > 0
      ensures InPlace(t, d)
    {
      assert d !in gone;
      assert d in s.players && t.players[d] == s.players[d] && InPlace(s, d);
      var q := s.players[d].roomId;
      assert q in s.rooms ==> q in t.rooms && RoomWithout(s.rooms[q], t.rooms[q], gone);
    }
  }

  lemma HousedSame(s: State, t: State)
    requires Housed(s) && t.lobby == s.lobby && t.rooms.Keys == s.rooms.Keys
    requires forall q :: q in s.rooms ==> t.rooms[q].players == s.rooms[q].players && t.rooms[q].observers == s.rooms[q].observers
    requires t.players.Keys == s.players.Keys
    requires forall d :: d in s.players ==> t.players[d].id == s.players[d].id && t.players[d].roomId == s.players[d].roomId
    ensures Housed(t)
  {
    assert forall d :: d in t.players && t.players[d].id > 0 ==> d in s.players && InPlace(s, d);
  }

  // ---------------------------------------------------------------- sessions

  lemma LoginHoused(s: State, sock: nat, id: int)
    requires Reachable(s) && Housed(s) && sock != 0 && sock in s.handlers && s.handlers[sock] == Early && id > 0
    ensures Housed(Next(s, Login(sock, id)))
  {
    hide Reachable, Next, Inv;
    LoggingIn(s, sock, id);
    ReachableKeeps(s);
    if id in s.online {
      AccountAlive(s, id);
    }
    hide InGame;
    var t := Next(s, Login(sock, id));
    var c := if id in s.online && InGame(s, s.online[id]) then s.online[id] else s.nextConn;
    LoginPlace(s, t, c, id, sock);
    assert StaysInside(s, t, {c}, 0);
    HousedElsewhere(s, t, {c}, 0);
  }

  lemma LoginPlace(s: State, t: State, c: int, id: int, sock: nat)
    requires Housed(s) && LoggedIn(s, t, c, id, sock)
    requires c in t.players && ((c in t.lobby && t.players[c].roomId == 0)
             || (c in s.players && s.players[c].id > 0 && t.players[c].roomId == s.players[c].roomId && t.lobby == s.lobby))
    ensures InPlace(t, c)
  {
  }

  lemma SocketHoused(s: State, sock: nat)
    requires Reachable(s) && Housed(s)
    ensures Housed(Next(s, SocketGone(sock)))
  {
    hide Reachable;
    var t := Next(s, SocketGone(sock));
    if sock in s.handlers {
      ReachableRests(s);
      if c :| c in s.players && s.players[c].sock == sock {
        assert sock != 0 by {
          assert 0 !in s.handlers;
        }
        LosingSocket(s, c, sock);
        hide Inv, AtRest, Next;
        if InGame(s, c) {
          HousedElsewhere(s, t, {c}, 0);
        } else {
          OneGone(s, t, c);
          HousedGone(s, t, {c});
        }
      } else {
        StrangeSocket(s, sock);
      }
    }
  }

  // ---------------------------------------------------------------- packets

  lemma LobbyHoused(s: State, step: Step)
    requires Reachable(s) && Housed(s) && (step.CreateRoom? || step.EnterRoom? || step.ObserveRoom?)
    ensures Housed(Next(s, step))
  {
    hide Reachable, Next, LobbyStep, Elsewhere;
    var t := Next(s, step);
    match step
    case CreateRoom(c, capacity) =>
      if SenderInLobby(s, c) && capacity != -1 {
        CreatingRoom(s, c, capacity);
        HousedElsewhere(s, t, if t.rooms[s.nextRoom].capacity > 0 then {c} else {}, s.nextRoom);
      } else {
        Refusing(s, step);
      }
    case EnterRoom(c, r) =>
      if SenderInLobby(s, c) && r in s.rooms {
        EnteringSeats(s, c, r);
        if t != s {
          assert c in t.rooms[r].players;
          HousedElsewhere(s, t, {c}, r);
        }
      } else {
        Refusing(s, step);
      }
    case ObserveRoom(c, r) =>
      if SenderInLobby(s, c) && r in s.rooms {
        ObservingSeats(s, c, r);
        if t != s {
          assert c in t.rooms[r].observers;
          HousedElsewhere(s, t, {c}, r);
        }
      } else {
        Refusing(s, step);
      }
  }

  lemma Refusing(s: State, step: Step)
    requires match step
      case CreateRoom(c, capacity) => !(SenderInLobby(s, c) && capacity != -1)
      case EnterRoom(c, r) => !(SenderInLobby(s, c) && r in s.rooms)
      case ObserveRoom(c, r) => !(SenderInLobby(s, c) && r in s.rooms)
      case QuitRoom(c) => !SenderInRoom(s, c)
      case AddRobot(c) => !SenderInRoom(s, c)
      case KickPlayer(c, _) => !SenderInRoom(s, c)
      case ToggleTrust(c) => !SenderInRoom(s, c)
      case ChangeRoom(c, _) => !SenderInRoom(s, c)
      case StartGame(c) => !SenderInRoom(s, c)
      case _ => false
    ensures Next(s, step) == s
  {
  }

  /** A quit keeps everybody housed exactly when it does not lose the quitter. */
  lemma QuitHoused(s: State, c: int)
    requires Reachable(s) && Housed(s)
    ensures Housed(Next(s, QuitRoom(c))) <==> !LosesHome(s, QuitRoom(c))
  {
    hide Reachable, Next, Elsewhere;
    var t := Next(s, QuitRoom(c));
    if SenderInRoom(s, c) {
      var r := s.players[c].roomId;
      QuitterGoesHome(s, c);
      ReachableRests(s);
      OutOfLobby(s, c);
      NotARobot(s, c);
      hide Inv, AtRest;
      if c in s.rooms[r].players && s.rooms[r].luaRefs > 0 {
        HousedElsewhere(s, t, {c, s.nextConn}, r);
      } else if s.players[c].status == Online {
        HousedElsewhere(s, t, {c}, r);
      } else {
        assert !InPlace(t, c);
      }
    } else {
      Refusing(s, QuitRoom(c));
    }
  }

  lemma RoomHoused(s: State, step: Step)
    requires Reachable(s) && Housed(s)
    requires step.AddRobot? || step.KickPlayer? || step.ToggleTrust? || step.ChangeRoom? || step.StartGame?
    ensures Housed(Next(s, step))
  {
    hide Reachable, Next;
    var t := Next(s, step);
    if !SenderInRoom(s, step.c) {
      Refusing(s, step);
    } else {
      var c, r := step.c, s.players[step.c].roomId;
      match step
      case AddRobot(_) =>
        AddingRobot(s, c);
        if t != s {
          HousedElsewhere(s, t, {s.nextConn}, r);
        }
      case KickPlayer(_, id) => KickHoused(s, c, id);
      case ToggleTrust(_) =>
        TogglingTrust(s, c);
        assert InPlace(s, c) by {
          ConnectedHoused(s, c);
        }
        HousedElsewhere(s, t, {c}, 0);
      case ChangeRoom(_, capacity) =>
        ChangingRoom(s, c, capacity);
        hide Elsewhere;
        RoomOnly(s, t, r);
      case StartGame(_) =>
        StartingGame(s, c);
        hide Elsewhere;
        RoomOnly(s, t, r);
    }
  }

  lemma ConnectedHoused(s: State, c: int)
    requires Reachable(s) && Housed(s) && Connected(s, c)
    ensures InPlace(s, c)
  {
    hide Reachable;
    ReachableKeeps(s);
    NotARobot(s, c);
  }

  /** Only settings of one room changed. */
  lemma RoomOnly(s: State, t: State, r: nat)
    requires Housed(s) && r in s.rooms && r in t.rooms && Elsewhere(s, t, {}, r)
    requires t.rooms[r].players == s.rooms[r].players && t.rooms[r].observers == s.rooms[r].observers
    ensures Housed(t)
  {
    hide Elsewhere;
    HousedElsewhere(s, t, {}, r);
  }

  lemma KickHoused(s: State, c: int, id: int)
    requires Reachable(s) && Housed(s) && SenderInRoom(s, c)
    ensures Housed(Next(s, KickPlayer(c, id)))
  {
    hide Reachable, Next, Elsewhere;
    var t, r := Next(s, KickPlayer(c, id)), s.players[c].roomId;
    if x :| Current(s, id, x) {
      KickedOut(s, c, id, x);
      if t != s {
        HousedElsewhere(s, t, {x}, r);
      }
    } else {
      KickedOut(s, c, id, 0);
    }
  }

  // ---------------------------------------------------------------- sweeps

  ghost predicate SameLists(s: State, t: State) {
    && t.rooms.Keys == s.rooms.Keys
    && (forall q :: q in s.rooms ==> t.rooms[q].players == s.rooms[q].players && t.rooms[q].observers == s.rooms[q].observers)
    && (forall q :: q in s.rooms ==> t.rooms[q].luaRefs == s.rooms[q].luaRefs)
  }

  /** Destroying an absent member of a running game: its seat keeps the name for now, and a connection of the same
      account is in the lobby. */
  lemma PlayingDeleted(s: State, c: int)
    requires c in s.players && c < s.nextConn && s.players[c].sock == 0 && s.players[c].roomId != 0
    requires Playing(s, c) && c !in s.rooms[s.players[c].roomId].observers
    ensures var t, n := DeletePlayer(s, c), s.nextConn;
      && t.players.Keys == s.players.Keys - {c} + {n} && t.lobby == s.lobby + {n} && t.nextConn == n + 1
      && t.players[n].id == s.players[c].id && t.players[n].roomId == 0
      && (forall d :: d in s.players && d != c && d != n ==> t.players[d] == s.players[d])
      && SameLists(s, t)
  {
    var p := s.players[c];
    var u := Unregister(s, c, p);
    var v := RunAway(u, c, p);
    Bounds.RunAwayShape(u, c, p);
    hide RunAway;
    AfterLeaveAlone(v, p.roomId, c);
    hide AfterLeave;
    assert DeletePlayer(s, c) == AfterLeave(v, p.roomId, c);
  }

  ghost predicate Sitting(s: State, c: int, r: nat) {
    c in s.players && s.players[c].sock == 0 && s.players[c].roomId == r && r in s.rooms && s.rooms[r].luaRefs > 0
    && c in s.rooms[r].players && c !in s.rooms[r].observers
  }

  /** Those in `gone` are destroyed, whoever is new is in the lobby, and the rooms' lists are as before. */
  ghost predicate RanOff(s: State, t: State, gone: set<int>) {
    && SameLists(s, t) && s.nextConn <= t.nextConn
    && (forall d :: d in gone ==> d !in t.players)
    && (forall d :: d in s.players && d !in gone ==> d in t.players && t.players[d] == s.players[d])
    && (forall d :: d in t.players && d !in s.players ==> s.nextConn <= d && t.players[d].roomId == 0 && d in t.lobby)
    && (forall d :: d in t.players ==> d < t.nextConn)
    && s.lobby <= t.lobby
  }

  lemma {:induction false} SittingDeleted(s: State, gone: seq<int>, r: nat)
    requires r != 0 && Distinct(gone) && (forall d :: d in s.players ==> d < s.nextConn) && forall c :: c in gone ==> Sitting(s, c, r)
    ensures RanOff(s, DeleteAll(s, gone), set c | c in gone)
    decreases |gone|
  {
    hide DeletePlayer;
    if gone != [] {
      var c, n := gone[0], s.nextConn;
      assert c in gone && c !in gone[1..] && Distinct(gone[1..]);
      assert forall d :: d in gone <==> d == c || d in gone[1..];
      PlayingDeleted(s, c);
      var u := DeletePlayer(s, c);
      assert forall d :: d in gone[1..] ==> Sitting(u, d, r);
      SittingDeleted(u, gone[1..], r);
      var rest := set d | d in gone[1..];
      assert (set d | d in gone) == {c} + rest;
      OneMore(s, u, DeleteAll(u, gone[1..]), c, rest);
    }
  }

  lemma OneMore(s: State, u: State, t: State, c: int, rest: set<int>)
    requires c in s.players && c < s.nextConn && u.players.Keys == s.players.Keys - {c} + {s.nextConn}
    requires u.lobby == s.lobby + {s.nextConn} && u.nextConn == s.nextConn + 1 && u.players[s.nextConn].roomId == 0
    requires forall d :: d in s.players && d != c && d != s.nextConn ==> u.players[d] == s.players[d]
    requires SameLists(s, u) && RanOff(u, t, rest) && c !in rest && s.nextConn !in rest && s.nextConn !in s.players
    ensures RanOff(s, t, {c} + rest)
  {
    assert c !in u.players;
    assert s.nextConn in u.players && s.nextConn in t.players && t.players[s.nextConn] == u.players[s.nextConn];
    forall d | d in t.players && d !in s.players
      ensures s.nextConn <= d && t.players[d].roomId == 0 && d in t.lobby
    {
      if d != s.nextConn {
        assert d !in u.players;
      }
    }
    forall d | d in {c} + rest
      ensures d !in t.players
    {
      if d == c {
        assert c < u.nextConn;
      }
    }
    forall d | d in s.players && d !in {c} + rest
      ensures d in t.players && t.players[d] == s.players[d]
    {
      assert d in u.players && d !in rest;
    }
  }

  lemma SweptHoused(s: State, r: nat)
    requires AtRest(s) && Housed(s) && r in s.rooms && s.rooms[r].luaRefs > 0
    ensures Housed(SweepAbsent(s, r))
  {
    var gone := Absent(s, s.rooms[r].players);
    AllSitting(s, r);
    hide AtRest, Absent, DeleteAll;
    SittingDeleted(s, gone, r);
    StillHoused(s, DeleteAll(s, gone), r, set c | c in gone);
  }

  lemma AllSitting(s: State, r: nat)
    requires AtRest(s) && r in s.rooms && s.rooms[r].luaRefs > 0
    ensures var gone := Absent(s, s.rooms[r].players);
      && r != 0 && Distinct(gone) && (forall d :: d in s.players ==> d < s.nextConn) && forall c :: c in gone ==> Sitting(s, c, r)
  {
    assert RoomBasics(s, r, DeadIn(r, 0, {}));
    AbsentMembers(s, s.rooms[r].players);
    hide Absent;
    assert forall d :: d in s.players ==> PlayerOk(s, d);
  }

  lemma StillHoused(s: State, u: State, r: nat, gone: set<int>)
    requires Housed(s) && r in s.rooms && RanOff(s, u, gone)
    ensures r in u.rooms && Housed(SetRoom(u, r, u.rooms[r].(players := Without(u.rooms[r].players, gone))))
  {
    var t := SetRoom(u, r, u.rooms[r].(players := Without(u.rooms[r].players, gone)));
    WithoutMembers(u.rooms[r].players, gone);
    hide Without;
    forall d | d in t.players && t.players[d].id > 0
      ensures InPlace(t, d)
    {
      if d in s.players {
        assert d !in gone && u.players[d] == s.players[d] && InPlace(s, d);
      }
    }
  }

  lemma CheckHoused(s: State)
    requires Reachable(s) && Housed(s)
    ensures Housed(Next(s, RunCheck))
  {
    hide Reachable, Next, Housed, Closed, AllGone, Dead;
    var t := Next(s, RunCheck);
    if s.checks == [] {
      NothingQueued(s);
    } else {
      CheckDoes(s);
      var r := s.checks[0].room;
      if Dead(s, r) {
        ReachableKeeps(s);
        NoRoomZero(s);
        DeadIsThere(s, r);
        ClosedHoused(s, t, r);
      } else if r in s.rooms && s.checks[0].reason == NoRefCount {
        if s.rooms[r].luaRefs <= 0 {
          HousedGone(s, t, AbsentSet(s, r));
        } else {
          GameSweepHoused(s);
        }
      } else {
        HousedSame(s, t);
      }
    }
  }

  lemma NothingQueued(s: State)
    requires s.checks == []
    ensures Next(s, RunCheck) == s
  {
  }

  lemma DeadIsThere(s: State, r: nat)
    requires Dead(s, r)
    ensures r in s.rooms
  {
  }

  lemma GameSweepHoused(s: State)
    requires Reachable(s) && Housed(s) && s.checks != [] && s.checks[0].reason == NoRefCount
    requires s.checks[0].room in s.rooms && s.rooms[s.checks[0].room].luaRefs > 0
    ensures Housed(Next(s, RunCheck))
  {
    hide Reachable, Housed, SweepAbsent, Next, AtRest, Inv;
    var r, u := s.checks[0].room, s.(checks := s.checks[1..]);
    GameCheckIs(s);
    ReachableRests(s);
    PoppedRests(s);
    HousedSame(s, u);
    SweptHoused(u, r);
  }

  lemma ClosedHoused(s: State, t: State, r: nat)
    requires Housed(s) && r in s.rooms && Closed(s, t, r) && 0 !in s.rooms
    ensures Housed(t)
  {
    var members := s.rooms[r].players + s.rooms[r].observers;
    var all := set d | d in members;
    forall d | d in t.players && t.players[d].id > 0
      ensures InPlace(t, d)
    {
      if d in members {
        assert HomeOrGone(s, t, d);
      } else {
        assert d !in all;
        assert d in s.players && t.players[d] == s.players[d] && InPlace(s, d);
        var q := s.players[d].roomId;
        assert Inside(s.rooms[r], d) <==> d in members;
        assert q != r;
        assert q in s.rooms ==> t.rooms[q] == s.rooms[q];
      }
    }
  }

  // ---------------------------------------------------------------- every event, every run

  lemma LuaHoused(s: State, step: Step)
    requires Reachable(s) && Housed(s) && (step.GameOver? || step.LuaRelease? || step.AddNpc? || step.RemoveNpc?)
    ensures Housed(Next(s, step))
  {
    hide Reachable;
    var t := Next(s, step);
    match step
    case GameOver(r) =>
      if r in s.rooms {
        GameEnds(s, r);
        hide Next;
        HousedSame(s, t);
      }
    case LuaRelease(r) =>
      if r in s.rooms {
        ReleasingRoom(s, r);
        hide Next, Elsewhere;
        RoomOnly(s, t, r);
      }
    case AddNpc(r) =>
      if r in s.rooms {
        AddingNpc(s, r);
        hide Next, Elsewhere;
        HousedElsewhere(s, t, {s.nextConn}, r);
      }
    case RemoveNpc(r, c) =>
      if t != s {
        NpcRemoved(s, r, c);
        hide DoRemoveNpc, AllGone;
        HousedGone(s, t, {c});
      }
  }

  lemma HouseHoused(s: State, step: Step)
    requires Reachable(s) && Housed(s) && (step.ForgetReject? || step.PostCheck? || step.RunCheck? || step.SweepLobby?)
    ensures Housed(Next(s, step))
  {
    hide Reachable, Housed, Next;
    match step
    case ForgetReject(r, id) => ForgetHoused(s, r, id);
    case PostCheck(r) => PostHoused(s, r);
    case RunCheck => CheckHoused(s);
    case SweepLobby(gone) => LobbySweepHoused(s, gone);
  }

  lemma ForgetHoused(s: State, r: nat, id: int)
    requires Housed(s)
    ensures Housed(Next(s, ForgetReject(r, id)))
  {
    hide Erase, Housed, Elsewhere;
    if r in s.rooms {
      PostingAndForgetting(s, r, id);
      RoomOnly(s, Next(s, ForgetReject(r, id)), r);
    }
  }

  lemma PostHoused(s: State, r: nat)
    requires Housed(s)
    ensures Housed(Next(s, PostCheck(r)))
  {
    hide Housed;
    HousedSame(s, Next(s, PostCheck(r)));
  }

  lemma LobbySweepHoused(s: State, gone: seq<int>)
    requires Reachable(s) && Housed(s)
    ensures Housed(Next(s, SweepLobby(gone)))
  {
    hide Reachable, Housed, DeleteAll, AllGone;
    if LobbySweep(s, gone) {
      LobbySwept(s, gone);
      HousedGone(s, Next(s, SweepLobby(gone)), set d | d in s.lobby && !Connected(s, d));
    }
  }

  /** In every reachable state in which everybody is somewhere, an event leaves everybody somewhere exactly unless
      it is such a quit. */
  lemma HousedIff(s: State, step: Step)
    requires Reachable(s) && Housed(s)
    ensures Housed(Next(s, step)) <==> !LosesHome(s, step)
  {
    hide Reachable, Next, Housed;
    match step
    case Connect(sock) => SocketOnly(s, sock);
    case Login(sock, id) =>
      if sock != 0 && sock in s.handlers && s.handlers[sock] == Early && id > 0 {
        LoginHoused(s, sock, id);
      } else {
        NoLogin(s, sock, id);
      }
    case SocketGone(sock) => SocketHoused(s, sock);
    case CreateRoom(_, _) => LobbyHoused(s, step);
    case EnterRoom(_, _) => LobbyHoused(s, step);
    case ObserveRoom(_, _) => LobbyHoused(s, step);
    case QuitRoom(c) => QuitHoused(s, c);
    case GameOver(_) => LuaHoused(s, step);
    case LuaRelease(_) => LuaHoused(s, step);
    case AddNpc(_) => LuaHoused(s, step);
    case RemoveNpc(_, _) => LuaHoused(s, step);
    case ForgetReject(_, _) => HouseHoused(s, step);
    case PostCheck(_) => HouseHoused(s, step);
    case RunCheck => HouseHoused(s, step);
    case SweepLobby(_) => HouseHoused(s, step);
    case _ => RoomHoused(s, step);
  }

  lemma SocketOnly(s: State, sock: nat)
    requires Housed(s)
    ensures Housed(Next(s, Connect(sock)))
  {
    HousedSame(s, Next(s, Connect(sock)));
  }

  lemma NoLogin(s: State, sock: nat, id: int)
    requires !(sock != 0 && sock in s.handlers && s.handlers[sock] == Early && id > 0)
    ensures Next(s, Login(sock, id)) == s
  {
  }

  /** No event of the run loses anybody. */
  predicate NobodyLost(steps: seq<Step>) {
    forall i :: 0 <= i < |steps| ==> !LosesHome(Reach(steps[..i]), steps[i])
  }

  lemma {:induction false} RunHoused(steps: seq<Step>)
    requires NobodyLost(steps)
    ensures Housed(Reach(steps))
    decreases |steps|
  {
    if steps != [] {
      hide Next, Housed, LosesHome;
      var front := steps[..|steps| - 1];
      assert forall i :: 0 <= i < |front| ==> front[..i] == steps[..i];
      RunHoused(front);
      assert Reachable(Reach(front));
      HousedIff(Reach(front), steps[|steps| - 1]);
    }
  }

  /** In every run without such a quit every account's player is listed in exactly one place, the lobby, a seat or
      an observer's chair, and its `roomId` names it. */
  lemma EverybodySomewhere(steps: seq<Step>, c: int)
    requires NobodyLost(steps) && c in Reach(steps).players && Reach(steps).players[c].id > 0
    ensures var s := Reach(steps);
      exists place :: Theorems.ListedAt(s, c, place) && s.players[c].roomId == Theorems.PlaceRoom(place)
        && forall other :: Theorems.ListedAt(s, c, other) ==> other == place
  {
    var s := Reach(steps);
    RunHoused(steps);
    assert Reachable(s);
    hide Reach, Reachable, NobodyLost;
    var place := PlaceOf(s, c);
    Theorems.ListedAtMostOnce(s, c, place, place);
    forall other | Theorems.ListedAt(s, c, other)
      ensures other == place
    {
      Theorems.ListedAtMostOnce(s, c, place, other);
    }
  }

  lemma PlaceOf(s: State, c: int) returns (place: Theorems.Place)
    requires c in s.players && InPlace(s, c)
    ensures Theorems.ListedAt(s, c, place)
  {
    var r := s.players[c].roomId;
    if r == 0 && c in s.lobby {
      place := Theorems.InLobby;
    } else if c in s.rooms[r].players {
      var i :| 0 <= i < |s.rooms[r].players| && s.rooms[r].players[i] == c;
      place := Theorems.Seat(r, i);
    } else {
      var i :| 0 <= i < |s.rooms[r].observers| && s.rooms[r].observers[i] == c;
      place := Theorems.Chair(r, i);
    }
  }
}
