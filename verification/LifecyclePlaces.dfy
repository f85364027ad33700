/** Places, accounts and seats once more, over runs in which `removeNpc` is called for anybody.  They rest neither
    on owners nor on queued checks, which is what such a call can break. */
module LifecyclePlaces {
  import opened Basics
  import opened Lifecycle
  import opened LifecycleInvariant
  import opened LifecycleSteps
  import opened LifecycleAccounts
  import Bounds = LifecycleBounds
  import Theorems = LifecycleTheorems

  // ---------------------------------------------------------------- every call of `removeNpc`

  /** The step as the server takes it, whatever it breaks. */
  function NextAny(s: State, step: Step): State {
    if step.RemoveNpc? && step.r in s.rooms && step.c in s.players then DoRemoveNpc(s, step.r, step.c) else Next(s, step)
  }

  function ReachAny(steps: seq<Step>): State {
    if steps == [] then INITIAL else NextAny(ReachAny(steps[..|steps| - 1]), steps[|steps| - 1])
  }

  // ---------------------------------------------------------------- what does not rest on owners and checks

  ghost predicate PlacesOk(s: State, r0: nat, dead: set<int>) {
    && PeopleOk(s)
    && (forall r :: r in s.rooms ==> RoomBasics(s, r, DeadIn(r, r0, dead)))
    && (forall c :: c in dead ==> c !in s.players && c < s.nextConn)
  }

  ghost predicate AtRest(s: State) {
    PlacesOk(s, 0, {})
  }

  /** Nobody takes an old connection id over. */
  ghost predicate Keeps(s: State, t: State) {
    && s.nextConn <= t.nextConn && s.nextRoom <= t.nextRoom
    && forall c :: c in t.players ==> (c in s.players && t.players[c].id == s.players[c].id) || s.nextConn <= c
  }

  lemma BasicsFrame(s: State, t: State, r: nat, dead: set<int>)
    requires r in s.rooms && r in t.rooms && RoomBasics(s, r, dead) && Keeps(s, t)
    requires t.rooms[r] == s.rooms[r].(owner := t.rooms[r].owner, luaRefs := t.rooms[r].luaRefs, rejected := t.rooms[r].rejected)
    requires forall c :: c in s.rooms[r].players || c in s.rooms[r].observers ==> Carries(s, t, c)
    ensures RoomBasics(t, r, dead)
  {
  }

  /** Only room `y` may have changed, and it is as it should be. */
  lemma PlacedFrame(s: State, t: State, r0: nat, dead: set<int>, y: nat)
    requires PlacesOk(s, r0, dead) && PeopleOk(t) && Keeps(s, t)
    requires forall r :: r in t.rooms && r != y ==> r in s.rooms && t.rooms[r] == s.rooms[r]
    requires forall r :: r in t.rooms && r != y ==>
               forall c :: c in s.rooms[r].players || c in s.rooms[r].observers ==> Carries(s, t, c)
    requires y in t.rooms ==> RoomBasics(t, y, DeadIn(y, r0, dead))
    requires forall c :: c in dead ==> c !in t.players
    ensures PlacesOk(t, r0, dead)
  {
    hide PeopleOk, RoomBasics, Carries;
    forall r | r in t.rooms
      ensures RoomBasics(t, r, DeadIn(r, r0, dead))
    {
      if r != y {
        BasicsFrame(s, t, r, DeadIn(r, r0, dead));
      }
    }
  }

  /** Nothing a room hears about. */
  lemma PlacedQuiet(s: State, t: State, r0: nat, dead: set<int>)
    requires PlacesOk(s, r0, dead) && PeopleOk(t) && Keeps(s, t) && t.rooms == s.rooms
    requires forall r :: r in s.rooms ==>
               forall c :: c in s.rooms[r].players || c in s.rooms[r].observers ==> Carries(s, t, c)
    requires forall c :: c in dead ==> c !in t.players
    ensures PlacesOk(t, r0, dead)
  {
    hide PeopleOk, RoomBasics, Carries;
    forall r | r in t.rooms
      ensures RoomBasics(t, r, DeadIn(r, r0, dead))
    {
      BasicsFrame(s, t, r, DeadIn(r, r0, dead));
    }
  }

  /** One room changed, and nobody else did. */
  lemma PlacedRoom(s: State, t: State, r0: nat, dead: set<int>, r: nat)
    requires PlacesOk(s, r0, dead) && r in t.rooms && t == s.(rooms := s.rooms[r := t.rooms[r]], checks := t.checks)
    requires RoomBasics(t, r, DeadIn(r, r0, dead))
    ensures PlacesOk(t, r0, dead)
  {
    hide RoomBasics;
    PeopleFrame(s, t);
    hide PeopleOk;
    PlacedFrame(s, t, r0, dead, r);
  }

  /** Owner, references, rejections and checks do not matter. */
  lemma PlacedSettings(s: State, t: State, r0: nat, dead: set<int>, r: nat)
    requires PlacesOk(s, r0, dead) && r in s.rooms && r in t.rooms
    requires t == s.(rooms := s.rooms[r := t.rooms[r]], checks := t.checks)
    requires t.rooms[r] == s.rooms[r].(owner := t.rooms[r].owner, luaRefs := t.rooms[r].luaRefs, rejected := t.rooms[r].rejected)
    ensures PlacesOk(t, r0, dead)
  {
    BasicsFrame(s, t, r, DeadIn(r, r0, dead));
    hide RoomBasics;
    PlacedRoom(s, t, r0, dead, r);
  }

  lemma OwnRoomOnly(s: State, c: int, r0: nat, dead: set<int>)
    requires PlacesOk(s, r0, dead) && c in s.players
    ensures forall r :: r in s.rooms && r != s.players[c].roomId ==> c !in s.rooms[r].players && c !in s.rooms[r].observers
  {
    forall r | r in s.rooms && r != s.players[c].roomId
      ensures c !in s.rooms[r].players && c !in s.rooms[r].observers
    {
      assert RoomBasics(s, r, DeadIn(r, r0, dead));
    }
  }

  lemma NoRoomZeroYet(s: State, r0: nat, dead: set<int>)
    requires PlacesOk(s, r0, dead)
    ensures 0 !in s.rooms
  {
    assert forall r :: r in s.rooms ==> RoomBasics(s, r, DeadIn(r, r0, dead)) && r != 0;
  }

  // ---------------------------------------------------------------- leaving

  lemma PlacedAfterLeave(s: State, r: nat, c: int, r0: nat, dead: set<int>)
    requires PlacesOk(s, r0, dead) && r in s.rooms
    ensures PlacesOk(AfterLeave(s, r, c), r0, dead)
  {
    var t := AfterLeave(s, r, c);
    assert s.rooms == s.rooms[r := s.rooms[r]];
    hide PlacesOk, IsAbandoned, FirstConnected;
    PlacedSettings(s, t, r0, dead, r);
  }

  lemma PlacedErase(s: State, r: nat, c: int, r0: nat, dead: set<int>)
    requires PlacesOk(s, r0, dead) && r in s.rooms
    ensures PlacesOk(WithoutSeat(s, r, c), r0, dead) && c !in WithoutSeat(s, r, c).rooms[r].players
  {
    var t, room := WithoutSeat(s, r, c), s.rooms[r];
    assert RoomBasics(s, r, DeadIn(r, r0, dead));
    EraseMembers(room.players, c);
    EraseSeated(room.players, c, room.npcs);
    hide Erase;
    assert RoomBasics(t, r, DeadIn(r, r0, dead));
    hide RoomBasics;
    PlacedRoom(s, t, r0, dead, r);
  }

  lemma PlacedEraseObserver(s: State, r: nat, c: int, r0: nat, dead: set<int>)
    requires PlacesOk(s, r0, dead) && r in s.rooms
    ensures var t := SetRoom(s, r, s.rooms[r].(observers := Erase(s.rooms[r].observers, c)));
      PlacesOk(t, r0, dead) && c !in t.rooms[r].observers
  {
    var room := s.rooms[r];
    var t := SetRoom(s, r, room.(observers := Erase(room.observers, c)));
    assert RoomBasics(s, r, DeadIn(r, r0, dead));
    EraseMembers(room.observers, c);
    hide Erase;
    assert RoomBasics(t, r, DeadIn(r, r0, dead));
    hide RoomBasics;
    PlacedRoom(s, t, r0, dead, r);
  }

  lemma RunAwayKeepsIds(s: State, c: int)
    requires c in s.players && c < s.nextConn && s.nextConn !in s.players
    ensures var t := RunAway(s, c, s.players[c]);
      Keeps(s, t) && t.rooms == s.rooms && t.players.Keys == s.players.Keys + {s.nextConn}
      && forall d :: d != c ==> Carries(s, t, d)
  {
    RunAwayCarries(s, c);
    RunAwayMap(s, c);
    hide RunAway;
  }

  lemma PlacedRunAway(s: State, c: int, r0: nat, dead: set<int>)
    requires PlacesOk(s, r0, dead) && c in s.players
    ensures var t := RunAway(s, c, s.players[c]);
      PlacesOk(t, r0, dead) && t.rooms == s.rooms && c in t.players && t.players[c] == s.players[c].(status := Run, sock := 0)
  {
    var r, t := s.players[c].roomId, RunAway(s, c, s.players[c]);
    assert PlayerOk(s, c);
    assert s.nextConn !in s.players by {
      assert forall d :: d in s.players ==> PlayerOk(s, d) && d != s.nextConn;
    }
    RunAwayPeople(s, c);
    RunAwayKeepsIds(s, c);
    RunAwayMap(s, c);
    OwnRoomOnly(s, c, r0, dead);
    if r in s.rooms {
      RunAwayOwnRoom(s, c, r, DeadIn(r, r0, dead));
    }
    hide RunAway, PeopleOk, PlayerOk, RoomBasics, Carries;
    PlacedFrame(s, t, r0, dead, r);
  }

  lemma PlacedRemove(s: State, c: int, r0: nat, dead: set<int>)
    requires PlacesOk(s, r0, dead) && c in s.players && s.players[c].roomId in s.rooms
    ensures PlacesOk(RemovePlayer(s, s.players[c].roomId, c, s.players[c]), r0, dead)
  {
    var p := s.players[c];
    var r := p.roomId;
    var room := s.rooms[r];
    hide PlacesOk, AfterLeave, RunAway;
    if c in room.observers {
      PlacedEraseObserver(s, r, c, r0, dead);
    } else if c in room.players {
      if room.luaRefs <= 0 {
        PlacedErase(s, r, c, r0, dead);
        PlacedAfterLeave(WithoutSeat(s, r, c), r, c, r0, dead);
      } else {
        PlacedRunAway(s, c, r0, dead);
        PlacedAfterLeave(RunAway(s, c, p), r, c, r0, dead);
      }
    }
  }

  /** Who is listed where after leaving. */
  lemma RemoveLists(s: State, c: int, r0: nat, dead: set<int>)
    requires PlacesOk(s, r0, dead) && c in s.players && s.players[c].roomId in s.rooms
    ensures var t := RemovePlayer(s, s.players[c].roomId, c, s.players[c]);
      && t.rooms.Keys == s.rooms.Keys && c in t.players && c < s.nextConn
      && (forall r :: r in t.rooms ==> c !in t.rooms[r].observers)
      && (forall r :: r in t.rooms && r != s.players[c].roomId ==> c !in t.rooms[r].players)
      && (c in t.rooms[s.players[c].roomId].players <==> Playing(s, c))
      && (if Playing(s, c) then t.players[c] == s.players[c].(status := Run, sock := 0)
                             && t.lobby == s.lobby + {s.nextConn}
          else t.players == s.players && t.lobby == s.lobby)
  {
    var r := s.players[c].roomId;
    var room := s.rooms[r];
    assert PlayerOk(s, c) && RoomBasics(s, r, DeadIn(r, r0, dead));
    OwnRoomOnly(s, c, r0, dead);
    EraseMembers(room.observers, c);
    hide RoomBasics, PlayerOk, PlacesOk, RemovePlayer;
    if Playing(s, c) {
      PlayingLists(s, c);
    } else {
      EraseMembers(room.players, c);
      WaitingLists(s, c);
    }
  }

  lemma PlayingLists(s: State, c: int)
    requires c in s.players && c < s.nextConn && Playing(s, c) && c !in s.rooms[s.players[c].roomId].observers
    ensures var t := RemovePlayer(s, s.players[c].roomId, c, s.players[c]);
      && t.rooms.Keys == s.rooms.Keys && c in t.players && t.players[c] == s.players[c].(status := Run, sock := 0)
      && t.lobby == s.lobby + {s.nextConn}
      && forall q :: q in s.rooms ==> t.rooms[q].players == s.rooms[q].players && t.rooms[q].observers == s.rooms[q].observers
  {
    var p, r := s.players[c], s.players[c].roomId;
    RunAwayMap(s, c);
    Bounds.RunAwayShape(s, c, p);
    hide RunAway;
    LeaveLists(RunAway(s, c, p), r, c);
    hide AfterLeave;
  }

  lemma WaitingLists(s: State, c: int)
    requires c in s.players && s.players[c].roomId in s.rooms && !Playing(s, c)
    ensures var r := s.players[c].roomId;
      var t := RemovePlayer(s, r, c, s.players[c]);
      && t.rooms.Keys == s.rooms.Keys && t.players == s.players && t.lobby == s.lobby
      && (forall q :: q in s.rooms && q != r ==> t.rooms[q].players == s.rooms[q].players && t.rooms[q].observers == s.rooms[q].observers)
      && (c in s.rooms[r].observers ==> t.rooms[r] == s.rooms[r].(observers := Erase(s.rooms[r].observers, c)))
      && (c !in s.rooms[r].observers ==> t.rooms[r].observers == s.rooms[r].observers)
      && (c !in s.rooms[r].observers && c in s.rooms[r].players ==> t.rooms[r].players == Erase(s.rooms[r].players, c))
      && (c !in s.rooms[r].players ==> t.rooms[r].players == s.rooms[r].players)
  {
    var r := s.players[c].roomId;
    hide Erase;
    LeaveLists(WithoutSeat(s, r, c), r, c);
    hide AfterLeave, RunAway;
  }

  lemma LeaveLists(s: State, r: nat, c: int)
    requires r in s.rooms
    ensures var t := AfterLeave(s, r, c);
      && t.players == s.players && t.lobby == s.lobby && t.rooms.Keys == s.rooms.Keys
      && forall q :: q in s.rooms ==> t.rooms[q].players == s.rooms[q].players && t.rooms[q].observers == s.rooms[q].observers
  {
    hide IsAbandoned, FirstConnected;
  }

  // ---------------------------------------------------------------- destroying a player

  lemma PlacedUnmap(s: State, c: int, r0: nat, dead: set<int>)
    requires PlacesOk(s, r0, dead) && c in s.players
    ensures PlacesOk(Unmap(s, c), r0, dead) && NoEntry(Unmap(s, c), c)
  {
    var t := Unmap(s, c);
    forall d | d in t.players
      ensures PlayerOk(t, d)
    {
      assert PlayerOk(s, d);
    }
    hide RoomBasics, PlayerOk;
    PlacedQuiet(s, t, r0, dead);
  }

  lemma PlacedDrop(s: State, c: int, r0: nat, dead: set<int>, dead': set<int>)
    requires PlacesOk(s, r0, dead) && c in s.players && NoEntry(s, c) && c !in s.lobby && dead <= dead' <= dead + {c}
    requires forall r :: r in s.rooms ==> c !in s.rooms[r].observers
    requires forall r :: r in s.rooms && c in s.rooms[r].players ==> r == r0 && c in dead'
    ensures PlacesOk(Drop(s, c), r0, dead')
  {
    var t := Drop(s, c);
    assert PlayerOk(s, c);
    forall d | d in t.players
      ensures PlayerOk(t, d)
    {
      assert PlayerOk(s, d);
    }
    assert PeopleOk(t);
    hide PlayerOk, PeopleOk;
    forall r | r in t.rooms
      ensures RoomBasics(t, r, DeadIn(r, r0, dead'))
    {
      assert RoomBasics(s, r, DeadIn(r, r0, dead));
    }
  }

  lemma RemoveEntry(s: State, c: int)
    requires c in s.players && c < s.nextConn && s.players[c].roomId in s.rooms && NoEntry(s, c)
    ensures NoEntry(RemovePlayer(s, s.players[c].roomId, c, s.players[c]), c)
  {
    var p, r := s.players[c], s.players[c].roomId;
    var room := s.rooms[r];
    AfterLeaveEntries(WithoutSeat(s, r, c), r, c);
    AfterLeaveEntries(RunAway(s, c, p), r, c);
    hide AfterLeave, Erase, Bind, Release;
  }

  lemma AfterLeaveEntries(s: State, r: nat, c: int)
    requires r in s.rooms
    ensures AfterLeave(s, r, c).online == s.online && AfterLeave(s, r, c).robots == s.robots
  {
    hide IsAbandoned, FirstConnected;
  }

  /** Destroying a player without a socket leaves at most its name in its seat in a running game. */
  lemma PlacedDelete(s: State, c: int, r0: nat, dead: set<int>)
    requires PlacesOk(s, r0, dead) && c in s.players && s.players[c].sock == 0
    requires Playing(s, c) ==> s.players[c].roomId == r0
    ensures PlacesOk(DeletePlayer(s, c), r0, if Playing(s, c) then dead + {c} else dead)
  {
    var p, u := s.players[c], Unmap(s, c);
    var r := p.roomId;
    assert PlayerOk(s, c);
    assert c in s.lobby ==> r == 0;
    DeleteUnfold(s, c);
    PlacedUnmap(s, c, r0, dead);
    OwnRoomOnly(s, c, r0, dead);
    NoRoomZeroYet(s, r0, dead);
    hide PlayerOk, RoomBasics, DeletePlayer, Unmap, RemovePlayer;
    assert u.players == s.players && u.rooms == s.rooms && u.lobby == s.lobby && u.nextConn == s.nextConn by {
      UnmapSame(s, c);
    }
    assert Playing(u, c) == Playing(s, c);
    if r in s.rooms {
      PlacedRemove(u, c, r0, dead);
      RemoveLists(u, c, r0, dead);
      RemoveEntry(u, c);
      hide PlacesOk, NoEntry;
      PlacedDrop(RemovePlayer(u, r, c, p), c, r0, dead, if Playing(s, c) then dead + {c} else dead);
    } else if r == 0 {
      var v := u.(lobby := s.lobby - {c});
      PlacedLobby(u, v, r0, dead);
      PlacedDrop(v, c, r0, dead, dead);
    } else {
      PlacedDrop(u, c, r0, dead, dead);
    }
  }

  lemma UnmapSame(s: State, c: int)
    requires c in s.players
    ensures var u := Unmap(s, c); u.players == s.players && u.rooms == s.rooms && u.lobby == s.lobby && u.nextConn == s.nextConn
  {
  }

  lemma PlacedLobby(s: State, t: State, r0: nat, dead: set<int>)
    requires PlacesOk(s, r0, dead) && t == s.(lobby := t.lobby) && t.lobby <= s.lobby
    ensures PlacesOk(t, r0, dead)
  {
    assert forall d :: d in t.players ==> PlayerOk(s, d) && PlayerOk(t, d);
    hide RoomBasics, PlayerOk;
    PlacedQuiet(s, t, r0, dead);
  }

  ghost predicate Nowhere(s: State, c: int) {
    forall r :: r in s.rooms ==> c !in s.rooms[r].players && c !in s.rooms[r].observers
  }

  lemma PlacedSocketOff(s: State, c: int)
    requires AtRest(s) && c in s.players && Nowhere(s, c)
    ensures AtRest(SetSocket(s, c, 0))
  {
    SocketPeople(s, c, 0);
    hide PeopleOk, RoomBasics;
    PlacedQuiet(s, SetSocket(s, c, 0), 0, {});
  }

  /** Destroying anybody whom no room lists. */
  lemma DeleteNowhere(s: State, c: int)
    requires AtRest(s) && c in s.players && Nowhere(s, c)
    ensures AtRest(DeletePlayer(s, c))
  {
    UnseatedDeletion(s, c);
    PlacedSocketOff(s, c);
    hide DeletePlayer, PlacesOk;
    PlacedDelete(SetSocket(s, c, 0), c, 0, {});
  }

  // ---------------------------------------------------------------- players that move

  lemma EnterLobbyRests(s: State, c: int)
    requires AtRest(s) && c in s.players && Nowhere(s, c)
    ensures AtRest(EnterLobby(s, c))
  {
    var t := EnterLobby(s, c);
    assert forall d :: d in t.players ==> PlayerOk(s, d) && PlayerOk(t, d);
    hide PlayerOk, RoomBasics;
    PlacedQuiet(s, t, 0, {});
  }

  lemma LobbyAddRests(s: State, c: int)
    requires AtRest(s) && c in s.players && Nowhere(s, c)
    ensures AtRest(LobbyAdd(s, c))
  {
    hide PlacesOk, DeletePlayer, EnterLobby;
    if s.players[c].status == Robot {
      DeleteNowhere(s, c);
    } else {
      EnterLobbyRests(s, c);
    }
  }

  lemma StatusRests(s: State, c: int, status: Status)
    requires AtRest(s) && c in s.players && status != Robot
    ensures AtRest(SetStatus(s, c, status))
  {
    var t := SetStatus(s, c, status);
    assert forall d :: d in t.players ==> PlayerOk(s, d) && PlayerOk(t, d);
    hide PlayerOk, RoomBasics;
    PlacedQuiet(s, t, 0, {});
  }

  lemma SocketRests(s: State, c: int, sock: nat)
    requires AtRest(s) && c in s.players && s.players[c].id > 0
    requires sock != 0 && sock in s.handlers && s.handlers[sock] == Early
    ensures AtRest(SetSocket(s, c, sock))
  {
    SocketPeople(s, c, sock);
    hide PeopleOk, RoomBasics;
    PlacedQuiet(s, SetSocket(s, c, sock), 0, {});
  }

  /** Rooms do not look at sockets. */
  lemma DetachRests(s: State, c: int)
    requires AtRest(s) && c in s.players
    ensures AtRest(Detach(s, c))
  {
    var t := Detach(s, c);
    DetachPeople(s, c);
    hide PeopleOk;
    forall r | r in t.rooms
      ensures RoomBasics(t, r, DeadIn(r, 0, {}))
    {
      assert RoomBasics(s, r, DeadIn(r, 0, {}));
    }
  }

  // ---------------------------------------------------------------- sessions

  lemma DisconnectRests(s: State, c: int)
    requires AtRest(s) && c in s.players
    ensures AtRest(OnDisconnected(s, c))
  {
    var t := Detach(s, c);
    DetachRests(s, c);
    if !InsideGame(t, c) {
      assert !Playing(t, c) by {
        NotSeated(t, c);
      }
      hide PlacesOk, DeletePlayer;
      PlacedDelete(t, c, 0, {});
    }
  }

  lemma NotSeated(s: State, c: int)
    requires AtRest(s) && c in s.players && !InsideGame(s, c)
    ensures !Playing(s, c)
  {
    var r := s.players[c].roomId;
    assert r in s.rooms ==> RoomBasics(s, r, DeadIn(r, 0, {}));
  }

  lemma SocketGoneRests(s: State, sock: nat)
    requires AtRest(s) && sock in s.handlers
    ensures AtRest(DoSocketGone(s, sock))
  {
    var h := s.handlers[sock];
    if h.Session? && h.conn in s.players && s.players[h.conn].sock == sock {
      DisconnectRests(s, h.conn);
      DisconnectFrees(s, h.conn);
      assert 0 !in s.handlers;
      hide PlacesOk, OnDisconnected;
      var u := OnDisconnected(s, h.conn);
      assert u.handlers == u.handlers[sock := Inert];
      assert DoSocketGone(s, sock) == u;
    } else {
      var t := DoSocketGone(s, sock);
      assert forall d :: d in t.players ==> PlayerOk(s, d) && PlayerOk(t, d);
      hide PlayerOk, RoomBasics;
      PlacedQuiet(s, t, 0, {});
    }
  }

  lemma DisconnectFrees(s: State, c: int)
    requires AtRest(s) && c in s.players
    ensures OnDisconnected(s, c).handlers == Release(s.handlers, s.players[c].sock)
  {
    var u := Detach(s, c);
    assert PlayerOk(s, c) && u.handlers == Release(s.handlers, s.players[c].sock);
    DetachRests(s, c);
    if !InsideGame(u, c) {
      NotSeated(u, c);
      hide PlacesOk, PlayerOk, Detach, Release;
      assert PeopleOk(u) by {
        RestPeople(u);
      }
      assert forall d :: Connected(u, d) ==> PlayerOk(u, d) && u.players[d].id > 0 by {
        ConnectedIds(u);
      }
      assert u.players[c].sock == 0 && 0 < c < u.nextConn by {
        DetachedOne(s, c);
      }
      DeleteLoses(u, c);
      hide DeletePlayer;
      ReleaseZero(u.handlers);
    }
  }

  lemma ReleaseZero(h: map<nat, Handler>)
    ensures Release(h, 0) == h
  {
  }

  lemma DetachedOne(s: State, c: int)
    requires AtRest(s) && c in s.players
    ensures var u := Detach(s, c); c in u.players && u.players[c].sock == 0 && 0 < c < u.nextConn
  {
    assert PlayerOk(s, c);
  }

  lemma RestPeople(s: State)
    requires AtRest(s)
    ensures PeopleOk(s)
  {
  }

  lemma ConnectedIds(s: State)
    requires PeopleOk(s)
    ensures forall d :: Connected(s, d) ==> PlayerOk(s, d) && s.players[d].id > 0
  {
  }

  lemma RegisterRests(s: State, p: Player)
    requires AtRest(s) && p.sock == 0 && p.roomId == 0 && p.id != 0 && (p.status == Robot ==> p.id < 0)
    requires p.id < 0 ==> p.id == s.nextRobot
    ensures var t := Register(s, s.nextConn, p)
        .(nextConn := s.nextConn + 1, nextRobot := if p.id < 0 then s.nextRobot - 1 else s.nextRobot);
      AtRest(t) && Nowhere(t, s.nextConn) && s.nextConn in t.players
  {
    var c := s.nextConn;
    var t := Register(s, c, p)
      .(nextConn := c + 1, nextRobot := if p.id < 0 then s.nextRobot - 1 else s.nextRobot);
    assert forall d :: d in s.players ==> PlayerOk(s, d);
    assert PlayerOk(t, c);
    assert forall d :: d in t.players ==> PlayerOk(t, d);
    assert PeopleOk(t);
    forall r | r in t.rooms
      ensures c !in t.rooms[r].players && c !in t.rooms[r].observers
    {
      assert RoomBasics(s, r, {});
    }
    hide PlayerOk, PeopleOk, RoomBasics;
    PlacedQuiet(s, t, 0, {});
  }

  lemma FreshLoginRests(s: State, sock: nat, id: int)
    requires AtRest(s) && id > 0 && sock != 0 && sock in s.handlers && s.handlers[sock] == Early
    ensures AtRest(CreateNewPlayer(s, sock, id))
  {
    var c := s.nextConn;
    RegisterRests(s, Player(id, Online, 0, 0));
    var s1 := Register(s, c, Player(id, Online, 0, 0)).(nextConn := c + 1);
    assert s1.handlers == s.handlers && s1.players[c].id == id;
    SocketRests(s1, c, sock);
    hide PlacesOk;
    EnterLobbyRests(SetSocket(s1, c, sock), c);
  }

  lemma LoginRests(s: State, sock: nat, id: int)
    requires AtRest(s) && id > 0 && sock != 0 && sock in s.handlers && s.handlers[sock] == Early
    ensures AtRest(DoLogin(s, sock, id))
  {
    if id in s.online && s.online[id] in s.players && InsideGame(s, s.online[id]) {
      var c := s.online[id];
      assert AccountsOk(s);
      SocketRests(s, c, sock);
      hide PlacesOk;
      StatusRests(SetSocket(s, c, sock), c, Online);
    } else {
      FreshLoginRests(s, sock, id);
    }
  }

  // ---------------------------------------------------------------- seats

  lemma SitRests(s: State, r: nat, room: Room, c: int)
    requires AtRest(s) && c in s.players && r in s.rooms && Nowhere(s, c)
    requires RoomBasics(Sit(s, r, room, c), r, {})
    ensures AtRest(Sit(s, r, room, c))
  {
    assert RoomBasics(s, r, {});
    SitPeople(s, r, room, c);
    hide PeopleOk, RoomBasics;
    PlacedFrame(s, Sit(s, r, room, c), 0, {}, r);
  }

  lemma SeatBasics(s: State, r: nat, c: int, owner: int)
    requires r in s.rooms && RoomBasics(s, r, {}) && c in s.players && c < s.nextConn
    requires c !in s.rooms[r].players && c !in s.rooms[r].observers && c !in s.rooms[r].npcs && !IsFull(s.rooms[r])
    ensures var room := s.rooms[r];
      RoomBasics(Sit(s, r, room.(players := room.players + [c], owner := owner), c), r, {})
  {
    var room := s.rooms[r];
    AppendMembers(room.players, c);
    SeatedAppend(room.players, c, room.npcs);
    SeatedBound(room.players, room.npcs);
  }

  lemma JoinRests(s: State, r: nat, c: int)
    requires AtRest(s) && r in s.rooms && c in s.players && Nowhere(s, c) && c !in s.rooms[r].npcs && !IsFull(s.rooms[r])
    ensures AtRest(Sit(s, r, Joined(s.rooms[r], c), c))
  {
    assert PlayerOk(s, c) && RoomBasics(s, r, {});
    var room := s.rooms[r];
    SeatBasics(s, r, c, if room.owner == 0 then c else room.owner);
    hide PlacesOk, RoomBasics, PlayerOk, Sit;
    SitRests(s, r, Joined(room, c), c);
  }

  lemma UnlistedSender(s: State, c: int)
    requires AtRest(s) && SenderInLobby(s, c)
    ensures Nowhere(s, c) && s.players[c].id > 0 && 0 < c < s.nextConn && 0 !in s.rooms
    ensures forall r :: r in s.rooms ==> c !in s.rooms[r].npcs
  {
    assert PlayerOk(s, c);
    NoRoomZeroYet(s, 0, {});
    OwnRoomOnly(s, c, 0, {});
    forall r | r in s.rooms
      ensures c !in s.rooms[r].npcs
    {
      assert RoomBasics(s, r, {});
    }
  }

  lemma EnterRests(s: State, r: nat, c: int)
    requires AtRest(s) && SenderInLobby(s, c) && r in s.rooms
    ensures AtRest(LeaveLobbyFor(AddPlayer(s, r, c), r, c))
  {
    UnlistedSender(s, c);
    EnterShape(s, r, c);
    hide PlacesOk, AddPlayer, LeaveLobbyFor;
    if Admits(s, r, c) {
      JoinRests(s, r, c);
    }
  }

  lemma CreateRoomRests(s: State, c: int, capacity: nat)
    requires AtRest(s) && SenderInLobby(s, c)
    ensures AtRest(DoCreateRoom(s, c, capacity))
  {
    var r := s.nextRoom;
    var u := SetRoom(s, r, Room([], [], 0, capacity, 0, [], {})).(nextRoom := r + 1);
    UnlistedSender(s, c);
    NewRoomOk(u, r) by {
      RestPeople(s);
    }
    NewRoomPeople(s, u);
    hide PeopleOk, RoomBasics;
    PlacedFrame(s, u, 0, {}, r);
    hide PlacesOk, AddPlayer, LeaveLobbyFor;
    EnterRests(u, r, c);
  }

  lemma ObserveRests(s: State, r: nat, c: int)
    requires AtRest(s) && SenderInLobby(s, c) && r in s.rooms
    ensures AtRest(LeaveLobbyFor(AddObserver(s, r, c), r, c))
  {
    var room := s.rooms[r];
    UnlistedSender(s, c);
    if !(room.luaRefs <= 0 || s.players[c].id in room.rejected) {
      var room' := room.(observers := room.observers + [c]);
      assert RoomBasics(s, r, {});
      AppendMembers(room.observers, c);
      assert RoomBasics(Sit(s, r, room', c), r, {});
      assert LeaveLobbyFor(AddObserver(s, r, c), r, c) == Sit(s, r, room', c);
      hide PlacesOk, RoomBasics, Sit;
      SitRests(s, r, room', c);
    }
  }

  // ---------------------------------------------------------------- rooms

  lemma LeaveRests(s: State, c: int)
    requires AtRest(s) && c in s.players && s.players[c].roomId in s.rooms
    ensures var t := RemovePlayer(s, s.players[c].roomId, c, s.players[c]);
      && AtRest(t) && c in t.players
      && (Playing(s, c) ==> t.players[c].status == Run)
      && (!Playing(s, c) ==> Nowhere(t, c))
  {
    hide PlacesOk, RemovePlayer;
    PlacedRemove(s, c, 0, {});
    RemoveLists(s, c, 0, {});
  }

  lemma QuitRests(s: State, c: int)
    requires AtRest(s) && SenderInRoom(s, c)
    ensures AtRest(DoQuit(s, c))
  {
    LeaveRests(s, c);
    var t := RemovePlayer(s, s.players[c].roomId, c, s.players[c]);
    hide PlacesOk, RemovePlayer, LobbyAdd;
    if t.players[c].status == Online {
      LobbyAddRests(t, c);
    }
  }

  lemma KickRests(s: State, r: nat, id: int)
    requires AtRest(s) && r in s.rooms
    ensures AtRest(DoKick(s, r, id))
  {
    var x := FindPlayer(s, id);
    if !(id == 0 || x !in s.players || s.rooms[r].luaRefs > 0 || s.players[x].roomId != r) {
      LeaveRests(s, x);
      var s1 := RemovePlayer(s, r, x, s.players[x]);
      hide PlacesOk, RemovePlayer, LobbyAdd;
      LobbyAddRests(s1, x);
      var s2 := LobbyAdd(s1, x);
      if r in s2.rooms {
        PlacedSettings(s2, DoKick(s, r, id), 0, {}, r);
      }
    }
  }

  lemma RobotRests(s: State)
    requires AtRest(s)
    ensures var u := CreateRobot(s);
      && AtRest(u) && Nowhere(u, s.nextConn) && s.nextConn in u.players && u.players[s.nextConn].id < 0
      && u.rooms == s.rooms && u.lobby == s.lobby && s.nextConn !in s.lobby
      && forall r :: r in s.rooms ==> s.nextConn !in s.rooms[r].npcs
  {
    RegisterRests(s, Player(s.nextRobot, Robot, 0, 0));
    forall r | r in s.rooms
      ensures s.nextConn !in s.rooms[r].npcs
    {
      assert RoomBasics(s, r, {});
    }
    assert forall d :: d in s.lobby ==> d in s.players && PlayerOk(s, d);
  }

  lemma AddRobotRests(s: State, r: nat, c: int)
    requires AtRest(s) && r in s.rooms && SenderInRoom(s, c)
    ensures AtRest(DoAddRobot(s, r, c))
  {
    var x, u := s.nextConn, CreateRobot(s);
    RobotRests(s);
    assert PlayerOk(s, c);
    if c == s.rooms[r].owner && !IsFull(s.rooms[r]) {
      if s.nextRobot !in s.rooms[r].rejected && s.rooms[r].luaRefs <= 0 {
        RobotShape(s, r, x);
        hide PlacesOk, Sit, AddPlayer, CreateRobot, PlayerOk;
        JoinRests(u, r, x);
      } else {
        RefusedRobot(s, r);
      }
    }
  }

  lemma RefusedRobot(s: State, r: nat)
    requires r in s.rooms && (s.nextRobot in s.rooms[r].rejected || s.rooms[r].luaRefs > 0)
    ensures AddPlayer(CreateRobot(s), r, s.nextConn) == CreateRobot(s)
  {
  }

  lemma AddNpcRests(s: State, r: nat)
    requires AtRest(s) && r in s.rooms
    ensures AtRest(DoAddNpc(s, r))
  {
    var x, u := s.nextConn, CreateRobot(s);
    RobotRests(s);
    var room := u.rooms[r];
    var room' := room.(players := room.players + [x], npcs := room.npcs + {x});
    assert RoomBasics(u, r, {}) && PlayerOk(u, x);
    NpcBasics(u, r, x);
    assert u.lobby - {x} == u.lobby;
    assert DoAddNpc(s, r) == Sit(u, r, room', x);
    hide PlacesOk, Sit, CreateRobot, RoomBasics;
    SitRests(u, r, room', x);
  }

  lemma NpcBasics(s: State, r: nat, x: int)
    requires r in s.rooms && RoomBasics(s, r, {}) && x in s.players && s.players[x].id < 0 && x < s.nextConn
    requires x !in s.rooms[r].players && x !in s.rooms[r].observers
    ensures var room := s.rooms[r];
      RoomBasics(Sit(s, r, room.(players := room.players + [x], npcs := room.npcs + {x}), x), r, {})
  {
    var room := s.rooms[r];
    AppendMembers(room.players, x);
    SeatedAppend(room.players, x, room.npcs + {x});
    SeatedNewNpc(room.players, room.npcs, x);
  }

  /** Whoever `removeNpc` is called for. */
  lemma RemoveNpcRests(s: State, r: nat, c: int)
    requires AtRest(s) && r in s.rooms && c in s.players
    ensures AtRest(DoRemoveNpc(s, r, c))
  {
    if c in s.rooms[r].players {
      var u := WithoutSeat(s, r, c);
      assert RoomBasics(s, r, {});
      OwnRoomOnly(s, c, 0, {});
      PlacedErase(s, r, c, 0, {});
      assert Nowhere(u, c);
      hide PlacesOk, DeletePlayer, RoomBasics, Erase;
      DeleteNowhere(u, c);
    }
  }

  lemma ChangeRoomRests(s: State, r: nat, c: int, capacity: int)
    requires AtRest(s) && r in s.rooms
    ensures AtRest(DoChangeRoom(s, r, c, capacity))
  {
    var room, t := s.rooms[r], DoChangeRoom(s, r, c, capacity);
    if !(c != room.owner || capacity < |room.players|) {
      assert RoomBasics(s, r, {});
      SeatedBound(room.players, room.npcs);
      assert RoomBasics(t, r, {});
      hide RoomBasics;
      PlacedRoom(s, t, 0, {}, r);
    }
  }

  lemma {:induction false} GameOverRests(s: State, members: seq<int>)
    requires AtRest(s)
    ensures AtRest(DoGameOver(s, members))
    decreases |members|
  {
    hide PlacesOk;
    if members != [] {
      var c := members[0];
      var change := c in s.players && s.players[c].id > 0 && s.players[c].status == Trust;
      if change {
        StatusRests(s, c, Online);
      }
      GameOverRests(if change then SetStatus(s, c, Online) else s, members[1..]);
    }
  }

  // ---------------------------------------------------------------- sweeps

  /** Absent members of room `r0` are destroyed one after the other; the room may still name them. */
  lemma {:induction false} DeleteAllPlaced(s: State, gone: seq<int>, r0: nat, dead: set<int>) returns (dead': set<int>)
    requires PlacesOk(s, r0, dead) && Distinct(gone) && forall x :: x in gone ==> x < s.nextConn
    requires forall x :: x in gone && x in s.players ==> s.players[x].sock == 0 && s.players[x].roomId == r0
    ensures PlacesOk(DeleteAll(s, gone), r0, dead') && dead' <= dead + set x | x in gone
    decreases |gone|
  {
    if gone == [] {
      dead' := dead;
    } else {
      var x := gone[0];
      assert x in gone && (forall d :: d in gone[1..] ==> d in gone && d != x) && Distinct(gone[1..]);
      assert forall d :: d in gone <==> d == x || d in gone[1..];
      if x in s.players {
        var mid := if Playing(s, x) then dead + {x} else dead;
        PlacedDelete(s, x, r0, dead);
        NewcomersElsewhere(s, x, r0, dead);
        hide PlacesOk, DeletePlayer;
        dead' := DeleteAllPlaced(DeletePlayer(s, x), gone[1..], r0, mid);
      } else {
        hide PlacesOk;
        dead' := DeleteAllPlaced(s, gone[1..], r0, dead);
      }
    }
  }

  /** Destroying one of them makes no other of them. */
  lemma NewcomersElsewhere(s: State, x: int, r0: nat, dead: set<int>)
    requires PlacesOk(s, r0, dead) && x in s.players
    ensures forall d :: d in DeletePlayer(s, x).players && d < s.nextConn ==> d in s.players && DeletePlayer(s, x).players[d] == s.players[d]
    ensures s.nextConn <= DeletePlayer(s, x).nextConn
  {
    assert PlayerOk(s, x);
    DeletePeople(s, x);
    assert forall d :: d in s.players ==> PlayerOk(s, d) && d < s.nextConn;
    DeleteFewer(s, x);
  }

  lemma DeleteFewer(s: State, x: int)
    requires x in s.players && x < s.nextConn
    ensures forall d :: d in DeletePlayer(s, x).players && d < s.nextConn ==> d in s.players && d != x
  {
    var p := s.players[x];
    var s1 := Unregister(s, x, p);
    if p.roomId != 0 && p.roomId in s1.rooms {
      RemovePeople(s1, p.roomId, x, p);
      Bounds.RunAwayShape(s1, x, p);
      hide RunAway, RemovePlayer;
    }
  }

  lemma SweepRests(s: State, r: nat)
    requires AtRest(s) && r in s.rooms
    ensures AtRest(SweepAbsent(s, r)) && r in SweepAbsent(s, r).rooms
  {
    var gone := Absent(s, s.rooms[r].players);
    AbsentOnes(s, r);
    RestAnywhere(s, r);
    var dead := DeleteAllPlaced(s, gone, r, {});
    Theorems.DeleteAllRooms(s, gone);
    var u := DeleteAll(s, gone);
    hide DeleteAll, Absent, PlacesOk;
    SweptRests(u, r, (set x | x in gone), dead);
  }

  lemma RestAnywhere(s: State, r: nat)
    requires AtRest(s)
    ensures PlacesOk(s, r, {})
  {
    assert forall q :: DeadIn(q, r, {}) == DeadIn(q, 0, {}) == {};
  }

  lemma AbsentOnes(s: State, r: nat)
    requires AtRest(s) && r in s.rooms
    ensures var gone := Absent(s, s.rooms[r].players);
      && Distinct(gone) && (forall x :: x in gone ==> x < s.nextConn)
      && forall x :: x in gone && x in s.players ==> s.players[x].sock == 0 && s.players[x].roomId == r
  {
    assert RoomBasics(s, r, {});
    AbsentMembers(s, s.rooms[r].players);
    assert forall x :: x in s.players ==> PlayerOk(s, x);
    hide Absent;
  }

  /** Once the list of members is cleared of everybody who was thrown out, it names nobody who is gone. */
  lemma SweptRests(u: State, r: nat, gone: set<int>, dead: set<int>)
    requires PlacesOk(u, r, dead) && r in u.rooms && dead <= gone
    ensures AtRest(SetRoom(u, r, u.rooms[r].(players := Without(u.rooms[r].players, gone))))
  {
    var room := u.rooms[r];
    var t := SetRoom(u, r, room.(players := Without(room.players, gone)));
    WithoutMembers(room.players, gone);
    WithoutSeated(room.players, gone, room.npcs);
    hide Without;
    PeopleFrame(u, t);
    hide PeopleOk;
    forall q | q in t.rooms
      ensures RoomBasics(t, q, {})
    {
      assert RoomBasics(u, q, DeadIn(q, r, dead));
    }
  }

  lemma OutsideDelete(s: State, x: int)
    requires AtRest(s) && x in s.players && s.players[x].roomId !in s.rooms
    ensures var t := DeletePlayer(s, x);
      AtRest(t) && t.rooms == s.rooms && t.nextConn == s.nextConn && t.players == s.players - {x}
  {
    OwnRoomOnly(s, x, 0, {});
    NoRoomZeroYet(s, 0, {});
    hide PlacesOk;
    DeleteNowhere(s, x);
  }

  lemma OutsideAdd(s: State, x: int)
    requires AtRest(s) && x in s.players && s.players[x].roomId !in s.rooms
    ensures var t := LobbyAdd(s, x);
      && AtRest(t) && t.rooms == s.rooms && t.nextConn == s.nextConn
      && forall d :: d in t.players ==> d in s.players && (t.players[d] == s.players[d] || t.players[d].roomId !in s.rooms)
  {
    OwnRoomOnly(s, x, 0, {});
    NoRoomZeroYet(s, 0, {});
    OutsideDelete(s, x);
    hide PlacesOk, DeletePlayer;
    LobbyAddRests(s, x);
  }

  lemma {:induction false} SendHomeRests(s: State, members: seq<int>)
    requires AtRest(s)
    requires forall x :: x in members && x in s.players ==> s.players[x].roomId !in s.rooms
    ensures AtRest(SendHome(s, members))
    decreases |members|
  {
    hide PlacesOk, DeletePlayer, LobbyAdd;
    if members != [] {
      var x := members[0];
      assert x in members && forall d :: d in members[1..] ==> d in members;
      var t := if x !in s.players then s else if s.players[x].sock != 0 then LobbyAdd(s, x) else DeletePlayer(s, x);
      if x in s.players {
        OutsideAdd(s, x);
        OutsideDelete(s, x);
      }
      SendHomeRests(t, members[1..]);
    }
  }

  lemma DestroyRests(s: State, r: nat)
    requires AtRest(s) && r in s.rooms
    ensures AtRest(DestroyRoom(s, r))
  {
    var u := s.(rooms := s.rooms - {r});
    assert RoomBasics(s, r, {});
    PeopleFrame(s, u);
    hide PeopleOk, RoomBasics;
    PlacedFrame(s, u, 0, {}, r);
    hide PlacesOk;
    SendHomeRests(u, s.rooms[r].players + s.rooms[r].observers) by {
      MembersHere(s, r);
    }
  }

  lemma MembersHere(s: State, r: nat)
    requires AtRest(s) && r in s.rooms
    ensures forall x :: x in s.rooms[r].players + s.rooms[r].observers && x in s.players ==> s.players[x].roomId == r
  {
    assert RoomBasics(s, r, {});
  }

  lemma CheckRests(s: State, r: nat, reason: Reason)
    requires AtRest(s) && r in s.rooms
    ensures AtRest(CheckAbandoned(s, r, reason))
  {
    hide PlacesOk, SweepAbsent, DestroyRoom;
    var u := if reason == NoRefCount then SweepAbsent(s, r) else s;
    if reason == NoRefCount {
      SweepRests(s, r);
    }
    DestroyRests(u, r);
  }

  lemma RunCheckRests(s: State)
    requires AtRest(s) && s.checks != []
    ensures AtRest(DoRunCheck(s))
  {
    var u := s.(checks := s.checks[1..]);
    PeopleFrame(s, u);
    hide PeopleOk, RoomBasics;
    PlacedQuiet(s, u, 0, {});
    hide PlacesOk, CheckAbandoned;
    if s.checks[0].room in u.rooms {
      CheckRests(u, s.checks[0].room, s.checks[0].reason);
    }
  }

  lemma {:induction false} IdleRests(s: State, gone: seq<int>)
    requires AtRest(s) && Distinct(gone)
    requires forall x :: x in gone ==> x in s.players && s.players[x].roomId == 0
    ensures AtRest(DeleteAll(s, gone))
    decreases |gone|
  {
    if gone != [] {
      var x := gone[0];
      assert x in gone && forall d :: d in gone[1..] ==> d in gone && d != x;
      NoRoomZeroYet(s, 0, {});
      hide PlacesOk, DeletePlayer;
      OutsideDelete(s, x);
      IdleRests(DeletePlayer(s, x), gone[1..]);
    }
  }

  lemma SweepLobbyRests(s: State, gone: seq<int>)
    requires AtRest(s) && LobbySweep(s, gone)
    ensures AtRest(DoSweepLobby(s, gone))
  {
    var listed, idle := set d | d in gone, set d | d in s.lobby && !Connected(s, d);
    assert listed == idle && forall d :: d in gone ==> d in listed;
    IdleRests(s, gone);
    hide PlacesOk, DeleteAll;
    PlacedLobby(DeleteAll(s, gone), DoSweepLobby(s, gone), 0, {});
  }

  // ---------------------------------------------------------------- every step, every run

  lemma ConnectRests(s: State, sock: nat)
    requires AtRest(s) && sock != 0 && sock !in s.handlers
    ensures AtRest(s.(handlers := s.handlers[sock := Early]))
  {
    var t := s.(handlers := s.handlers[sock := Early]);
    assert forall d :: d in t.players ==> PlayerOk(s, d) && PlayerOk(t, d);
    hide PlayerOk, RoomBasics;
    PlacedQuiet(s, t, 0, {});
  }

  lemma SessionStepRests(s: State, step: Step)
    requires AtRest(s)
    ensures AtRest(SessionStep(s, step))
  {
    hide PlacesOk, DoLogin, DoSocketGone;
    if SessionStep(s, step) != s {
      match step
      case Connect(sock) => ConnectRests(s, sock);
      case Login(sock, id) => LoginRests(s, sock, id);
      case SocketGone(sock) => SocketGoneRests(s, sock);
    }
  }

  lemma LobbyStepRests(s: State, step: Step)
    requires AtRest(s)
    ensures AtRest(LobbyStep(s, step))
  {
    hide PlacesOk, AddPlayer, AddObserver, LeaveLobbyFor, DoCreateRoom;
    if LobbyStep(s, step) != s {
      match step
      case CreateRoom(c, capacity) => CreateRoomRests(s, c, ToSize(capacity));
      case EnterRoom(c, r) => EnterRests(s, r, c);
      case ObserveRoom(c, r) => ObserveRests(s, r, c);
    }
  }

  lemma RoomStepRests(s: State, step: Step)
    requires AtRest(s)
    ensures AtRest(RoomStep(s, step))
  {
    hide PlacesOk, DoQuit, DoAddRobot, DoKick, DoChangeRoom;
    if RoomStep(s, step) != s {
      match step
      case QuitRoom(c) => QuitRests(s, c);
      case AddRobot(c) => AddRobotRests(s, s.players[c].roomId, c);
      case KickPlayer(c, id) => KickRests(s, s.players[c].roomId, id);
      case ToggleTrust(c) => StatusRests(s, c, if s.players[c].status == Trust then Online else Trust);
      case ChangeRoom(c, capacity) => ChangeRoomRests(s, s.players[c].roomId, c, capacity);
      case StartGame(c) => PlacedSettings(s, RoomStep(s, step), 0, {}, s.players[c].roomId);
    }
  }

  lemma LuaStepRests(s: State, step: Step)
    requires AtRest(s)
    ensures AtRest(LuaStep(s, step))
  {
    hide PlacesOk, DoGameOver, DoAddNpc, DoRemoveNpc;
    if LuaStep(s, step) != s {
      match step
      case GameOver(r) => GameOverRests(s, s.rooms[r].players);
      case LuaRelease(r) => PlacedSettings(s, DoLuaRelease(s, r), 0, {}, r);
      case AddNpc(r) => AddNpcRests(s, r);
      case RemoveNpc(r, c) => RemoveNpcRests(s, r, c);
    }
  }

  lemma HouseStepRests(s: State, step: Step)
    requires AtRest(s)
    ensures AtRest(HouseStep(s, step))
  {
    hide PlacesOk, DoRunCheck, DoSweepLobby;
    if HouseStep(s, step) != s {
      match step
      case ForgetReject(r, _) => PlacedSettings(s, HouseStep(s, step), 0, {}, r);
      case PostCheck(r) =>
        assert s.rooms == s.rooms[r := s.rooms[r]];
        PlacedSettings(s, HouseStep(s, step), 0, {}, r);
      case RunCheck => RunCheckRests(s);
      case SweepLobby(gone) => SweepLobbyRests(s, gone);
    }
  }

  lemma StepRests(s: State, step: Step)
    requires AtRest(s)
    ensures AtRest(NextAny(s, step))
  {
    hide PlacesOk, SessionStep, LobbyStep, RoomStep, LuaStep, HouseStep, DoRemoveNpc;
    SessionStepRests(s, step);
    LobbyStepRests(s, step);
    RoomStepRests(s, step);
    LuaStepRests(s, step);
    HouseStepRests(s, step);
    if step.RemoveNpc? && step.r in s.rooms && step.c in s.players {
      RemoveNpcRests(s, step.r, step.c);
    }
  }

  lemma {:induction false} ReachAnyRests(steps: seq<Step>)
    ensures AtRest(ReachAny(steps))
    decreases |steps|
  {
    hide NextAny;
    if steps != [] {
      hide PlacesOk;
      ReachAnyRests(steps[..|steps| - 1]);
      StepRests(ReachAny(steps[..|steps| - 1]), steps[|steps| - 1]);
    }
  }

  // ---------------------------------------------------------------- main results

  /** In every such run a connection is listed at most once, it is a live player's, and that player's `roomId`
      names the place. */
  lemma ListedAtMostOnceAnyway(steps: seq<Step>, c: int, one: Theorems.Place, other: Theorems.Place)
    requires Theorems.ListedAt(ReachAny(steps), c, one)
    ensures var s := ReachAny(steps);
      && c in s.players && s.players[c].roomId == Theorems.PlaceRoom(one)
      && (Theorems.ListedAt(s, c, other) ==> other == one)
  {
    var s := ReachAny(steps);
    ReachAnyRests(steps);
    hide ReachAny;
    PlaceNamed(s, c, one);
    if Theorems.ListedAt(s, c, other) {
      PlaceNamed(s, c, other);
      NoRoomZeroYet(s, 0, {});
      if !one.InLobby? {
        assert RoomBasics(s, one.room, {});
        assert one.Seat? ==> c in s.rooms[one.room].players;
        assert other.Seat? ==> c in s.rooms[one.room].players;
      }
    }
  }

  lemma PlaceNamed(s: State, c: int, place: Theorems.Place)
    requires AtRest(s) && Theorems.ListedAt(s, c, place)
    ensures c in s.players && s.players[c].roomId == Theorems.PlaceRoom(place)
  {
    match place
    case InLobby =>
    case Seat(r, i) =>
      assert RoomBasics(s, r, {}) && c in s.rooms[r].players;
    case Chair(r, i) =>
      assert RoomBasics(s, r, {}) && c in s.rooms[r].observers;
  }

  /** The account maps are views of the connection map, and members outside `addNpc` fit the capacity. */
  lemma ViewsAndSeatsAnyway(steps: seq<Step>, account: int, r: nat)
    ensures var s := ReachAny(steps);
      && (account in s.online ==> s.online[account] in s.players && s.players[s.online[account]].id == account)
      && (account in s.robots ==> s.robots[account] in s.players && s.players[s.robots[account]].id == account)
      && (r in s.rooms ==> Seated(s.rooms[r].players, s.rooms[r].npcs) <= s.rooms[r].capacity)
  {
    var s := ReachAny(steps);
    ReachAnyRests(steps);
    hide ReachAny;
    assert r in s.rooms ==> RoomBasics(s, r, {});
  }
}
