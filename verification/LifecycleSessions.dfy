/** Logins and lost sockets: who a client is afterwards, and that a player who loses the connection inside a
    game comes back to the same seat. */
module LifecycleSessions {
  import opened Lifecycle
  import opened LifecycleInvariant
  import opened LifecycleSteps
  import opened LifecyclePlaces
  import opened LifecycleEffects
  import opened LifecycleDepartures
  import Theorems = LifecycleTheorems

  /** In a room where a game runs, and not among its observers. */
  predicate InGame(s: State, c: int) {
    c in s.players && s.players[c].roomId in s.rooms && s.rooms[s.players[c].roomId].luaRefs > 0
    && c !in s.rooms[s.players[c].roomId].observers
  }

  lemma InGameIs(s: State, c: int)
    requires Inv(s) && c in s.players
    ensures InGame(s, c) <==> InsideGame(s, c)
  {
    NoRoomZero(s);
  }

  // ---------------------------------------------------------------- logging in

  /** The account's current player is `c`, online on this socket, and the socket's end is its business. */
  predicate On(t: State, c: int, id: int, sock: nat) {
    && id in t.online && t.online[id] == c && c in t.players && t.players[c].id == id
    && t.players[c].sock == sock && t.players[c].status == Online
    && sock in t.handlers && t.handlers[sock] == Session(c)
  }

  /** The account's current player is `c`, and only this account and this player are touched. */
  ghost predicate LoggedIn(s: State, t: State, c: int, id: int, sock: nat) {
    && On(t, c, id, sock) && t.rooms == s.rooms && t.checks == s.checks && t.robots == s.robots
    && t.online == s.online[id := c] && Elsewhere(s, t, {c}, 0)
  }

  /** An account whose current player is in a running game gets that player back, in its place, and an older
      socket of it is disarmed; any other login makes a new player in the lobby.  Nobody else changes. */
  lemma LoggingIn(s: State, sock: nat, id: int)
    requires Reachable(s) && sock != 0 && sock in s.handlers && s.handlers[sock] == Early && id > 0
    ensures var t := Next(s, Login(sock, id));
      if id in s.online && InGame(s, s.online[id])
      then
        var c := s.online[id];
        && LoggedIn(s, t, c, id, sock) && t.players[c].roomId == s.players[c].roomId && t.lobby == s.lobby
        && (s.players[c].sock != 0 ==> s.players[c].sock in t.handlers && t.handlers[s.players[c].sock] == Inert)
      else
        && LoggedIn(s, t, s.nextConn, id, sock) && s.nextConn !in s.players && s.nextConn in t.lobby
        && t.players[s.nextConn].roomId == 0
  {
    hide Reachable;
    NewNumbers(s);
    ReachableKeeps(s);
    NotBound(s, sock);
    if id in s.online {
      AccountAlive(s, id);
    }
    hide Inv, InGame, InsideGame, LoggedIn;
    if id in s.online && InGame(s, s.online[id]) {
      OwnSocket(s, s.online[id]);
      ComesBack(s, s.online[id], sock, id);
    } else {
      ComesNew(s, sock, id);
    }
  }

  lemma AccountAlive(s: State, id: int)
    requires Inv(s) && id in s.online
    ensures s.online[id] in s.players && s.players[s.online[id]].id == id && (InGame(s, s.online[id]) <==> InsideGame(s, s.online[id]))
  {
    InGameIs(s, s.online[id]);
  }

  lemma ComesBack(s: State, c: int, sock: nat, id: int)
    requires id in s.online && s.online[id] == c && c in s.players && s.players[c].id == id && InsideGame(s, c)
    requires sock != 0 && s.players[c].sock != sock
    ensures var t := DoLogin(s, sock, id);
      && LoggedIn(s, t, c, id, sock) && t.players[c].roomId == s.players[c].roomId && t.lobby == s.lobby
      && (s.players[c].sock != 0 ==> s.players[c].sock in t.handlers && t.handlers[s.players[c].sock] == Inert)
  {
    hide InsideGame;
  }

  lemma ComesNew(s: State, sock: nat, id: int)
    requires id in s.online && s.online[id] in s.players ==> !InsideGame(s, s.online[id])
    requires sock != 0 && id > 0 && s.nextConn !in s.players && s.nextConn !in s.lobby
    ensures var t := DoLogin(s, sock, id);
      && LoggedIn(s, t, s.nextConn, id, sock) && s.nextConn in t.lobby && t.players[s.nextConn].roomId == 0
  {
    hide InsideGame;
  }

  lemma OwnSocket(s: State, c: int)
    requires Inv(s)
    ensures c in s.players && s.players[c].sock != 0 ==>
              s.players[c].sock in s.handlers && s.handlers[s.players[c].sock] == Session(c)
  {
    assert c in s.players ==> PlayerOk(s, c);
  }

  /** A socket that has not logged in yet is nobody's. */
  lemma NotBound(s: State, sock: nat)
    requires Inv(s) && sock in s.handlers && !s.handlers[sock].Session?
    ensures forall c :: c in s.players ==> s.players[c].sock != sock
  {
    assert forall c :: c in s.players ==> PlayerOk(s, c);
  }

  // ---------------------------------------------------------------- losing the socket

  /** Inside a game the player stays where it is, offline; anywhere else it is destroyed, and the account's entry
      goes if it still names it. */
  lemma LosingSocket(s: State, c: int, sock: nat)
    requires Reachable(s) && c in s.players && s.players[c].sock == sock && sock != 0
    ensures var t, p := Next(s, SocketGone(sock)), s.players[c];
      && sock in s.handlers && t.handlers == s.handlers[sock := Inert]
      && if InGame(s, c)
         then
           && c in t.players && t.players[c] == p.(sock := 0, status := Offline)
           && t.rooms == s.rooms && t.lobby == s.lobby && t.online == s.online && t.robots == s.robots && t.checks == s.checks
           && Elsewhere(s, t, {c}, 0)
         else
           && Gone(s, t, c) && t.robots == s.robots - {p.id}
           && t.online == if p.id in s.online && s.online[p.id] == c then s.online - {p.id} else s.online
  {
    hide Reachable;
    ReachableRests(s);
    InGameIs(s, c);
    OwnSocket(s, c);
    SocketEnds(s, c, sock);
    var u := Detach(s, c);
    DetachSame(s, c);
    assert u.handlers == s.handlers[sock := Inert];
    if !InGame(s, c) {
      DetachRests(s, c);
      NotSeated(s, c);
      assert !Playing(u, c);
      hide AtRest, Inv, Detach, DeletePlayer, InsideGame;
      DeletedGone(u, c);
      DeletedHandlers(u, c);
      SameGone(s, u, DeletePlayer(u, c).(handlers := s.handlers[sock := Inert]), c);
    }
  }

  lemma DetachSame(s: State, c: int)
    requires c in s.players
    ensures var u := Detach(s, c);
      && c in u.players && u.players[c] == s.players[c].(sock := 0, status := Offline)
      && u == s.(players := s.players[c := u.players[c]], handlers := u.handlers)
      && u.handlers == Release(s.handlers, s.players[c].sock)
  {
  }

  lemma SocketEnds(s: State, c: int, sock: nat)
    requires c in s.players && s.players[c].sock == sock && sock in s.handlers && s.handlers[sock] == Session(c)
    ensures var u := Detach(s, c);
      var v := if InsideGame(s, c) then u else DeletePlayer(u, c);
      DoSocketGone(s, sock) == v.(handlers := v.handlers[sock := Inert])
  {
    DetachSame(s, c);
    hide DeletePlayer;
  }

  lemma DeletedHandlers(s: State, c: int)
    requires AtRest(s) && c in s.players && s.players[c].sock == 0 && !Playing(s, c)
    ensures DeletePlayer(s, c).handlers == s.handlers
  {
    var p := s.players[c];
    if p.roomId in s.rooms {
      RestLists(s, p.roomId);
      LeftWaiting(Unregister(s, c, p), p.roomId, c, p);
      hide RemovePlayer, AtRest;
    }
  }

  lemma SameGone(s: State, u: State, t: State, c: int)
    requires c in s.players && c in u.players && u == s.(players := s.players[c := u.players[c]], handlers := u.handlers)
    requires u.players[c].roomId == s.players[c].roomId
    requires Gone(u, t.(handlers := u.handlers), c) || Gone(u, t, c)
    ensures Gone(s, t, c)
  {
  }

  /** The end of a socket that is nobody's changes nothing but its own callback. */
  lemma StrangeSocket(s: State, sock: nat)
    requires Reachable(s) && sock in s.handlers && forall c :: c in s.players ==> s.players[c].sock != sock
    ensures Next(s, SocketGone(sock)) == s.(handlers := s.handlers[sock := Inert])
  {
  }

  // ---------------------------------------------------------------- there and back

  /** A player who loses the socket inside a game and whose account logs in again on a new one is back in the same
      place, online, with nothing else changed anywhere. */
  lemma LostAndBack(s: State, c: int, sock: nat, again: nat)
    requires Reachable(s) && InGame(s, c) && s.players[c].sock == sock && sock != 0
    requires s.players[c].id in s.online && s.online[s.players[c].id] == c && again != 0 && again !in s.handlers
    ensures var t := Theorems.Continue(s, [SocketGone(sock), Connect(again), Login(again, s.players[c].id)]);
      && t.players == s.players[c := s.players[c].(sock := again, status := Online)]
      && t.rooms == s.rooms && t.lobby == s.lobby && t.online == s.online && t.robots == s.robots && t.checks == s.checks
      && t.handlers == s.handlers[sock := Inert][again := Session(c)]
  {
    hide Reachable, Next;
    var id := s.players[c].id;
    var u := Next(s, SocketGone(sock));
    LosingSocket(s, c, sock);
    ReachableStep(s, SocketGone(sock));
    var v := Next(u, Connect(again));
    FreshSocket(u, again);
    ReachableStep(u, Connect(again));
    OwnId(s, c);
    assert InGame(v, c) && v.online[id] == c;
    LoggingIn(v, again, id);
    var t := Next(v, Login(again, id));
    ThreeSteps(s, sock, again, id);
    BackHandlers(v, c, again, id);
    hide InGame;
    Back(s, u, t, c, again);
  }

  lemma OwnId(s: State, c: int)
    requires Reachable(s) && c in s.players && s.players[c].sock != 0
    ensures s.players[c].id > 0 && s.players[c].sock in s.handlers
  {
    hide Reachable;
    ReachableKeeps(s);
    assert PlayerOk(s, c);
  }

  lemma FreshSocket(s: State, sock: nat)
    requires sock != 0 && sock !in s.handlers
    ensures Next(s, Connect(sock)) == s.(handlers := s.handlers[sock := Early])
  {
  }

  lemma ThreeSteps(s: State, sock: nat, again: nat, id: int)
    ensures Theorems.Continue(s, [SocketGone(sock), Connect(again), Login(again, id)])
         == Next(Next(Next(s, SocketGone(sock)), Connect(again)), Login(again, id))
  {
    hide Next;
    var steps := [SocketGone(sock), Connect(again), Login(again, id)];
    assert steps[1..] == [Connect(again), Login(again, id)] && steps[1..][1..] == [Login(again, id)];
    assert [Login(again, id)][1..] == [];
    var u := Next(Next(s, SocketGone(sock)), Connect(again));
    assert Theorems.Continue(u, [Login(again, id)]) == Theorems.Continue(Next(u, Login(again, id)), []);
  }

  lemma BackHandlers(s: State, c: int, sock: nat, id: int)
    requires Reachable(s) && id in s.online && s.online[id] == c && InGame(s, c) && s.players[c].sock == 0
    requires sock != 0 && sock in s.handlers && s.handlers[sock] == Early && id > 0
    ensures var t := Next(s, Login(sock, id));
      && t.handlers == s.handlers[sock := Session(c)] && t.players == s.players[c := s.players[c].(sock := sock, status := Online)]
      && t.online == s.online
  {
    hide Reachable;
    ReachableKeeps(s);
    InGameIs(s, c);
    hide Inv, InGame, InsideGame;
  }

  lemma Back(s: State, u: State, t: State, c: int, again: nat)
    requires c in s.players && c in u.players && u.players[c] == s.players[c].(sock := 0, status := Offline) && Elsewhere(s, u, {c}, 0)
    requires t.players == u.players[c := u.players[c].(sock := again, status := Online)]
    ensures t.players == s.players[c := s.players[c].(sock := again, status := Online)]
  {
    forall d
      ensures d in t.players <==> d in s.players || d == c
      ensures d in s.players && d != c ==> t.players[d] == s.players[d]
    {
      if d != c {
        assert d !in {c};
      }
    }
  }
}
