/** Who is an account's current player, over every kind of event: the exact events after which it is another
    one, or none. */
module LifecycleAccounts {
  import opened Basics
  import opened Lifecycle
  import opened LifecycleInvariant
  import opened LifecycleSteps
  import opened LifecycleBounds
  import opened LifecycleTheorems

  /** Connection `c` is the current player of the account, on socket `sock`. */
  predicate Holds(s: State, account: int, c: int, sock: nat) {
    && account > 0 && account in s.online && s.online[account] == c
    && c in s.players && s.players[c].id == account && s.players[c].sock == sock && c < s.nextConn
  }

  /** The account has no player with a connection id below `n`. */
  predicate Lost(s: State, account: int, n: int) {
    account in s.online ==> n <= s.online[account]
  }

  // ---------------------------------------------------------------- destroying a player

  /** Destroying `x` makes it run away: it is in a seat of a running game. */
  predicate RunsAway(s: State, x: int)
    requires x in s.players
  {
    var r := s.players[x].roomId;
    && r != 0 && r in s.rooms && s.rooms[r].luaRefs > 0
    && x in s.rooms[r].players && x !in s.rooms[r].observers
  }

  lemma RemovePeople(s: State, r: nat, x: int, p: Player)
    requires r in s.rooms
    ensures var t := RemovePlayer(s, r, x, p);
      var room := s.rooms[r];
      if s.rooms[r].luaRefs > 0 && x in s.rooms[r].players && x !in s.rooms[r].observers
      then t.players == RunAway(s, x, p).players && t.online == RunAway(s, x, p).online && t.nextConn == s.nextConn + 1
      else t.players == s.players && t.online == s.online && t.nextConn == s.nextConn
  {
    var room := s.rooms[r];
    var u := SetRoom(s, r, room.(players := Erase(room.players, x)));
    RunAwayShape(s, x, p);
    AfterLeavePeople(u, r, x);
    assert RunAway(s, x, p).rooms == s.rooms;
    AfterLeavePeople(RunAway(s, x, p), r, x);
    hide AfterLeave, RunAway;
  }

  lemma DeletePeople(s: State, x: int)
    requires x in s.players
    ensures var p, t := s.players[x], DeletePlayer(s, x);
      var left := if p.id in s.online && s.online[p.id] == x then s.online - {p.id} else s.online;
      && t.online == (if RunsAway(s, x) && p.id > 0 then left[p.id := s.nextConn] else left)
      && (forall d :: d in s.players && d != x && d < s.nextConn ==> d in t.players && t.players[d] == s.players[d])
      && (x < s.nextConn && !RunsAway(s, x) ==> x !in t.players)
      && s.nextConn <= t.nextConn
  {
    var p := s.players[x];
    var s1 := Unregister(s, x, p);
    if p.roomId != 0 && p.roomId in s1.rooms {
      RemovePeople(s1, p.roomId, x, p);
      RunAwayShape(s1, x, p);
      hide RunAway, RemovePlayer;
    }
  }

  lemma DeleteHolds(s: State, x: int, account: int, c: int, sock: nat)
    requires x in s.players && Holds(s, account, c, sock)
    ensures var t := DeletePlayer(s, x);
      if x == c || (RunsAway(s, x) && s.players[x].id == account)
      then Lost(t, account, s.nextConn)
      else Holds(t, account, c, sock)
  {
    DeletePeople(s, x);
    hide DeletePlayer, RunsAway;
  }

  lemma DeleteLost(s: State, x: int, account: int, n: int)
    requires x in s.players && Lost(s, account, n) && n <= s.nextConn
    ensures Lost(DeletePlayer(s, x), account, n) && n <= DeletePlayer(s, x).nextConn
  {
    DeletePeople(s, x);
    hide DeletePlayer, RunsAway;
  }

  lemma {:induction false} DeleteAllLost(s: State, gone: seq<int>, account: int, n: int)
    requires Lost(s, account, n) && n <= s.nextConn
    ensures Lost(DeleteAll(s, gone), account, n) && n <= DeleteAll(s, gone).nextConn
    decreases |gone|
  {
    hide DeletePlayer, Lost;
    if gone != [] {
      if gone[0] in s.players {
        DeleteLost(s, gone[0], account, n);
        DeleteAllLost(DeletePlayer(s, gone[0]), gone[1..], account, n);
      } else {
        DeleteAllLost(s, gone[1..], account, n);
      }
    }
  }

  /** Players of no running game, one after the other. */
  lemma {:induction false} IdleHolds(s: State, gone: seq<int>, account: int, c: int, sock: nat, n: int)
    requires Inv(s) && Holds(s, account, c, sock) && c < n <= s.nextConn && Distinct(gone)
    requires forall x :: x in gone ==> x in s.players && s.players[x].sock == 0 && s.players[x].roomId == 0
    ensures var t := DeleteAll(s, gone);
      if c in gone then Lost(t, account, n) else Holds(t, account, c, sock)
    decreases |gone|
  {
    if gone != [] {
      var x := gone[0];
      assert x in gone && forall d :: d in gone[1..] ==> d in gone && d != x;
      NoRoomZero(s);
      assert PlayerOk(s, x);
      DeleteGone(s, x);
      DeleteUnfold(s, x);
      var u := DeletePlayer(s, x);
      DeleteHolds(s, x, account, c, sock);
      if x == c {
        assert Lost(u, account, n);
        DeletePeople(s, x);
        DeleteAllLost(u, gone[1..], account, n);
      } else {
        IdleHolds(u, gone[1..], account, c, sock, n);
      }
    }
  }

  // ---------------------------------------------------------------- the sweep of a room

  /** Among `gone` is the current player, or a seat of the same account in a running game. */
  ghost predicate Strikes(s: State, r: nat, gone: seq<int>, account: int, c: int)
    requires r in s.rooms
  {
    c in gone || (s.rooms[r].luaRefs > 0 && exists x :: x in gone && x in s.players && s.players[x].id == account)
  }

  lemma StrikesTail(s: State, u: State, r: nat, gone: seq<int>, account: int, c: int)
    requires r in s.rooms && r in u.rooms && u.rooms[r].luaRefs == s.rooms[r].luaRefs
    requires gone != [] && gone[0] in s.players && gone[0] !in gone[1..] && gone[0] != c
    requires forall x :: x in gone ==> x in s.players
    requires forall x :: x in gone[1..] ==> x in u.players && u.players[x] == s.players[x]
    requires !(s.rooms[r].luaRefs > 0 && s.players[gone[0]].id == account)
    ensures Strikes(u, r, gone[1..], account, c) <==> Strikes(s, r, gone, account, c)
  {
    assert forall x :: x in gone <==> x == gone[0] || x in gone[1..];
  }

  lemma {:induction false} SweepHolds(s: State, r: nat, gone: seq<int>, dead: set<int>, account: int, c: int, sock: nat, n: int)
    requires Sweeping(s, r, dead) && Doomed(s, r, gone) && Holds(s, account, c, sock) && c < n <= s.nextConn
    ensures var t := DeleteAll(s, gone);
      if Strikes(s, r, gone, account, c) then Lost(t, account, n) else Holds(t, account, c, sock)
    decreases |gone|
  {
    if gone != [] {
      var x := gone[0];
      assert x in gone;
      var u := DeletePlayer(s, x);
      var mid := SweepOne(s, r, x, dead);
      assert RoomBasics(s, r, dead);
      DeleteSpares(s, x);
      DoomedTail(s, u, r, gone);
      assert RunsAway(s, x) <==> s.rooms[r].luaRefs > 0;
      DeleteHolds(s, x, account, c, sock);
      assert s.nextConn <= u.nextConn;
      assert forall d :: d in gone[1..] ==> d in gone && d != x && d in u.players && u.players[d] == s.players[d];
      SweepStep(s, u, r, gone, mid, account, c, sock, n);
    }
  }

  lemma {:induction false} SweepStep(s: State, u: State, r: nat, gone: seq<int>, mid: set<int>, account: int, c: int, sock: nat, n: int)
    requires gone != [] && gone[0] in s.players && u == DeletePlayer(s, gone[0]) && r in s.rooms
    requires Sweeping(u, r, mid) && Doomed(u, r, gone[1..]) && c < n <= s.nextConn <= u.nextConn
    requires u.rooms[r].luaRefs == s.rooms[r].luaRefs && gone[0] !in gone[1..]
    requires forall d :: d in gone ==> d in s.players
    requires forall d :: d in gone[1..] ==> u.players[d] == s.players[d]
    requires var hit := gone[0] == c || (s.rooms[r].luaRefs > 0 && s.players[gone[0]].id == account);
      if hit then Lost(u, account, s.nextConn) else Holds(u, account, c, sock)
    ensures var t := DeleteAll(s, gone);
      if Strikes(s, r, gone, account, c) then Lost(t, account, n) else Holds(t, account, c, sock)
    decreases |gone|, 0
  {
    hide Sweeping, DeletePlayer;
    var x := gone[0];
    if x == c || (s.rooms[r].luaRefs > 0 && s.players[x].id == account) {
      assert x in gone && Strikes(s, r, gone, account, c);
      assert Lost(u, account, n);
      DeleteAllLost(u, gone[1..], account, n);
    } else {
      StrikesTail(s, u, r, gone, account, c);
      hide Doomed, Strikes;
      SweepHolds(u, r, gone[1..], mid, account, c, sock, n);
    }
  }

  // ---------------------------------------------------------------- the destruction of a room

  lemma LobbyAddHolds(s: State, x: int, account: int, c: int, sock: nat)
    requires Inv(s) && x in s.players && s.players[x].status != Robot && Holds(s, account, c, sock)
    ensures Holds(LobbyAdd(s, x), account, c, sock)
  {
  }

  lemma LobbyAddLost(s: State, x: int, account: int, n: int)
    requires x in s.players && Lost(s, account, n) && n <= s.nextConn
    ensures Lost(LobbyAdd(s, x), account, n) && n <= LobbyAdd(s, x).nextConn
  {
    DeleteLost(s, x, account, n);
    hide DeletePlayer;
  }

  lemma {:induction false} SendHomeLost(s: State, members: seq<int>, account: int, n: int)
    requires Lost(s, account, n) && n <= s.nextConn
    ensures Lost(SendHome(s, members), account, n)
    decreases |members|
  {
    hide DeletePlayer, LobbyAdd, Lost;
    if members != [] {
      var x := members[0];
      if x in s.players {
        DeleteLost(s, x, account, n);
        LobbyAddLost(s, x, account, n);
      }
      SendHomeLost(if x !in s.players then s else if s.players[x].sock != 0 then LobbyAdd(s, x) else DeletePlayer(s, x),
                   members[1..], account, n);
    }
  }

  lemma {:induction false} SendHomeHolds(s: State, members: seq<int>, account: int, c: int, sock: nat, n: int)
    requires Inv(s) && Holds(s, account, c, sock) && c < n <= s.nextConn
    requires forall x :: x in members && x in s.players ==> s.players[x].roomId !in s.rooms
    ensures var t := SendHome(s, members);
      if c in members && sock == 0 then Lost(t, account, n) else Holds(t, account, c, sock)
    decreases |members|
  {
    if members != [] {
      var x := members[0];
      assert x in members && forall d :: d in members[1..] ==> d in members;
      assert forall d :: d in members <==> d == x || d in members[1..];
      if x in s.players {
        HomeOne(s, x);
        assert PlayerOk(s, x);
        var u := if s.players[x].sock != 0 then LobbyAdd(s, x) else DeletePlayer(s, x);
        if s.players[x].sock != 0 {
          LobbyAddHolds(s, x, account, c, sock);
        } else {
          DeleteHolds(s, x, account, c, sock);
          DeletePeople(s, x);
        }
        HomeStep(s, u, members, account, c, sock, n);
      } else {
        SendHomeHolds(s, members[1..], account, c, sock, n);
      }
    }
  }

  lemma {:induction false} HomeStep(s: State, u: State, members: seq<int>, account: int, c: int, sock: nat, n: int)
    requires members != [] && members[0] in s.players && Holds(s, account, c, sock) && c < n <= s.nextConn <= u.nextConn
    requires u == if s.players[members[0]].sock != 0 then LobbyAdd(s, members[0]) else DeletePlayer(s, members[0])
    requires Inv(u) && forall x :: x in members[1..] && x in u.players ==> u.players[x].roomId !in u.rooms
    requires if members[0] == c && sock == 0 then Lost(u, account, s.nextConn) else Holds(u, account, c, sock)
    ensures var t := SendHome(s, members);
      if c in members && sock == 0 then Lost(t, account, n) else Holds(t, account, c, sock)
    decreases |members|, 0
  {
    hide Inv, LobbyAdd, DeletePlayer;
    assert forall d :: d in members <==> d == members[0] || d in members[1..];
    if members[0] == c && sock == 0 {
      assert Lost(u, account, n);
      SendHomeLost(u, members[1..], account, n);
    } else {
      SendHomeHolds(u, members[1..], account, c, sock, n);
    }
  }

  /** Deleting seats changes no list of observers. */
  lemma DeleteObservers(s: State, x: int, r: nat)
    requires x in s.players && r in s.rooms && x !in s.rooms[r].observers
    ensures r in DeletePlayer(s, x).rooms && DeletePlayer(s, x).rooms[r].observers == s.rooms[r].observers
  {
    var p := s.players[x];
    var s1 := Unregister(s, x, p);
    hide RemovePlayer;
    if p.roomId != 0 && p.roomId in s1.rooms {
      RemoveObservers(s1, p.roomId, x, p, r);
    }
  }

  lemma RemoveObservers(s: State, q: nat, x: int, p: Player, r: nat)
    requires q in s.rooms && r in s.rooms && x !in s.rooms[r].observers
    ensures r in RemovePlayer(s, q, x, p).rooms && RemovePlayer(s, q, x, p).rooms[r].observers == s.rooms[r].observers
  {
    var room := s.rooms[q];
    var u := SetRoom(s, q, room.(players := Erase(room.players, x)));
    AfterLeaveObservers(u, q, x, r);
    AfterLeaveObservers(RunAway(s, x, p), q, x, r);
    assert RunAway(s, x, p).rooms == s.rooms;
    hide AfterLeave, RunAway, Erase;
  }

  lemma AfterLeaveObservers(s: State, q: nat, c: int, r: nat)
    requires q in s.rooms && r in s.rooms
    ensures r in AfterLeave(s, q, c).rooms && AfterLeave(s, q, c).rooms[r].observers == s.rooms[r].observers
  {
    hide IsAbandoned, FirstConnected;
  }

  lemma {:induction false} DeleteAllObservers(s: State, gone: seq<int>, r: nat)
    requires r in s.rooms && forall x :: x in gone ==> x !in s.rooms[r].observers
    ensures r in DeleteAll(s, gone).rooms && DeleteAll(s, gone).rooms[r].observers == s.rooms[r].observers
    decreases |gone|
  {
    hide DeletePlayer;
    if gone != [] {
      var x := gone[0];
      assert x in gone && forall d :: d in gone[1..] ==> d in gone;
      if x in s.players {
        DeleteObservers(s, x, r);
        DeleteAllObservers(DeletePlayer(s, x), gone[1..], r);
      } else {
        DeleteAllObservers(s, gone[1..], r);
      }
    }
  }

  // ---------------------------------------------------------------- a queued check

  /** The check of room `r` throws a seat of the account out of a running game. */
  predicate SweepsSeat(s: State, r: nat, reason: Reason, account: int)
    requires r in s.rooms
  {
    && reason == NoRefCount && s.rooms[r].luaRefs > 0
    && exists x :: x in s.rooms[r].players && x in s.players && s.players[x].sock == 0 && s.players[x].id == account
  }

  /** The check of room `r` destroys player `c` itself. */
  predicate CheckDrops(s: State, r: nat, reason: Reason, c: int)
    requires r in s.rooms && c in s.players
  {
    var room := s.rooms[r];
    var removed := room.luaRefs <= 0 && IsAbandoned(s, room.players);
    && s.players[c].sock == 0
    && ((c in room.players && (reason == NoRefCount || removed)) || (c in room.observers && removed))
  }

  lemma SweepAccount(s: State, r: nat, account: int, c: int, sock: nat)
    requires r in s.rooms && InvLax(s, 0, {}, r) && OwnerOk(s, s.rooms[r], {}) && Holds(s, account, c, sock)
    ensures var t := SweepAbsent(s, r);
      if (c in s.rooms[r].players && sock == 0) || SweepsSeat(s, r, NoRefCount, account)
      then Lost(t, account, s.nextConn) && s.nextConn <= t.nextConn
      else Holds(t, account, c, sock)
    ensures var t := SweepAbsent(s, r); r in t.rooms && t.rooms[r].observers == s.rooms[r].observers
  {
    var gone := Absent(s, s.rooms[r].players);
    SweepBegins(s, r);
    var dead := SweepCore(s, r);
    hide DeleteAll, Absent, Sweeping, InvLax, OwnerOk, Doomed, Swept;
    DeleteAllObservers(s, gone, r);
    SweepHolds(s, r, gone, {}, account, c, sock, s.nextConn);
    StrikesHere(s, r, account, c, sock);
    hide Strikes;
    var u, t := DeleteAll(s, gone), SweepAbsent(s, r);
    SweptNext(s, u, r, set x | x in gone);
    assert t.players == u.players && t.online == u.online && t.nextConn == u.nextConn;
  }

  lemma SweptNext(s: State, t: State, r: nat, gone: set<int>)
    requires r in s.rooms && Swept(s, t, r, gone)
    ensures r in t.rooms && s.nextConn <= t.nextConn
  {
  }

  lemma SweepBegins(s: State, r: nat)
    requires r in s.rooms && InvLax(s, 0, {}, r) && OwnerOk(s, s.rooms[r], {})
    ensures var gone := Absent(s, s.rooms[r].players);
      && Sweeping(s, r, {}) && Doomed(s, r, gone)
      && forall x :: x in gone ==> x !in s.rooms[r].observers
  {
    assert DeadIn(r, 0, {}) == {};
    assert RoomBasics(s, r, DeadIn(r, 0, {}));
    AbsentMembers(s, s.rooms[r].players);
    StartSweep(s, r);
  }

  lemma StrikesHere(s: State, r: nat, account: int, c: int, sock: nat)
    requires r in s.rooms && Holds(s, account, c, sock)
    ensures Strikes(s, r, Absent(s, s.rooms[r].players), account, c) <==>
            (c in s.rooms[r].players && sock == 0) || SweepsSeat(s, r, NoRefCount, account)
  {
    AbsentMembers(s, s.rooms[r].players);
    hide Absent;
  }

  lemma DestroyAccount(s: State, r: nat, account: int, c: int, sock: nat, n: int)
    requires r in s.rooms && InvLax(s, 0, {}, r) && Holds(s, account, c, sock) && c < n <= s.nextConn
    ensures var t := DestroyRoom(s, r);
      if (c in s.rooms[r].players || c in s.rooms[r].observers) && sock == 0
      then Lost(t, account, n) else Holds(t, account, c, sock)
  {
    var u := s.(rooms := s.rooms - {r});
    assert RoomBasics(s, r, DeadIn(r, 0, {}));
    PeopleFrame(s, u);
    RoomsFrame(s, u, 0, {}, r, r, 0);
    SendHomeHolds(u, s.rooms[r].players + s.rooms[r].observers, account, c, sock, n);
  }

  lemma CheckAccount(s: State, r: nat, reason: Reason, account: int, c: int, sock: nat)
    requires r in s.rooms && InvLax(s, 0, {}, r) && OwnerOk(s, s.rooms[r], {}) && Holds(s, account, c, sock)
    ensures var t := CheckAbandoned(s, r, reason);
      if CheckDrops(s, r, reason, c) || SweepsSeat(s, r, reason, account)
      then Lost(t, account, s.nextConn) else Holds(t, account, c, sock)
  {
    hide Inv, InvLax, OwnerOk, SendHome;
    var u := if reason == NoRefCount then SweepAbsent(s, r) else s;
    if reason == NoRefCount {
      SweepAccount(s, r, account, c, sock);
      SweepKeeps(s, r);
      SweepShapeHere(s, r);
    }
    hide SweepAbsent;
    var removed := s.rooms[r].luaRefs <= 0 && IsAbandoned(s, s.rooms[r].players);
    SameAbandoned(s, u, r);
    assert u.rooms[r].luaRefs == s.rooms[r].luaRefs && u.rooms[r].observers == s.rooms[r].observers;
    if removed {
      if Lost(u, account, s.nextConn) {
        SendHomeLost(u.(rooms := u.rooms - {r}), u.rooms[r].players + u.rooms[r].observers, account, s.nextConn);
      } else {
        DestroyAccount(u, r, account, c, sock, s.nextConn);
      }
    }
  }

  lemma SweepShapeHere(s: State, r: nat)
    requires r in s.rooms && InvLax(s, 0, {}, r) && OwnerOk(s, s.rooms[r], {})
    ensures var t := SweepAbsent(s, r);
      && r in t.rooms && t.rooms[r].luaRefs == s.rooms[r].luaRefs && s.nextConn <= t.nextConn
      && (forall d :: d in t.rooms[r].players <==> d in s.rooms[r].players && Connected(s, d))
      && (forall d :: Connected(s, d) ==> Connected(t, d))
  {
    SweepShape(s, r);
    var gone := Absent(s, s.rooms[r].players);
    var dead := SweepCore(s, r);
    hide DeleteAll, Absent, InvLax, OwnerOk;
    assert SweepAbsent(s, r).nextConn == DeleteAll(s, gone).nextConn;
  }

  // ---------------------------------------------------------------- events

  lemma RunCheckAccount(s: State, account: int, c: int, sock: nat)
    requires Inv(s) && s.checks != [] && Holds(s, account, c, sock)
    ensures var (t, k) := (DoRunCheck(s), s.checks[0]);
      if k.room in s.rooms && (CheckDrops(s, k.room, k.reason, c) || SweepsSeat(s, k.room, k.reason, account))
      then Lost(t, account, s.nextConn) else Holds(t, account, c, sock)
  {
    var u, k := s.(checks := s.checks[1..]), s.checks[0];
    if k.room in s.rooms {
      PopChecked(s);
      hide Inv, InvLax, OwnerOk, CheckAbandoned;
      assert forall d :: Connected(u, d) == Connected(s, d);
      CheckAccount(u, k.room, k.reason, account, c, sock);
    }
  }

  lemma NewPlayerAccount(s: State, from: nat, id: int, account: int, c: int, sock: nat)
    requires Holds(s, account, c, sock) && 0 < id
    ensures var t := CreateNewPlayer(s, from, id);
      if id == account then Lost(t, account, s.nextConn) else Holds(t, account, c, sock)
  {
    hide Bind, Release;
  }

  lemma LoginAccount(s: State, from: nat, id: int, account: int, c: int, sock: nat)
    requires Inv(s) && Holds(s, account, c, sock) && from != 0 && from in s.handlers && s.handlers[from] == Early && 0 < id
    ensures Holds(DoLogin(s, from, id), account, c, sock) <==> id != account
  {
    assert PlayerOk(s, c);
    assert AccountsOk(s);
    hide Inv, PlayerOk, Bind, Release;
    if id in s.online && s.online[id] in s.players && InsideGame(s, s.online[id]) {
      hide InsideGame;
    } else {
      hide InsideGame, CreateNewPlayer;
      NewPlayerAccount(s, from, id, account, c, sock);
    }
  }

  lemma SocketGoneAccount(s: State, gone: nat, account: int, c: int, sock: nat)
    requires Inv(s) && gone in s.handlers && Holds(s, account, c, sock)
    ensures Holds(DoSocketGone(s, gone), account, c, sock) <==> gone != sock
  {
    assert PlayerOk(s, c) && 0 !in s.handlers;
    var h := s.handlers[gone];
    if h.Session? && h.conn in s.players && s.players[h.conn].sock == gone {
      DisconnectSockets(s, h.conn);
      var t := OnDisconnected(s, h.conn);
      hide OnDisconnected, Inv;
      if h.conn != c {
        assert c in s.players - {h.conn};
        assert (t.players - {h.conn})[c] == (s.players - {h.conn})[c];
      }
    }
  }

  lemma AddPlayerAccount(s: State, r: nat, x: int, account: int, c: int, sock: nat)
    requires Holds(s, account, c, sock) && r in s.rooms && x in s.players && x != 0
    ensures Holds(AddPlayer(s, r, x), account, c, sock)
    ensures Holds(LeaveLobbyFor(AddPlayer(s, r, x), r, x), account, c, sock)
    ensures Holds(LeaveLobbyFor(AddObserver(s, r, x), r, x), account, c, sock)
  {
    hide IsFull;
  }

  lemma LobbyStepAccount(s: State, step: Step, account: int, c: int, sock: nat)
    requires Inv(s) && Holds(s, account, c, sock)
    ensures Holds(LobbyStep(s, step), account, c, sock)
  {
    hide AddPlayer, AddObserver, LeaveLobbyFor;
    if LobbyStep(s, step) != s {
      match step
      case CreateRoom(x, capacity) =>
        var u := SetRoom(s, s.nextRoom, Room([], [], 0, ToSize(capacity), 0, [], {})).(nextRoom := s.nextRoom + 1);
        assert PlayerOk(s, x);
        AddPlayerAccount(u, s.nextRoom, x, account, c, sock);
      case EnterRoom(x, r) =>
        assert PlayerOk(s, x);
        AddPlayerAccount(s, r, x, account, c, sock);
      case ObserveRoom(x, r) =>
        assert PlayerOk(s, x);
        AddPlayerAccount(s, r, x, account, c, sock);
    }
  }

  lemma QuitAccount(s: State, x: int, account: int, c: int, sock: nat)
    requires Inv(s) && SenderInRoom(s, x) && Holds(s, account, c, sock)
    ensures if RunsAway(s, x) && s.players[x].id == account then Lost(DoQuit(s, x), account, s.nextConn)
            else Holds(DoQuit(s, x), account, c, sock)
  {
    var r, p := s.players[x].roomId, s.players[x];
    var u := RemovePlayer(s, r, x, p);
    assert PlayerOk(s, x) && PlayerOk(s, c);
    NoRoomZero(s);
    RemovePeople(s, r, x, p);
    RunAwayShape(s, x, p);
    hide RemovePlayer, RunAway, Inv, PlayerOk;
    assert if RunsAway(s, x) && p.id == account then Lost(u, account, s.nextConn) else Holds(u, account, c, sock);
  }

  lemma KickAccount(s: State, r: nat, id: int, account: int, c: int, sock: nat)
    requires Inv(s) && r in s.rooms && Holds(s, account, c, sock)
    ensures Holds(DoKick(s, r, id), account, c, sock)
  {
    var x := FindPlayer(s, id);
    if !(id == 0 || x !in s.players || s.rooms[r].luaRefs > 0 || s.players[x].roomId != r) {
      var u := RemovePlayer(s, r, x, s.players[x]);
      assert PlayerOk(s, x);
      RemovePeople(s, r, x, s.players[x]);
      RemoveLua(s, r, x, s.players[x]);
      hide RemovePlayer, DeletePlayer, Inv, PlayerOk, RunAway;
      DeleteHolds(u, x, account, c, sock);
    }
  }

  lemma RemoveLua(s: State, r: nat, x: int, p: Player)
    requires r in s.rooms
    ensures r in RemovePlayer(s, r, x, p).rooms && RemovePlayer(s, r, x, p).rooms[r].luaRefs == s.rooms[r].luaRefs
  {
    var room := s.rooms[r];
    AfterLeavePeople(SetRoom(s, r, room.(players := Erase(room.players, x))), r, x);
    AfterLeavePeople(RunAway(s, x, p), r, x);
    assert RunAway(s, x, p).rooms == s.rooms;
    hide AfterLeave, RunAway, Erase;
  }

  lemma RobotAccount(s: State, account: int, c: int, sock: nat)
    requires Inv(s) && Holds(s, account, c, sock)
    ensures Holds(CreateRobot(s), account, c, sock)
  {
  }

  lemma AddRobotAccount(s: State, r: nat, x: int, account: int, c: int, sock: nat)
    requires Inv(s) && r in s.rooms && Holds(s, account, c, sock)
    ensures Holds(DoAddRobot(s, r, x), account, c, sock)
  {
    PositiveConn(s);
    RobotAccount(s, account, c, sock);
    assert CreateRobot(s).rooms == s.rooms && s.nextConn in CreateRobot(s).players;
    hide Inv, CreateRobot, AddPlayer;
    AddPlayerAccount(CreateRobot(s), r, s.nextConn, account, c, sock);
  }

  lemma SeatStepAccount(s: State, step: Step, account: int, c: int, sock: nat)
    requires Inv(s) && Holds(s, account, c, sock) && !step.QuitRoom?
    ensures Holds(RoomStep(s, step), account, c, sock)
  {
    hide DoKick, DoAddRobot, Inv;
    if RoomStep(s, step) != s {
      match step
      case AddRobot(x) => AddRobotAccount(s, s.players[x].roomId, x, account, c, sock);
      case KickPlayer(x, id) => KickAccount(s, s.players[x].roomId, id, account, c, sock);
      case ToggleTrust(x) =>
      case ChangeRoom(x, _) =>
      case StartGame(x) =>
    }
  }

  lemma RoomStepAccount(s: State, step: Step, account: int, c: int, sock: nat)
    requires Inv(s) && Holds(s, account, c, sock)
    ensures if step.QuitRoom? && SenderInRoom(s, step.c) && RunsAway(s, step.c) && s.players[step.c].id == account
            then Lost(RoomStep(s, step), account, s.nextConn) else Holds(RoomStep(s, step), account, c, sock)
  {
    hide Inv, DoQuit, RunsAway, Holds, Lost;
    if step.QuitRoom? {
      if SenderInRoom(s, step.c) {
        QuitAccount(s, step.c, account, c, sock);
      }
    } else {
      hide RoomStep;
      SeatStepAccount(s, step, account, c, sock);
    }
  }

  lemma PositiveConn(s: State)
    requires Inv(s)
    ensures 0 < s.nextConn
  {
  }

  lemma {:induction false} GameOverAccount(s: State, members: seq<int>, account: int, c: int, sock: nat)
    requires Holds(s, account, c, sock)
    ensures Holds(DoGameOver(s, members), account, c, sock)
    decreases |members|
  {
    if members != [] {
      var x := members[0];
      GameOverAccount(if x in s.players && s.players[x].id > 0 && s.players[x].status == Trust then SetStatus(s, x, Online) else s,
                      members[1..], account, c, sock);
    }
  }

  lemma RemoveNpcAccount(s: State, r: nat, x: int, account: int, c: int, sock: nat)
    requires Inv(s) && r in s.rooms && x in s.players && Holds(s, account, c, sock)
    ensures if x == c && x in s.rooms[r].players then Lost(DoRemoveNpc(s, r, x), account, s.nextConn)
            else Holds(DoRemoveNpc(s, r, x), account, c, sock)
  {
    var room := s.rooms[r];
    if x in room.players {
      var u := WithoutSeat(s, r, x);
      assert RoomOk(s, r, {}) && PlayerOk(s, x);
      EraseMembers(room.players, x);
      hide Inv, RoomOk, DeletePlayer, Erase;
      assert !RunsAway(u, x);
      DeleteHolds(u, x, account, c, sock);
    }
  }

  lemma LuaStepAccount(s: State, step: Step, account: int, c: int, sock: nat)
    requires Inv(s) && Holds(s, account, c, sock)
    ensures if step.RemoveNpc? && NpcTaken(s, step.r, step.c, c) then Lost(LuaStep(s, step), account, s.nextConn)
            else Holds(LuaStep(s, step), account, c, sock)
  {
    hide DoRemoveNpc, DoGameOver, Inv, Strands;
    if LuaStep(s, step) != s {
      match step
      case GameOver(r) => GameOverAccount(s, s.rooms[r].players, account, c, sock);
      case LuaRelease(r) =>
      case AddNpc(r) => RobotAccount(s, account, c, sock);
      case RemoveNpc(r, x) => RemoveNpcAccount(s, r, x, account, c, sock);
    } else if step.RemoveNpc? && NpcTaken(s, step.r, step.c, c) {
      RemoveNpcAccount(s, step.r, step.c, account, c, sock);
    }
  }

  /** `removeNpc` is called, and followed, for the player itself. */
  predicate NpcTaken(s: State, r: nat, x: int, c: int) {
    x == c && c in s.players && r in s.rooms && c in s.rooms[r].players && c != s.rooms[r].owner && !Strands(s, r, c)
  }

  predicate LobbySweep(s: State, gone: seq<int>) {
    Distinct(gone) && (set c | c in gone) == (set c | c in s.lobby && !Connected(s, c))
  }

  lemma SweepLobbyAccount(s: State, gone: seq<int>, account: int, c: int, sock: nat)
    requires Inv(s) && LobbySweep(s, gone) && Holds(s, account, c, sock)
    ensures if c in gone then Lost(DoSweepLobby(s, gone), account, s.nextConn)
            else Holds(DoSweepLobby(s, gone), account, c, sock)
  {
    var listed, idle := set d | d in gone, set d | d in s.lobby && !Connected(s, d);
    assert listed == idle && forall d :: d in gone ==> d in listed;
    IdleHolds(s, gone, account, c, sock, s.nextConn);
  }

  // ---------------------------------------------------------------- the exact events

  /** The event ends the player itself, or takes its socket. */
  predicate Drops(s: State, step: Step, c: int)
    requires c in s.players
  {
    match step
    case SocketGone(sock) => sock in s.handlers && s.players[c].sock == sock
    case RemoveNpc(r, x) => NpcTaken(s, r, x, c)
    case RunCheck => s.checks != [] && s.checks[0].room in s.rooms && CheckDrops(s, s.checks[0].room, s.checks[0].reason, c)
    case SweepLobby(gone) => LobbySweep(s, gone) && c in gone
    case _ => false
  }

  /** The event makes another connection of the account, or gives its player another socket: a login, a seat
      that its client leaves during a game, or an empty seat that a check throws out of a running game. */
  predicate Replaces(s: State, step: Step, account: int) {
    match step
    case Login(sock, id) => id == account && id > 0 && sock != 0 && sock in s.handlers && s.handlers[sock] == Early
    case QuitRoom(x) => SenderInRoom(s, x) && RunsAway(s, x) && s.players[x].id == account
    case RunCheck =>
      s.checks != [] && s.checks[0].room in s.rooms && SweepsSeat(s, s.checks[0].room, s.checks[0].reason, account)
    case _ => false
  }

  lemma LostNotHeld(s: State, t: State, account: int, c: int, sock: nat)
    requires Holds(s, account, c, sock) && Lost(t, account, s.nextConn)
    ensures !Holds(t, account, c, sock)
  {
  }

  lemma SessionStepAccount(s: State, step: Step, account: int, c: int, sock: nat)
    requires Inv(s) && Holds(s, account, c, sock) && (step.Connect? || step.Login? || step.SocketGone?)
    ensures Holds(SessionStep(s, step), account, c, sock) <==> !Drops(s, step, c) && !Replaces(s, step, account)
  {
    hide Inv, DoLogin, DoSocketGone;
    match step
    case Connect(_) =>
    case Login(from, id) =>
      if from != 0 && from in s.handlers && s.handlers[from] == Early && 0 < id {
        LoginAccount(s, from, id, account, c, sock);
      }
    case SocketGone(gone) =>
      if gone in s.handlers {
        SocketGoneAccount(s, gone, account, c, sock);
      }
  }

  lemma HouseStepAccount(s: State, step: Step, account: int, c: int, sock: nat)
    requires Inv(s) && Holds(s, account, c, sock)
    requires step.ForgetReject? || step.PostCheck? || step.RunCheck? || step.SweepLobby?
    ensures Holds(HouseStep(s, step), account, c, sock) <==> !Drops(s, step, c) && !Replaces(s, step, account)
  {
    hide Inv, DoRunCheck, DoSweepLobby, CheckDrops, SweepsSeat, LobbySweep;
    match step
    case ForgetReject(_, _) =>
    case PostCheck(_) =>
    case RunCheck =>
      if s.checks != [] {
        RunCheckAccount(s, account, c, sock);
      }
    case SweepLobby(gone) => SweepLobbyStepAccount(s, gone, account, c, sock);
  }

  lemma QuitOrNpc(s: State, step: Step, account: int, c: int, sock: nat)
    requires Inv(s) && Holds(s, account, c, sock)
    ensures (step.QuitRoom? || step.AddRobot? || step.KickPlayer? || step.ToggleTrust? || step.ChangeRoom? || step.StartGame?) ==>
      (Holds(RoomStep(s, step), account, c, sock) <==> !Drops(s, step, c) && !Replaces(s, step, account))
    ensures (step.GameOver? || step.LuaRelease? || step.AddNpc? || step.RemoveNpc?) ==>
      (Holds(LuaStep(s, step), account, c, sock) <==> !Drops(s, step, c) && !Replaces(s, step, account))
  {
    hide Inv, RoomStep, LuaStep, RunsAway, NpcTaken, Holds, Lost, CheckDrops, SweepsSeat, LobbySweep;
    RoomStepAccount(s, step, account, c, sock);
    LuaStepAccount(s, step, account, c, sock);
    if Lost(RoomStep(s, step), account, s.nextConn) {
      LostNotHeld(s, RoomStep(s, step), account, c, sock);
    }
    if Lost(LuaStep(s, step), account, s.nextConn) {
      LostNotHeld(s, LuaStep(s, step), account, c, sock);
    }
    assert c in s.players by {
      HeldIsPlayer(s, account, c, sock);
    }
  }

  lemma HeldIsPlayer(s: State, account: int, c: int, sock: nat)
    requires Holds(s, account, c, sock)
    ensures c in s.players
  {
  }

  lemma StepAccount(s: State, step: Step, account: int, c: int, sock: nat)
    requires Inv(s) && Holds(s, account, c, sock)
    ensures Holds(Next(s, step), account, c, sock) <==> !Drops(s, step, c) && !Replaces(s, step, account)
  {
    hide Inv, SessionStep, LobbyStep, RoomStep, LuaStep, HouseStep, Holds, RunsAway, NpcTaken, CheckDrops, SweepsSeat, LobbySweep;
    HeldIsPlayer(s, account, c, sock);
    LobbyStepAccount(s, step, account, c, sock);
    QuitOrNpc(s, step, account, c, sock);
    if step.Connect? || step.Login? || step.SocketGone? {
      SessionStepAccount(s, step, account, c, sock);
    }
    if step.ForgetReject? || step.PostCheck? || step.RunCheck? || step.SweepLobby? {
      HouseStepAccount(s, step, account, c, sock);
    }
  }

  lemma SweepLobbyStepAccount(s: State, gone: seq<int>, account: int, c: int, sock: nat)
    requires Inv(s) && Holds(s, account, c, sock)
    ensures Holds(HouseStep(s, SweepLobby(gone)), account, c, sock) <==> !(LobbySweep(s, gone) && c in gone)
  {
    hide Inv, DoSweepLobby;
    if LobbySweep(s, gone) {
      SweepLobbyAccount(s, gone, account, c, sock);
    }
  }

  // ---------------------------------------------------------------- main results

  /** For every event in every reachable state: the account keeps its current player, on the same socket,
      exactly when the event neither ends that player nor puts another connection of the account in its
      place. */
  lemma AccountKeptIff(s: State, step: Step, account: int)
    requires Reachable(s) && account in s.online
    ensures s.online[account] in s.players
    ensures var c := s.online[account];
      var sock := s.players[c].sock;
      Holds(Next(s, step), account, c, sock) <==> !Drops(s, step, c) && !Replaces(s, step, account)
  {
    ReachableKeeps(s);
    var c := s.online[account];
    assert AccountsOk(s) && PlayerOk(s, c);
    hide Inv, AccountsOk, PlayerOk, Next, Drops, Replaces;
    StepAccount(s, step, account, c, s.players[c].sock);
  }

  /** A connected current player survives every queued check but one kind: the end-of-game check of a room in
      which the next game already runs, with an empty seat of the same account. */
  lemma CheckEvictsIff(s: State, account: int)
    requires Reachable(s) && s.checks != [] && account in s.online
    requires s.online[account] in s.players && s.players[s.online[account]].sock != 0
    ensures var (c, k) := (s.online[account], s.checks[0]);
      Holds(DoRunCheck(s), account, c, s.players[c].sock) <==>
      !(k.room in s.rooms && k.reason == NoRefCount && s.rooms[k.room].luaRefs > 0
        && exists x :: x in s.rooms[k.room].players && x in s.players && s.players[x].sock == 0 && s.players[x].id == account)
  {
    hide Reachable, DoRunCheck;
    AccountKeptIff(s, RunCheck, account);
  }
}
