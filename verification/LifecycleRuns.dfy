/** Runs in which something is lost that other events keep. */
module LifecycleRuns {
  import opened Basics
  import opened Lifecycle
  import opened LifecycleInvariant
  import opened LifecycleSteps
  import opened LifecycleBounds
  import opened LifecycleAccounts
  import opened LifecycleOwners
  import Houses = LifecycleHoused

  lemma ReachNext(steps: seq<Step>, step: Step)
    ensures Reach(steps + [step]) == Next(Reach(steps), step)
  {
    assert (steps + [step])[..|steps|] == steps;
  }

  // ---------------------------------------------------------------- two players in a running game

  /** Two clients log in and sit in a room of two. */
  const TWO_SEATED: seq<Step> :=
    [Connect(1), Connect(2), Login(1, 1), Login(2, 2), CreateRoom(1000, 2), EnterRoom(1001, 1)]

  function TwoConnected(): State {
    INITIAL.(handlers := map[1 := Early, 2 := Early])
  }

  function TwoInLobby(): State {
    INITIAL.(players := map[1000 := Player(1, Online, 1, 0), 1001 := Player(2, Online, 2, 0)],
             online := map[1 := 1000, 2 := 1001], lobby := {1000, 1001},
             handlers := map[1 := Session(1000), 2 := Session(1001)], nextConn := 1002)
  }

  function TwoInRoom(luaRefs: int): State {
    TwoInLobby().(players := map[1000 := Player(1, Online, 1, 1), 1001 := Player(2, Online, 2, 1)], lobby := {},
                  rooms := map[1 := Room([1000, 1001], [], 1000, 2, luaRefs, [], {})], nextRoom := 2)
  }

  lemma ReachTwoConnected()
    ensures Reach([Connect(1), Connect(2)]) == TwoConnected()
  {
    ReachNext([], Connect(1));
    ReachNext([Connect(1)], Connect(2));
    assert [] + [Connect(1)] == [Connect(1)] && [Connect(1)] + [Connect(2)] == [Connect(1), Connect(2)];
    assert Reach([]) == INITIAL;
  }

  lemma TwoLogin()
    ensures Next(Next(TwoConnected(), Login(1, 1)), Login(2, 2)) == TwoInLobby()
  {
    var s := TwoConnected();
    var t := s.(players := map[1000 := Player(1, Online, 1, 0)], online := map[1 := 1000], lobby := {1000},
                handlers := map[1 := Session(1000), 2 := Early], nextConn := 1001);
    assert Next(s, Login(1, 1)) == t;
    assert Next(t, Login(2, 2)) == TwoInLobby();
  }

  /** Taking a free seat in a room without a game. */
  lemma SitDown(s: State, r: nat, c: int)
    requires r in s.rooms && c in s.players && s.players[c].id > 0 && s.players[c].roomId == 0 && r != 0
    requires var room := s.rooms[r]; room.rejected == [] && |room.players| < room.capacity && room.luaRefs <= 0
    ensures var room := s.rooms[r];
      LeaveLobbyFor(AddPlayer(s, r, c), r, c) ==
      s.(players := s.players[c := s.players[c].(roomId := r)], lobby := s.lobby - {c},
         rooms := s.rooms[r := room.(players := room.players + [c], owner := if room.owner == 0 then c else room.owner)])
  {
  }

  /** Opening a room that has a seat. */
  lemma OpenRoom(s: State, c: int, capacity: nat)
    requires c in s.players && s.players[c].id > 0 && s.players[c].roomId == 0 && s.nextRoom != 0 && capacity > 0
    ensures DoCreateRoom(s, c, capacity) ==
      s.(players := s.players[c := s.players[c].(roomId := s.nextRoom)], lobby := s.lobby - {c}, nextRoom := s.nextRoom + 1,
         rooms := s.rooms[s.nextRoom := Room([c], [], c, capacity, 0, [], {})])
  {
    var u := SetRoom(s, s.nextRoom, Room([], [], 0, capacity, 0, [], {})).(nextRoom := s.nextRoom + 1);
    SitDown(u, s.nextRoom, c);
    hide AddPlayer, LeaveLobbyFor;
    assert [] + [c] == [c];
  }

  function OneInRoom(): State {
    TwoInLobby().(players := map[1000 := Player(1, Online, 1, 1), 1001 := Player(2, Online, 2, 0)], lobby := {1001},
                  rooms := map[1 := Room([1000], [], 1000, 2, 0, [], {})], nextRoom := 2)
  }

  lemma FirstSits()
    ensures Next(TwoInLobby(), CreateRoom(1000, 2)) == OneInRoom()
  {
    OpenRoom(TwoInLobby(), 1000, 2);
    assert ToSize(2) == 2;
    hide DoCreateRoom, ToSize;
    assert {1000, 1001} - {1000} == {1001};
  }

  lemma SecondSits()
    ensures Next(OneInRoom(), EnterRoom(1001, 1)) == TwoInRoom(0)
  {
    SitDown(OneInRoom(), 1, 1001);
    hide AddPlayer, LeaveLobbyFor;
    assert [1000] + [1001] == [1000, 1001] && {1001} - {1001} == {};
  }

  lemma ReachTwoInRoom()
    ensures Reach(TWO_SEATED) == TwoInRoom(0)
  {
    hide Next, TwoConnected, TwoInLobby, OneInRoom, TwoInRoom;
    ReachTwoConnected();
    TwoLogin();
    FirstSits();
    SecondSits();
    ReachNext([Connect(1), Connect(2)], Login(1, 1));
    ReachNext([Connect(1), Connect(2), Login(1, 1)], Login(2, 2));
    ReachNext([Connect(1), Connect(2), Login(1, 1), Login(2, 2)], CreateRoom(1000, 2));
    ReachNext([Connect(1), Connect(2), Login(1, 1), Login(2, 2), CreateRoom(1000, 2)], EnterRoom(1001, 1));
    assert [Connect(1), Connect(2)] + [Login(1, 1)] == [Connect(1), Connect(2), Login(1, 1)];
    assert [Connect(1), Connect(2), Login(1, 1)] + [Login(2, 2)] == [Connect(1), Connect(2), Login(1, 1), Login(2, 2)];
    assert [Connect(1), Connect(2), Login(1, 1), Login(2, 2)] + [CreateRoom(1000, 2)]
        == [Connect(1), Connect(2), Login(1, 1), Login(2, 2), CreateRoom(1000, 2)];
    assert [Connect(1), Connect(2), Login(1, 1), Login(2, 2), CreateRoom(1000, 2)] + [EnterRoom(1001, 1)] == TWO_SEATED;
  }

  // ---------------------------------------------------------------- an account that loses its player

  /** The second player leaves the running game for the lobby, the game ends, the next one starts. */
  function LeftAndRestarted(): State {
    State(map[1000 := Player(1, Online, 1, 1), 1001 := Player(2, Run, 0, 1), 1002 := Player(2, Online, 2, 0)],
          map[1 := 1000, 2 := 1002], map[], {1002}, map[1 := Room([1000, 1001], [], 1000, 2, 1, [], {})],
          [Check(1, NoRefCount)], map[1 := Session(1000), 2 := Session(1002)], 1003, 2, -2)
  }

  lemma LeaveGame()
    ensures var s := Next(TwoInRoom(0), StartGame(1000));
      s == TwoInRoom(1) && Next(s, QuitRoom(1001)) == LeftAndRestarted().(checks := [])
  {
    var s, c := TwoInRoom(1), 1001;
    assert Next(TwoInRoom(0), StartGame(1000)) == s;
    var p := s.players[c];
    var u := LeftAndRestarted().(checks := []);
    SecondRunsAway();
    hide RunAway;
    assert RemovePlayer(s, 1, c, p) == AfterLeave(u, 1, c);
    assert Connected(u, 1000) && 1000 in u.rooms[1].players;
    assert AfterLeave(u, 1, c) == u;
    hide AfterLeave, RemovePlayer;
    assert DoQuit(s, c) == u;
  }

  lemma SecondRunsAway()
    ensures var s := TwoInRoom(1);
      RunAway(s, 1001, s.players[1001]) == LeftAndRestarted().(checks := [])
  {
  }

  lemma RestartGame()
    ensures Next(Next(LeftAndRestarted().(checks := []), LuaRelease(1)), StartGame(1000)) == LeftAndRestarted()
  {
    var s := LeftAndRestarted().(checks := []);
    var t := LeftAndRestarted().(rooms := map[1 := Room([1000, 1001], [], 1000, 2, 0, [], {})]);
    assert Next(s, LuaRelease(1)) == t;
    assert Next(t, StartGame(1000)) == LeftAndRestarted();
  }

  const LEAVE_AND_RESTART: seq<Step> := TWO_SEATED + [StartGame(1000)] + [QuitRoom(1001)] + [LuaRelease(1)] + [StartGame(1000)]

  lemma ReachLeft()
    ensures Reach(LEAVE_AND_RESTART) == LeftAndRestarted()
  {
    hide Next, TwoInRoom, LeftAndRestarted;
    ReachTwoInRoom();
    LeaveGame();
    RestartGame();
    ReachNext(TWO_SEATED, StartGame(1000));
    ReachNext(TWO_SEATED + [StartGame(1000)], QuitRoom(1001));
    ReachNext(TWO_SEATED + [StartGame(1000)] + [QuitRoom(1001)], LuaRelease(1));
    ReachNext(TWO_SEATED + [StartGame(1000)] + [QuitRoom(1001)] + [LuaRelease(1)], StartGame(1000));
  }

  /** A reachable state in which a check is next that takes account 2 away from its connected player 1002: the
      seat 1001 it left is thrown out of the next game and runs away a second time, without a socket. */
  lemma AccountEvicted()
    ensures Reachable(LeftAndRestarted())
    ensures var s := LeftAndRestarted();
      && Holds(s, 2, 1002, 2) && Replaces(s, RunCheck, 2)
      && !Holds(Next(s, RunCheck), 2, 1002, 2) && Connected(Next(s, RunCheck), 1002)
  {
    ReachLeft();
    var s := LeftAndRestarted();
    assert 1001 in s.rooms[1].players && s.players[1001].id == 2 && s.players[1001].sock == 0;
    assert Holds(s, 2, 1002, 2) && Replaces(s, RunCheck, 2);
    assert Reachable(s) && Connected(s, 1000) && 1000 in s.rooms[1].players;
    assert Next(s, RunCheck) == DoRunCheck(s);
    hide Next, Holds, Replaces, Reach, DoRunCheck, Inv;
    AccountKeptIff(s, RunCheck, 2);
    ReachableKeeps(s);
    RunCheckMembers(s);
  }

  // ---------------------------------------------------------------- a room that loses its owner

  /** One player loses the connection during the game, the owner leaves. */
  function Deserted(): State {
    State(map[1000 := Player(1, Run, 0, 1), 1001 := Player(2, Offline, 0, 1), 1002 := Player(1, Online, 1, 0)],
          map[1 := 1002, 2 := 1001], map[], {1002}, map[1 := Room([1000, 1001], [], 0, 2, 1, [], {})],
          [Check(1, NoHuman)], map[1 := Session(1002), 2 := Inert], 1003, 2, -2)
  }

  function OneOffline(): State {
    TwoInRoom(1).(players := map[1000 := Player(1, Online, 1, 1), 1001 := Player(2, Offline, 0, 1)],
                  handlers := map[1 := Session(1000), 2 := Inert])
  }

  lemma GoOffline()
    ensures Next(TwoInRoom(1), SocketGone(2)) == OneOffline()
  {
    var s := TwoInRoom(1);
    assert InsideGame(Detach(s, 1001), 1001);
    assert OnDisconnected(s, 1001) == Detach(s, 1001);
    assert Next(s, SocketGone(2)) == DoSocketGone(s, 2);
  }

  lemma OwnerRunsAway()
    ensures var s := OneOffline();
      RunAway(s, 1000, s.players[1000]) == Deserted().(checks := [], rooms := s.rooms)
  {
    var s := OneOffline();
    var p := s.players[1000];
    var t := RunAway(s, 1000, p);
    hide RunAway;
    RunAwayShape(s, 1000, p);
    OwnerHandlers();
    assert t.players == Deserted().players;
  }

  lemma OwnerHandlers()
    ensures var s := OneOffline();
      var t := RunAway(s, 1000, s.players[1000]);
      t.handlers == map[1 := Session(1002), 2 := Inert] && t.robots == map[]
  {
    hide RunAway;
    RunAwayHandlers(OneOffline(), 1000, OneOffline().players[1000]);
  }

  lemma RunAwayHandlers(s: State, c: int, p: Player)
    ensures var t := RunAway(s, c, p);
      t.handlers == Bind(Release(s.handlers, p.sock), p.sock, s.nextConn) && (p.id > 0 ==> t.robots == s.robots)
  {
    hide Bind, Release;
  }

  lemma Desert()
    ensures Next(OneOffline(), QuitRoom(1000)) == Deserted()
  {
    var s, c := OneOffline(), 1000;
    var p := s.players[c];
    var u := Deserted().(checks := [], rooms := s.rooms);
    OwnerRunsAway();
    hide RunAway;
    assert RemovePlayer(s, 1, c, p) == AfterLeave(u, 1, c);
    assert IsAbandoned(u, [1000, 1001]);
    assert AfterLeave(u, 1, c) == Deserted();
    hide AfterLeave, RemovePlayer;
    assert DoQuit(s, c) == Deserted();
  }

  const DESERT: seq<Step> := TWO_SEATED + [StartGame(1000)] + [SocketGone(2)] + [QuitRoom(1000)] + [Connect(3)]

  lemma ReachDeserted()
    ensures Reach(DESERT) == Deserted().(handlers := map[1 := Session(1002), 2 := Inert, 3 := Early])
  {
    ReachTwoInRoom();
    assert Next(Deserted(), Connect(3)) == Deserted().(handlers := map[1 := Session(1002), 2 := Inert, 3 := Early]);
    hide Next, TwoInRoom, OneOffline, Deserted;
    LeaveGame();
    GoOffline();
    Desert();
    ReachNext(TWO_SEATED, StartGame(1000));
    ReachNext(TWO_SEATED + [StartGame(1000)], SocketGone(2));
    ReachNext(TWO_SEATED + [StartGame(1000)] + [SocketGone(2)], QuitRoom(1000));
    ReachNext(TWO_SEATED + [StartGame(1000)] + [SocketGone(2)] + [QuitRoom(1000)], Connect(3));
  }

  /** A reachable state in which a login is next that leaves room 1 with a connected member and no owner. */
  lemma OwnerlessRoom()
    ensures var s := Deserted().(handlers := map[1 := Session(1002), 2 := Inert, 3 := Early]);
      Reachable(s) && Safe(s, 1) && Rejoins(s, Login(3, 2), 1) && !Safe(Next(s, Login(3, 2)), 1)
  {
    ReachDeserted();
    var s := Deserted().(handlers := map[1 := Session(1002), 2 := Inert, 3 := Early]);
    assert Reachable(s) && Safe(s, 1) && Rejoins(s, Login(3, 2), 1);
    hide Next, Safe, Rejoins, Reach;
    OwnerlessIff(s, Login(3, 2), 1);
  }

  // ---------------------------------------------------------------- a room that `removeNpc` empties

  function Alone(): State {
    INITIAL.(players := map[1000 := Player(1, Online, 1, 1)], online := map[1 := 1000],
             rooms := map[1 := Room([1000], [], 1000, 1, 0, [], {})],
             handlers := map[1 := Session(1000)], nextConn := 1001, nextRoom := 2)
  }

  lemma AloneOpens(s: State)
    requires s == Alone().(players := map[1000 := Player(1, Online, 1, 0)], lobby := {1000}, rooms := map[], nextRoom := 1)
    ensures Next(s, CreateRoom(1000, 1)) == Alone()
  {
    OpenRoom(s, 1000, 1);
    hide DoCreateRoom;
    assert {1000} - {1000} == {};
  }

  lemma ReachAlone()
    ensures Reach([Connect(1), Login(1, 1), CreateRoom(1000, 1)]) == Alone()
  {
    var s := INITIAL.(handlers := map[1 := Early]);
    var t := INITIAL.(players := map[1000 := Player(1, Online, 1, 0)], online := map[1 := 1000], lobby := {1000},
                      handlers := map[1 := Session(1000)], nextConn := 1001);
    assert Next(INITIAL, Connect(1)) == s;
    assert Next(s, Login(1, 1)) == t;
    AloneOpens(t);
    assert Reach([]) == INITIAL;
    hide Next, Alone;
    ReachNext([], Connect(1));
    ReachNext([Connect(1)], Login(1, 1));
    ReachNext([Connect(1), Login(1, 1)], CreateRoom(1000, 1));
    assert [] + [Connect(1)] == [Connect(1)] && [Connect(1)] + [Login(1, 1)] == [Connect(1), Login(1, 1)];
    assert [Connect(1), Login(1, 1)] + [CreateRoom(1000, 1)] == [Connect(1), Login(1, 1), CreateRoom(1000, 1)];
  }

  /** A reachable state in which `removeNpc` breaks both: the room keeps an owner that is gone, and it is empty
      with no game and nobody checks it. */
  lemma EmptiedRoom()
    ensures Reachable(Alone()) && Alone().rooms[1].owner == 1000 && Strands(Alone(), 1, 1000)
    ensures var t := DoRemoveNpc(Alone(), 1, 1000);
      && 1 in t.rooms && t.rooms[1].players == [] && t.rooms[1].luaRefs == 0 && t.rooms[1].capacity > 0
      && !Queued(t, 1) && t.rooms[1].owner == 1000 && 1000 !in t.players
  {
    ReachAlone();
    assert Erase([1000], 1000) == [];
  }

  // ---------------------------------------------------------------- a player that gets lost

  /** The second player turns auto-play on, and Lua lets go of the room without having ended the game. */
  function OnAutoPlay(): State {
    TwoInRoom(0).(players := map[1000 := Player(1, Online, 1, 1), 1001 := Player(2, Trust, 2, 1)], checks := [Check(1, NoRefCount)])
  }

  lemma TrustAndRelease()
    ensures Next(Next(TwoInRoom(1), ToggleTrust(1001)), LuaRelease(1)) == OnAutoPlay()
  {
    var t := TwoInRoom(1).(players := map[1000 := Player(1, Online, 1, 1), 1001 := Player(2, Trust, 2, 1)]);
    assert Next(TwoInRoom(1), ToggleTrust(1001)) == t;
    assert Next(t, LuaRelease(1)) == OnAutoPlay();
  }

  lemma ReachAutoPlay()
    ensures Reachable(OnAutoPlay())
  {
    hide Next, TwoInRoom, OnAutoPlay;
    ReachTwoInRoom();
    LeaveGame();
    TrustAndRelease();
    ReachNext(TWO_SEATED, StartGame(1000));
    ReachNext(TWO_SEATED + [StartGame(1000)], ToggleTrust(1001));
    ReachNext(TWO_SEATED + [StartGame(1000)] + [ToggleTrust(1001)], LuaRelease(1));
    assert Reach(TWO_SEATED + [StartGame(1000)] + [ToggleTrust(1001)] + [LuaRelease(1)]) == OnAutoPlay();
  }

  /** A reachable state in which everybody is somewhere and a quit is next that loses the quitter. */
  lemma LostQuitter()
    ensures Reachable(OnAutoPlay()) && Houses.Housed(OnAutoPlay()) && Houses.LosesHome(OnAutoPlay(), QuitRoom(1001))
    ensures !Houses.Housed(Next(OnAutoPlay(), QuitRoom(1001)))
  {
    hide Next, Reachable;
    assert Houses.Inside(OnAutoPlay().rooms[1], 1000) && Houses.Inside(OnAutoPlay().rooms[1], 1001);
    ReachAutoPlay();
    Houses.HousedIff(OnAutoPlay(), QuitRoom(1001));
  }
}
