/** The lifecycle in the form the server has it: one object whose handlers update the maps and lists in
    place and whose loops walk them.  Every method is proved against the state machine. */
module LifecycleServer {
  import opened Basics
  import opened Lifecycle

  lemma AbsentFrom(s: State, members: seq<int>, i: nat, before: seq<int>)
    requires i < |members|
    ensures before + Absent(s, members[i..]) ==
      (if Connected(s, members[i]) then before else before + [members[i]]) + Absent(s, members[i + 1..])
  {
    assert members[i..][1..] == members[i + 1..];
    var rest := Absent(s, members[i + 1..]);
    hide Absent;
    assert before + ([] + rest) == before + rest;
    assert before + ([members[i]] + rest) == before + [members[i]] + rest;
    assert Absent(s, members[i..]) == (if Connected(s, members[i]) then [] else [members[i]]) + rest by {
      AbsentStep(s, members[i..]);
    }
  }

  lemma AbsentStep(s: State, members: seq<int>)
    requires members != []
    ensures Absent(s, members) == (if Connected(s, members[0]) then [] else [members[0]]) + Absent(s, members[1..])
  {
  }

  lemma NoneAbsent(s: State)
    ensures Absent(s, []) == []
  {
  }

  lemma WithoutFrom(members: seq<int>, i: nat, gone: set<int>, before: seq<int>)
    requires i < |members|
    ensures before + Without(members[i..], gone) ==
      (if members[i] in gone then before else before + [members[i]]) + Without(members[i + 1..], gone)
  {
    assert members[i..][1..] == members[i + 1..];
    var rest := Without(members[i + 1..], gone);
    hide Without;
    assert before + ([] + rest) == before + rest;
    assert before + ([members[i]] + rest) == before + [members[i]] + rest;
    assert Without(members[i..], gone) == (if members[i] in gone then [] else [members[i]]) + rest by {
      WithoutStep(members[i..], gone);
    }
  }

  lemma WithoutStep(members: seq<int>, gone: set<int>)
    requires members != []
    ensures Without(members, gone) == (if members[0] in gone then [] else [members[0]]) + Without(members[1..], gone)
  {
  }

  lemma NoneWithout(gone: set<int>)
    ensures Without([], gone) == []
  {
  }

  class GameServer {
    var players: map<int, Player>
    var online: map<int, int>
    var robots: map<int, int>
    var lobby: set<int>
    var rooms: map<nat, Room>
    var checks: seq<Check>
    var handlers: map<nat, Handler>
    var nextConn: int
    var nextRoom: nat
    var nextRobot: int

    function View(): State
      reads this
    {
      State(players, online, robots, lobby, rooms, checks, handlers, nextConn, nextRoom, nextRobot)
    }

    constructor ()
      ensures View() == INITIAL
    {
      players, online, robots, lobby := map[], map[], map[], {};
      rooms, checks, handlers := map[], [], map[];
      nextConn, nextRoom, nextRobot := 1000, 1, -2;
    }

    // -------------------------------------------------------------- queries

    method IsRoomAbandoned(members: seq<int>) returns (abandoned: bool)
      ensures abandoned == IsAbandoned(View(), members)
    {
      for i := 0 to |members|
        invariant forall j :: 0 <= j < i ==> !Connected(View(), members[j])
      {
        if members[i] in players && players[members[i]].sock != 0 {
          assert Connected(View(), members[i]) && members[i] in members;
          return false;
        }
      }
      return true;
    }

    /** The owner search of `Room::removePlayer`. */
    method FindConnected(members: seq<int>) returns (c: int)
      ensures c == FirstConnected(View(), members)
    {
      var i := 0;
      assert members[0..] == members;
      while i < |members|
        invariant 0 <= i <= |members|
        invariant FirstConnected(View(), members) == FirstConnected(View(), members[i..])
      {
        if members[i] in players && players[members[i]].sock != 0 {
          return members[i];
        }
        assert members[i..][1..] == members[i + 1..];
        i := i + 1;
      }
      return 0;
    }

    // -------------------------------------------------------------- sessions and accounts

    method SetSocket(c: int, sock: nat)
      requires c in players
      modifies this
      ensures View() == Lifecycle.SetSocket(old(View()), c, sock)
    {
      var p := players[c];
      if p.sock != 0 {
        handlers := handlers[p.sock := Inert];
      }
      if sock != 0 {
        handlers := handlers[sock := Session(c)];
      }
      players := players[c := p.(sock := sock)];
    }

    method Register(c: int, p: Player)
      modifies this
      ensures View() == Lifecycle.Register(old(View()), c, p)
    {
      if p.id > 0 {
        online := online[p.id := c];
      } else {
        robots := robots[p.id := c];
      }
      players := players[c := p];
    }

    // -------------------------------------------------------------- leaving and dying

    method EnterLobby(c: int)
      requires c in players
      modifies this
      ensures View() == Lifecycle.EnterLobby(old(View()), c)
    {
      lobby := lobby + {c};
      players := players[c := players[c].(roomId := 0)];
    }

    method RunAway(c: int, p: Player)
      modifies this
      ensures View() == Lifecycle.RunAway(old(View()), c, p)
    {
      var runner := nextConn;
      if c in players {
        players := players[c := p.(status := Run, sock := 0)];
      }
      nextConn := nextConn + 1;
      if p.sock != 0 {
        handlers := handlers[p.sock := Inert];
        handlers := handlers[p.sock := Session(runner)];
      }
      Register(runner, Player(p.id, Online, p.sock, 0));
      EnterLobby(runner);
    }

    method AfterLeave(r: nat, c: int)
      requires r in rooms
      modifies this
      ensures View() == Lifecycle.AfterLeave(old(View()), r, c)
    {
      var room := rooms[r];
      var abandoned := IsRoomAbandoned(room.players);
      if abandoned {
        rooms := rooms[r := room.(owner := 0)];
        checks := checks + [Check(r, NoHuman)];
      } else if c == room.owner {
        var heir := FindConnected(room.players);
        if !(heir in players && players[heir].id < 0) {
          rooms := rooms[r := room.(owner := heir)];
        }
      }
    }

    method RemovePlayer(r: nat, c: int, p: Player)
      requires r in rooms
      modifies this
      ensures View() == Lifecycle.RemovePlayer(old(View()), r, c, p)
    {
      var room := rooms[r];
      if c in room.observers {
        rooms := rooms[r := room.(observers := Erase(room.observers, c))];
      } else if c in room.players {
        if room.luaRefs <= 0 {
          rooms := rooms[r := room.(players := Erase(room.players, c))];
        } else {
          RunAway(c, p);
        }
        AfterLeave(r, c);
      }
    }

    method DeletePlayer(c: int)
      requires c in players
      modifies this
      ensures View() == Lifecycle.DeletePlayer(old(View()), c)
    {
      var p := players[c];
      if p.id in online && online[p.id] == c {
        online := online - {p.id};
      }
      robots := robots - {p.id};
      players := players - {c};
      var before := nextConn;
      if p.roomId == 0 {
        lobby := lobby - {c};
      } else if p.roomId in rooms {
        RemovePlayer(p.roomId, c, p);
      }
      if nextConn == before && p.sock != 0 {
        handlers := handlers[p.sock := Inert];
      }
    }

    method LobbyAdd(c: int)
      requires c in players
      modifies this
      ensures View() == Lifecycle.LobbyAdd(old(View()), c)
    {
      if players[c].status == Robot {
        DeletePlayer(c);
      } else {
        EnterLobby(c);
      }
    }

    // -------------------------------------------------------------- events

    method OnSocketGone(sock: nat)
      requires sock in handlers
      modifies this
      ensures View() == DoSocketGone(old(View()), sock)
    {
      var h := handlers[sock];
      if h.Session? && h.conn in players && players[h.conn].sock == sock {
        var c := h.conn;
        SetSocket(c, 0);
        players := players[c := players[c].(status := Offline)];
        if !InsideGame(View(), c) {
          DeletePlayer(c);
        }
      }
      handlers := handlers[sock := Inert];
    }

    method Reconnect(c: int, sock: nat)
      requires c in players
      modifies this
      ensures View() == Lifecycle.Reconnect(old(View()), c, sock)
    {
      SetSocket(c, sock);
      players := players[c := players[c].(status := Online)];
    }

    method CreateNewPlayer(sock: nat, id: int)
      modifies this
      ensures View() == Lifecycle.CreateNewPlayer(old(View()), sock, id)
    {
      var c := nextConn;
      Register(c, Player(id, Online, 0, 0));
      nextConn := c + 1;
      SetSocket(c, sock);
      EnterLobby(c);
    }

    method OnLogin(sock: nat, id: int)
      modifies this
      ensures View() == DoLogin(old(View()), sock, id)
    {
      if id in online && online[id] in players && InsideGame(View(), online[id]) {
        Reconnect(online[id], sock);
      } else {
        CreateNewPlayer(sock, id);
      }
    }

    method AddPlayer(r: nat, c: int)
      requires r in rooms && c in players
      modifies this
      ensures View() == Lifecycle.AddPlayer(old(View()), r, c)
    {
      var room := rooms[r];
      if players[c].id in room.rejected || |room.players| >= room.capacity || room.luaRefs > 0 {
        return;
      }
      rooms := rooms[r := room.(players := room.players + [c])];
      players := players[c := players[c].(roomId := r)];
      if room.owner == 0 && players[c].id >= 0 {
        rooms := rooms[r := rooms[r].(owner := c)];
      }
    }

    method OnCreateRoom(c: int, capacity: int)
      requires SenderInLobby(View(), c) && capacity != -1
      modifies this
      ensures View() == DoCreateRoom(old(View()), c, ToSize(capacity))
    {
      var r := nextRoom;
      rooms := rooms[r := Room([], [], 0, ToSize(capacity), 0, [], {})];
      nextRoom := nextRoom + 1;
      AddPlayer(r, c);
      if players[c].roomId == r {
        lobby := lobby - {c};
      }
    }

    method OnEnterRoom(c: int, r: nat)
      requires SenderInLobby(View(), c) && r in rooms
      modifies this
      ensures View() == LeaveLobbyFor(Lifecycle.AddPlayer(old(View()), r, c), r, c)
    {
      AddPlayer(r, c);
      if players[c].roomId == r {
        lobby := lobby - {c};
      }
    }

    method OnObserveRoom(c: int, r: nat)
      requires SenderInLobby(View(), c) && r in rooms
      modifies this
      ensures View() == LeaveLobbyFor(AddObserver(old(View()), r, c), r, c)
    {
      var room := rooms[r];
      if room.luaRefs > 0 && players[c].id !in room.rejected {
        rooms := rooms[r := room.(observers := room.observers + [c])];
        players := players[c := players[c].(roomId := r)];
      }
      if players[c].roomId == r {
        lobby := lobby - {c};
      }
    }

    method OnQuitRoom(c: int)
      requires SenderInRoom(View(), c)
      modifies this
      ensures View() == DoQuit(old(View()), c)
    {
      RemovePlayer(players[c].roomId, c, players[c]);
      if c in players && players[c].status == Online {
        LobbyAdd(c);
      }
    }

    method OnKickPlayer(c: int, id: int)
      requires SenderInRoom(View(), c)
      modifies this
      ensures View() == DoKick(old(View()), old(players[c].roomId), id)
    {
      var r := players[c].roomId;
      var x := FindPlayer(View(), id);
      if id != 0 && x in players && rooms[r].luaRefs <= 0 && players[x].roomId == r {
        RemovePlayer(r, x, players[x]);
        if x in players {
          LobbyAdd(x);
        }
        if r in rooms {
          rooms := rooms[r := rooms[r].(rejected := rooms[r].rejected + [id])];
        }
      }
    }

    method OnStartGame(c: int)
      requires SenderInRoom(View(), c)
      modifies this
      ensures View() == DoStart(old(View()), old(players[c].roomId))
    {
      var r := players[c].roomId;
      if |rooms[r].players| >= rooms[r].capacity && rooms[r].luaRefs <= 0 {
        rooms := rooms[r := rooms[r].(luaRefs := rooms[r].luaRefs + 1)];
      }
    }

    method OnLuaRelease(r: nat)
      requires r in rooms
      modifies this
      ensures View() == DoLuaRelease(old(View()), r)
    {
      rooms := rooms[r := rooms[r].(luaRefs := rooms[r].luaRefs - 1)];
      if rooms[r].luaRefs <= 0 {
        checks := checks + [Check(r, NoRefCount)];
      }
    }

    method CreateRobot() returns (c: int)
      modifies this
      ensures View() == Lifecycle.CreateRobot(old(View())) && c == old(nextConn)
    {
      c := nextConn;
      nextConn := nextConn + 1;
      Register(c, Player(nextRobot, Robot, 0, 0));
      nextRobot := nextRobot - 1;
    }

    method OnAddRobot(c: int)
      requires SenderInRoom(View(), c) && nextRobot < 0
      modifies this
      ensures View() == DoAddRobot(old(View()), old(players[c].roomId), c)
    {
      var r := players[c].roomId;
      if c == rooms[r].owner && |rooms[r].players| < rooms[r].capacity {
        var robot := CreateRobot();
        AddPlayer(r, robot);
      }
    }

    method OnTrust(c: int)
      requires SenderInRoom(View(), c)
      modifies this
      ensures View() == RoomStep(old(View()), ToggleTrust(c))
    {
      if rooms[players[c].roomId].luaRefs > 0 {
        if players[c].status != Trust {
          players := players[c := players[c].(status := Trust)];
        } else {
          players := players[c := players[c].(status := Online)];
        }
      }
    }

    method OnChangeRoom(c: int, capacity: int)
      requires SenderInRoom(View(), c)
      modifies this
      ensures View() == DoChangeRoom(old(View()), old(players[c].roomId), c, capacity)
    {
      var r := players[c].roomId;
      if c == rooms[r].owner && capacity >= |rooms[r].players| {
        rooms := rooms[r := rooms[r].(capacity := capacity)];
      }
    }

    method OnGameOver(r: nat)
      requires r in rooms
      modifies this
      ensures View() == DoGameOver(old(View()), old(rooms[r].players))
    {
      var members := rooms[r].players;
      assert members[0..] == members;
      for i := 0 to |members|
        invariant DoGameOver(View(), members[i..]) == DoGameOver(old(View()), members)
      {
        assert members[i..][1..] == members[i + 1..];
        var c := members[i];
        if c in players && players[c].id > 0 && players[c].status == Trust {
          players := players[c := players[c].(status := Online)];
        }
      }
      assert members[|members|..] == [];
    }

    method OnAddNpc(r: nat) returns (c: int)
      requires r in rooms
      modifies this
      ensures View() == DoAddNpc(old(View()), r) && c == old(nextConn)
    {
      c := CreateRobot();
      rooms := rooms[r := rooms[r].(players := rooms[r].players + [c], npcs := rooms[r].npcs + {c})];
      players := players[c := players[c].(roomId := r)];
    }

    method EraseMember(members: seq<int>, c: int) returns (rest: seq<int>)
      ensures rest == Erase(members, c)
    {
      var i := 0;
      assert members[0..] == members;
      while i < |members| && members[i] != c
        invariant 0 <= i <= |members|
        invariant Erase(members, c) == members[..i] + Erase(members[i..], c)
      {
        assert members[i..][1..] == members[i + 1..];
        i := i + 1;
      }
      if i < |members| {
        assert members[i..][1..] == members[i + 1..];
        rest := members[..i] + members[i + 1..];
      } else {
        assert members[i..] == [] && members[..i] == members;
        rest := members;
      }
    }

    method OnRemoveNpc(r: nat, c: int)
      requires r in rooms && c in players
      modifies this
      ensures View() == DoRemoveNpc(old(View()), r, c)
    {
      if c in rooms[r].players {
        var rest := EraseMember(rooms[r].players, c);
        rooms := rooms[r := rooms[r].(players := rest)];
        DeletePlayer(c);
      }
    }

    /** `gone` is what the first loop of `Lobby::checkAbandoned` collects, in the hash table's order. */
    method OnSweepLobby(gone: seq<int>)
      modifies this
      ensures View() == DoSweepLobby(old(View()), gone)
    {
      DeleteAll(gone);
      lobby := lobby - set c | c in gone;
    }

    // -------------------------------------------------------------- reclaiming

    method CollectAbsent(members: seq<int>) returns (gone: seq<int>)
      ensures gone == Absent(View(), members)
    {
      hide Absent;
      gone := [];
      assert members[0..] == members;
      for i := 0 to |members|
        invariant gone + Absent(View(), members[i..]) == Absent(View(), members)
      {
        AbsentFrom(View(), members, i, gone);
        if !(members[i] in players && players[members[i]].sock != 0) {
          gone := gone + [members[i]];
        }
      }
      assert members[|members|..] == [] && Absent(View(), []) == [] by {
        NoneAbsent(View());
      }
    }

    method DeleteAll(gone: seq<int>)
      modifies this
      ensures View() == Lifecycle.DeleteAll(old(View()), gone)
    {
      assert gone[0..] == gone;
      for i := 0 to |gone|
        invariant Lifecycle.DeleteAll(View(), gone[i..]) == Lifecycle.DeleteAll(old(View()), gone)
      {
        assert gone[i..][1..] == gone[i + 1..];
        if gone[i] in players {
          DeletePlayer(gone[i]);
        }
      }
      assert gone[|gone|..] == [];
    }

    /** `players.erase(remove_if(...))`. */
    method KeepOthers(members: seq<int>, gone: set<int>) returns (kept: seq<int>)
      ensures kept == Without(members, gone)
    {
      hide Without;
      kept := [];
      assert members[0..] == members;
      for i := 0 to |members|
        invariant kept + Without(members[i..], gone) == Without(members, gone)
      {
        WithoutFrom(members, i, gone, kept);
        if members[i] !in gone {
          kept := kept + [members[i]];
        }
      }
      assert members[|members|..] == [] && Without([], gone) == [] by {
        NoneWithout(gone);
      }
    }

    method SendHome(members: seq<int>)
      modifies this
      ensures View() == Lifecycle.SendHome(old(View()), members)
    {
      assert members[0..] == members;
      for i := 0 to |members|
        invariant Lifecycle.SendHome(View(), members[i..]) == Lifecycle.SendHome(old(View()), members)
      {
        assert members[i..][1..] == members[i + 1..];
        var c := members[i];
        if c in players {
          if players[c].sock != 0 {
            LobbyAdd(c);
          } else {
            DeletePlayer(c);
          }
        }
      }
      assert members[|members|..] == [];
    }

    method CheckAbandoned(r: nat, reason: Reason)
      requires r in rooms
      modifies this
      ensures View() == Lifecycle.CheckAbandoned(old(View()), r, reason)
    {
      if reason == NoRefCount {
        var gone := CollectAbsent(rooms[r].players);
        DeleteAll(gone);
        if r in rooms {
          var kept := KeepOthers(rooms[r].players, set c | c in gone);
          rooms := rooms[r := rooms[r].(players := kept)];
        }
      }
      assert View() == if reason == NoRefCount then SweepAbsent(old(View()), r) else old(View());
      if r in rooms {
        var abandoned := IsRoomAbandoned(rooms[r].players);
        if abandoned && rooms[r].luaRefs <= 0 {
          var members := rooms[r].players + rooms[r].observers;
          rooms := rooms - {r};
          SendHome(members);
        }
      }
    }

    method OnRunCheck()
      requires checks != []
      modifies this
      ensures View() == DoRunCheck(old(View()))
    {
      var k := checks[0];
      checks := checks[1..];
      if k.room in rooms {
        CheckAbandoned(k.room, k.reason);
      }
    }
  }
}
