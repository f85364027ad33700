/** The lobby, the rooms, the players and their sockets as one state machine.

    A step is one event the main loop runs to its end: a packet from a connected client, a login, a
    socket that went away, a call from Lua, or a queued reclaim check.  Players are named by connection
    id, accounts by a positive id, robots by a negative one, the lobby by room id 0. */
module Lifecycle {
  import opened Basics

  datatype Status = Online | Trust | Run | Robot | Offline

  /** `sock` is the id of the player's current socket, 0 when there is none. */
  datatype Player = Player(id: int, status: Status, sock: nat, roomId: nat)

  /** `npcs` records which members entered through `addNpc`; nothing in the server reads it. */
  datatype Room = Room(players: seq<int>, observers: seq<int>, owner: int, capacity: nat,
                       luaRefs: int, rejected: seq<int>, npcs: set<int>)

  datatype Reason = NoRefCount | NoHuman

  /** A posted call of `_checkAbandoned`. */
  datatype Check = Check(room: nat, reason: Reason)

  /** What a socket's disconnect callback does. */
  datatype Handler = Early | Session(conn: int) | Inert

  datatype State = State(
    players: map<int, Player>, online: map<int, int>, robots: map<int, int>,
    lobby: set<int>, rooms: map<nat, Room>, checks: seq<Check>,
    handlers: map<nat, Handler>, nextConn: int, nextRoom: nat, nextRobot: int)

  const INITIAL := State(map[], map[], map[], {}, map[], [], map[], 1000, 1, -2)

  // ---------------------------------------------------------------- sequences of connection ids

  /** Keeps the members outside `gone`, in order. */
  function Without(xs: seq<int>, gone: set<int>): seq<int> {
    if xs == [] then [] else (if xs[0] in gone then [] else [xs[0]]) + Without(xs[1..], gone)
  }

  // ---------------------------------------------------------------- reading the state

  predicate Connected(s: State, c: int) {
    c in s.players && s.players[c].sock != 0
  }

  predicate Queued(s: State, r: nat) {
    exists k :: k in s.checks && k.room == r
  }

  predicate IsAbandoned(s: State, members: seq<int>) {
    forall c :: c in members ==> !Connected(s, c)
  }

  /** The first connected member, 0 when there is none. */
  function FirstConnected(s: State, members: seq<int>): int {
    if members == [] then 0
    else if Connected(s, members[0]) then members[0]
    else FirstConnected(s, members[1..])
  }

  predicate InsideGame(s: State, c: int)
    requires c in s.players
  {
    var r := s.players[c].roomId;
    r != 0 && r in s.rooms && s.rooms[r].luaRefs > 0 && c !in s.rooms[r].observers
  }

  predicate IsFull(room: Room) {
    |room.players| >= room.capacity
  }

  // ---------------------------------------------------------------- sessions and accounts

  function Release(h: map<nat, Handler>, sock: nat): map<nat, Handler> {
    if sock != 0 then h[sock := Inert] else h
  }

  function Bind(h: map<nat, Handler>, sock: nat, c: int): map<nat, Handler> {
    if sock != 0 then h[sock := Session(c)] else h
  }

  function SetSocket(s: State, c: int, sock: nat): State
    requires c in s.players
  {
    var p := s.players[c];
    s.(players := s.players[c := p.(sock := sock)],
       handlers := Bind(Release(s.handlers, p.sock), sock, c))
  }

  function SetStatus(s: State, c: int, status: Status): State
    requires c in s.players
  {
    s.(players := s.players[c := s.players[c].(status := status)])
  }

  function Register(s: State, c: int, p: Player): State {
    var s1 := s.(players := s.players[c := p]);
    if p.id > 0 then s1.(online := s1.online[p.id := c]) else s1.(robots := s1.robots[p.id := c])
  }

  /** A named account entry goes only if it still names this very player; a robot entry always goes. */
  function Unregister(s: State, c: int, p: Player): State {
    s.(players := s.players - {c},
       online := if p.id in s.online && s.online[p.id] == c then s.online - {p.id} else s.online,
       robots := s.robots - {p.id})
  }

  // ---------------------------------------------------------------- rooms

  function SetRoom(s: State, r: nat, room: Room): State {
    s.(rooms := s.rooms[r := room])
  }

  function SetOwner(s: State, r: nat, c: int): State
    requires r in s.rooms
  {
    if c in s.players && s.players[c].id < 0 then s
    else SetRoom(s, r, s.rooms[r].(owner := c))
  }

  function EnterLobby(s: State, c: int): State
    requires c in s.players
  {
    s.(lobby := s.lobby + {c}, players := s.players[c := s.players[c].(roomId := 0)])
  }

  /** A player leaves a running game: the seat stays with the old connection and a fresh connection
      of the same account takes the socket to the lobby. */
  function RunAway(s: State, c: int, p: Player): State {
    var s1 := s.(
      players := if c in s.players then s.players[c := p.(status := Run, sock := 0)] else s.players,
      handlers := Release(s.handlers, p.sock),
      nextConn := s.nextConn + 1);
    var s2 := s1.(handlers := Bind(s1.handlers, p.sock, s.nextConn));
    EnterLobby(Register(s2, s.nextConn, Player(p.id, Online, p.sock, 0)), s.nextConn)
  }

  /** What follows once `c` has left its seat in room `r`. */
  function AfterLeave(s: State, r: nat, c: int): State
    requires r in s.rooms
  {
    var room := s.rooms[r];
    if IsAbandoned(s, room.players) then
      SetRoom(s, r, room.(owner := 0)).(checks := s.checks + [Check(r, NoHuman)])
    else if c == room.owner then
      SetOwner(s, r, FirstConnected(s, room.players))
    else s
  }

  /** `p` is the leaving player's record: a dying player is no longer in `s.players`. */
  function RemovePlayer(s: State, r: nat, c: int, p: Player): State
    requires r in s.rooms
  {
    var room := s.rooms[r];
    if c in room.observers then
      SetRoom(s, r, room.(observers := Erase(room.observers, c)))
    else if c !in room.players then s
    else if room.luaRefs <= 0 then
      AfterLeave(SetRoom(s, r, room.(players := Erase(room.players, c))), r, c)
    else
      AfterLeave(RunAway(s, c, p), r, c)
  }

  /** Drops a player from the maps and destroys it.  Its router lets go of the socket last, unless a
      run-away connection has taken the socket over. */
  function DeletePlayer(s: State, c: int): State
    requires c in s.players
  {
    var p := s.players[c];
    var s1 := Unregister(s, c, p);
    var s2 := if p.roomId == 0 then s1.(lobby := s1.lobby - {c})
              else if p.roomId in s1.rooms then RemovePlayer(s1, p.roomId, c, p)
              else s1;
    if s2.nextConn != s1.nextConn then s2 else s2.(handlers := Release(s2.handlers, p.sock))
  }

  function LobbyAdd(s: State, c: int): State
    requires c in s.players
  {
    if s.players[c].status == Robot then DeletePlayer(s, c) else EnterLobby(s, c)
  }

  /** The room part of `Room::addPlayer`; the caller takes the newcomer out of the lobby. */
  function AddPlayer(s: State, r: nat, c: int): State
    requires r in s.rooms && c in s.players
  {
    var room := s.rooms[r];
    if s.players[c].id in room.rejected || IsFull(room) || room.luaRefs > 0 then s
    else
      var s1 := SetRoom(s, r, room.(players := room.players + [c]));
      var s2 := s1.(players := s1.players[c := s1.players[c].(roomId := r)]);
      if room.owner == 0 then SetOwner(s2, r, c) else s2
  }

  function AddObserver(s: State, r: nat, c: int): State
    requires r in s.rooms && c in s.players
  {
    var room := s.rooms[r];
    if room.luaRefs <= 0 || s.players[c].id in room.rejected then s
    else
      var s1 := SetRoom(s, r, room.(observers := room.observers + [c]));
      s1.(players := s1.players[c := s1.players[c].(roomId := r)])
  }

  function LeaveLobbyFor(s: State, r: nat, c: int): State
    requires c in s.players
  {
    if s.players[c].roomId == r then s.(lobby := s.lobby - {c}) else s
  }

  /** The robot `createRobot` makes, before it is seated. */
  function CreateRobot(s: State): State {
    Register(s, s.nextConn, Player(s.nextRobot, Robot, 0, 0))
      .(nextConn := s.nextConn + 1, nextRobot := s.nextRobot - 1)
  }

  // ---------------------------------------------------------------- reclaiming rooms

  /** The members that `_checkAbandoned(NoRefCount)` throws out. */
  function Absent(s: State, members: seq<int>): seq<int> {
    if members == [] then []
    else (if Connected(s, members[0]) then [] else [members[0]]) + Absent(s, members[1..])
  }

  function DeleteAll(s: State, gone: seq<int>): State
    decreases |gone|
  {
    if gone == [] then s
    else DeleteAll(if gone[0] in s.players then DeletePlayer(s, gone[0]) else s, gone[1..])
  }

  function SweepAbsent(s: State, r: nat): State
    requires r in s.rooms
  {
    var gone := Absent(s, s.rooms[r].players);
    var s1 := DeleteAll(s, gone);
    if r !in s1.rooms then s1
    else SetRoom(s1, r, s1.rooms[r].(players := Without(s1.rooms[r].players, set c | c in gone)))
  }

  /** The two loops of the room's destructor, over players and then observers. */
  function SendHome(s: State, members: seq<int>): State
    decreases |members|
  {
    if members == [] then s
    else
      var c := members[0];
      SendHome(if c !in s.players then s
               else if s.players[c].sock != 0 then LobbyAdd(s, c)
               else DeletePlayer(s, c), members[1..])
  }

  function DestroyRoom(s: State, r: nat): State
    requires r in s.rooms
  {
    SendHome(s.(rooms := s.rooms - {r}), s.rooms[r].players + s.rooms[r].observers)
  }

  function CheckAbandoned(s: State, r: nat, reason: Reason): State
    requires r in s.rooms
  {
    var s1 := if reason == NoRefCount then SweepAbsent(s, r) else s;
    if r !in s1.rooms || !IsAbandoned(s1, s1.rooms[r].players) || s1.rooms[r].luaRefs > 0 then s1
    else DestroyRoom(s1, r)
  }

  // ---------------------------------------------------------------- events

  datatype Step =
    | Connect(sock: nat)
    | Login(sock: nat, id: int)
    | SocketGone(sock: nat)
    | CreateRoom(c: int, capacity: int)
    | EnterRoom(c: int, r: nat)
    | ObserveRoom(c: int, r: nat)
    | QuitRoom(c: int)
    | AddRobot(c: int)
    | KickPlayer(c: int, id: int)
    | ToggleTrust(c: int)
    | ChangeRoom(c: int, capacity: int)
    | StartGame(c: int)
    | GameOver(r: nat)
    | LuaRelease(r: nat)
    | AddNpc(r: nat)
    | RemoveNpc(r: nat, c: int)
    | ForgetReject(r: nat, id: int)
    | PostCheck(r: nat)
    | RunCheck
    | SweepLobby(gone: seq<int>)

  /** Does a packet of `c` reach a room? */
  predicate SenderInRoom(s: State, c: int) {
    Connected(s, c) && s.players[c].roomId in s.rooms
  }

  predicate SenderInLobby(s: State, c: int) {
    Connected(s, c) && s.players[c].roomId == 0
  }

  function Reconnect(s: State, c: int, sock: nat): State
    requires c in s.players
  {
    SetStatus(SetSocket(s, c, sock), c, Online)
  }

  function CreateNewPlayer(s: State, sock: nat, id: int): State {
    var c := s.nextConn;
    var s1 := Register(s, c, Player(id, Online, 0, 0)).(nextConn := c + 1);
    EnterLobby(SetSocket(s1, c, sock), c)
  }

  /** An account that is inside a running game gets its old player back. */
  function DoLogin(s: State, sock: nat, id: int): State {
    if id in s.online && s.online[id] in s.players && InsideGame(s, s.online[id])
    then Reconnect(s, s.online[id], sock)
    else CreateNewPlayer(s, sock, id)
  }

  function OnDisconnected(s: State, c: int): State
    requires c in s.players
  {
    var s1 := SetStatus(SetSocket(s, c, 0), c, Offline);
    if InsideGame(s1, c) then s1 else DeletePlayer(s1, c)
  }

  function DoSocketGone(s: State, sock: nat): State
    requires sock in s.handlers
  {
    var h := s.handlers[sock];
    var s1 := if h.Session? && h.conn in s.players && s.players[h.conn].sock == sock
              then OnDisconnected(s, h.conn) else s;
    s1.(handlers := s1.handlers[sock := Inert])
  }

  /** An `int` stored in a `size_t`. */
  function ToSize(n: int): nat {
    n % 0x1_0000_0000_0000_0000
  }

  function DoCreateRoom(s: State, c: int, capacity: nat): State
    requires c in s.players
  {
    var r := s.nextRoom;
    var s1 := SetRoom(s, r, Room([], [], 0, capacity, 0, [], {})).(nextRoom := r + 1);
    LeaveLobbyFor(AddPlayer(s1, r, c), r, c)
  }

  function DoQuit(s: State, c: int): State
    requires c in s.players && s.players[c].roomId in s.rooms
  {
    var s1 := RemovePlayer(s, s.players[c].roomId, c, s.players[c]);
    if c in s1.players && s1.players[c].status == Online then LobbyAdd(s1, c) else s1
  }

  function DoAddRobot(s: State, r: nat, c: int): State
    requires r in s.rooms
  {
    if c != s.rooms[r].owner || IsFull(s.rooms[r]) then s
    else AddPlayer(CreateRobot(s), r, s.nextConn)
  }

  /** `findPlayer`: accounts by positive id, robots by negative id. */
  function FindPlayer(s: State, id: int): int {
    if id < 0 then (if id in s.robots then s.robots[id] else 0)
    else if id in s.online then s.online[id] else 0
  }

  function DoKick(s: State, r: nat, id: int): State
    requires r in s.rooms
  {
    var x := FindPlayer(s, id);
    if id == 0 || x !in s.players || s.rooms[r].luaRefs > 0 || s.players[x].roomId != r then s
    else
      var s1 := RemovePlayer(s, r, x, s.players[x]);
      var s2 := if x in s1.players then LobbyAdd(s1, x) else s1;
      if r in s2.rooms then SetRoom(s2, r, s2.rooms[r].(rejected := s2.rooms[r].rejected + [id])) else s2
  }

  function DoChangeRoom(s: State, r: nat, c: int, capacity: int): State
    requires r in s.rooms
  {
    var room := s.rooms[r];
    if c != room.owner || capacity < |room.players| then s
    else SetRoom(s, r, room.(capacity := capacity))
  }

  function DoStart(s: State, r: nat): State
    requires r in s.rooms
  {
    var room := s.rooms[r];
    if !IsFull(room) || room.luaRefs > 0 then s
    else SetRoom(s, r, room.(luaRefs := room.luaRefs + 1))
  }

  /** Members that were on auto-play are online again. */
  function DoGameOver(s: State, members: seq<int>): State
    decreases |members|
  {
    if members == [] then s
    else
      var c := members[0];
      DoGameOver(if c in s.players && s.players[c].id > 0 && s.players[c].status == Trust
                 then SetStatus(s, c, Online) else s, members[1..])
  }

  function DoLuaRelease(s: State, r: nat): State
    requires r in s.rooms
  {
    var room := s.rooms[r];
    var s1 := SetRoom(s, r, room.(luaRefs := room.luaRefs - 1));
    if room.luaRefs - 1 > 0 then s1 else s1.(checks := s1.checks + [Check(r, NoRefCount)])
  }

  function DoAddNpc(s: State, r: nat): State
    requires r in s.rooms
  {
    var x := s.nextConn;
    var s1 := CreateRobot(s);
    var room := s1.rooms[r];
    SetRoom(s1, r, room.(players := room.players + [x], npcs := room.npcs + {x}))
      .(players := s1.players[x := s1.players[x].(roomId := r)])
  }

  /** Taking `c` out of the list would leave a room that could be reclaimed and that nobody checks. */
  predicate Strands(s: State, r: nat, c: int)
    requires r in s.rooms
  {
    var room := s.rooms[r];
    && c in room.players && room.capacity > 0 && room.luaRefs <= 0
    && IsAbandoned(s, Erase(room.players, c)) && !Queued(s, r)
  }

  function DoRemoveNpc(s: State, r: nat, c: int): State
    requires r in s.rooms && c in s.players
  {
    var room := s.rooms[r];
    if c !in room.players then s
    else DeletePlayer(SetRoom(s, r, room.(players := Erase(room.players, c))), c)
  }

  /** The checks run in posting order; one whose room is gone does nothing. */
  function DoRunCheck(s: State): State
    requires s.checks != []
  {
    var s1 := s.(checks := s.checks[1..]);
    var k := s.checks[0];
    if k.room in s1.rooms then CheckAbandoned(s1, k.room, k.reason) else s1
  }

  function DoSweepLobby(s: State, gone: seq<int>): State {
    var s1 := DeleteAll(s, gone);
    s1.(lobby := s1.lobby - set c | c in gone)
  }

  /** Sockets that come, log in and go. */
  function SessionStep(s: State, step: Step): State {
    match step
    case Connect(sock) =>
      if sock == 0 || sock in s.handlers then s else s.(handlers := s.handlers[sock := Early])
    case Login(sock, id) =>
      if sock != 0 && sock in s.handlers && s.handlers[sock] == Early && id > 0
      then DoLogin(s, sock, id) else s
    case SocketGone(sock) =>
      if sock in s.handlers then DoSocketGone(s, sock) else s
    case _ => s
  }

  /** Packets to the lobby. */
  function LobbyStep(s: State, step: Step): State {
    match step
    case CreateRoom(c, capacity) =>
      if SenderInLobby(s, c) && capacity != -1 then DoCreateRoom(s, c, ToSize(capacity)) else s
    case EnterRoom(c, r) =>
      if SenderInLobby(s, c) && r in s.rooms then LeaveLobbyFor(AddPlayer(s, r, c), r, c) else s
    case ObserveRoom(c, r) =>
      if SenderInLobby(s, c) && r in s.rooms then LeaveLobbyFor(AddObserver(s, r, c), r, c) else s
    case _ => s
  }

  /** Packets to a room. */
  function RoomStep(s: State, step: Step): State {
    match step
    case QuitRoom(c) => if SenderInRoom(s, c) then DoQuit(s, c) else s
    case AddRobot(c) => if SenderInRoom(s, c) then DoAddRobot(s, s.players[c].roomId, c) else s
    case KickPlayer(c, id) => if SenderInRoom(s, c) then DoKick(s, s.players[c].roomId, id) else s
    case ToggleTrust(c) =>
      if SenderInRoom(s, c) && s.rooms[s.players[c].roomId].luaRefs > 0
      then SetStatus(s, c, if s.players[c].status == Trust then Online else Trust) else s
    case ChangeRoom(c, capacity) =>
      if SenderInRoom(s, c) then DoChangeRoom(s, s.players[c].roomId, c, capacity) else s
    case StartGame(c) => if SenderInRoom(s, c) then DoStart(s, s.players[c].roomId) else s
    case _ => s
  }

  /** Calls from Lua. */
  function LuaStep(s: State, step: Step): State {
    match step
    case GameOver(r) => if r in s.rooms then DoGameOver(s, s.rooms[r].players) else s
    case LuaRelease(r) => if r in s.rooms then DoLuaRelease(s, r) else s
    case AddNpc(r) => if r in s.rooms then DoAddNpc(s, r) else s
    case RemoveNpc(r, c) =>
      if r in s.rooms && c in s.players && c != s.rooms[r].owner && !Strands(s, r, c) then DoRemoveNpc(s, r, c) else s
    case _ => s
  }

  /** Timers, queued checks and the administrator's sweeps. */
  function HouseStep(s: State, step: Step): State {
    match step
    case ForgetReject(r, id) =>
      if r in s.rooms then SetRoom(s, r, s.rooms[r].(rejected := Erase(s.rooms[r].rejected, id))) else s
    case PostCheck(r) =>
      if r in s.rooms then s.(checks := s.checks + [Check(r, NoHuman)]) else s
    case RunCheck => if s.checks != [] then DoRunCheck(s) else s
    case SweepLobby(gone) =>
      if Distinct(gone) && (set c | c in gone) == (set c | c in s.lobby && !Connected(s, c))
      then DoSweepLobby(s, gone) else s
    case _ => s
  }

  /** One step.  An event that the server cannot receive, or that it ignores, changes nothing. */
  function Next(s: State, step: Step): State {
    match step
    case Connect(_) => SessionStep(s, step)
    case Login(_, _) => SessionStep(s, step)
    case SocketGone(_) => SessionStep(s, step)
    case CreateRoom(_, _) => LobbyStep(s, step)
    case EnterRoom(_, _) => LobbyStep(s, step)
    case ObserveRoom(_, _) => LobbyStep(s, step)
    case GameOver(_) => LuaStep(s, step)
    case LuaRelease(_) => LuaStep(s, step)
    case AddNpc(_) => LuaStep(s, step)
    case RemoveNpc(_, _) => LuaStep(s, step)
    case ForgetReject(_, _) => HouseStep(s, step)
    case PostCheck(_) => HouseStep(s, step)
    case RunCheck => HouseStep(s, step)
    case SweepLobby(_) => HouseStep(s, step)
    case _ => RoomStep(s, step)
  }

  /** The state after a whole run. */
  function Reach(steps: seq<Step>): State {
    if steps == [] then INITIAL else Next(Reach(steps[..|steps| - 1]), steps[|steps| - 1])
  }
}
