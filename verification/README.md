# A verified model of the FreeKill game server

FreeKill's server keeps players in a lobby and in rooms, runs the games of those rooms in a pool of Lua worker
threads, and talks CBOR to its clients and to the Lua processes. This project models the parts of it whose
correctness spans many operations and runs, and proves what they guarantee. Every part has the same shape: the
state and the operations as functions, the methods and loops of the program proved to compute those functions,
and theorems about the functions over all inputs or all runs.

- **Lifecycle** (`Lifecycle*.dfy`): the lobby, rooms, players, accounts, sockets and queued reclaim checks as a
  state machine of twenty kinds of event. `LifecycleInvariant` states what holds between events, `LifecycleSteps`
  proves that each event keeps it, `LifecycleBounds` what every single operation keeps in the middle of an event,
  `LifecycleTheorems`, `LifecycleOwners` and `LifecycleAccounts` draw the conclusions, `LifecyclePlaces`
  those that hold over every `removeNpc`; `LifecycleEffects`, `LifecycleDepartures`, `LifecycleSessions` and
  `LifecycleChecks` say what each event does to whom and that it leaves the others alone, and `LifecycleHoused` that
  nobody gets lost. `LifecycleRuns` holds concrete runs, and `LifecycleServer` is the server object with its handlers
  and loops.
- **Versions** (`Semver*.dfy`): `SemverSyntax` is the grammar and the numbers and versions its texts denote;
  `SemverParser` the lexer and parser as functions of token positions; `SemverCursor` the parser with its moving
  cursor; `SemverGrammar` the equivalence of parser and grammar; `SemverPrinter` the backward writer and the
  round trips; `SemverOrder` the comparison against the precedence rules; `SemverRange` ranges, their parser and
  the version check at login, with `SemverRangeText` for what range texts mean. The standard
  is Semantic Versioning 2.0.0, sections 2, 9, 10 and 11.
- **Wire formats** (`Cbor`, `Packet*`, `Rpc*`): heads in shortest form and a stream decoder after sections 3, 3.1
  and 4.1 of RFC 8949; the packet writer against the packet builder and its buffer; the JSON-RPC request writer
  (sections 4 and 5 of JSON-RPC 2.0, with integer keys) against the packet builder, the reader and the buffer of
  its wait loop, for one request and (`RpcStream`) for whole streams of them, and
  (`RpcAnswers`) packets of every kind, as the other side may send them.
- **Threads** (`Thread*.dfy`): the worker pool with its manual reference counts, "outdated" marks and posted
  removals, under room and task creation and destruction, digest refresh and configuration reload; `ThreadEffects`
  says what each of these does.
- **Tasks** (`Task*.dfy`): the three maps of the task manager, and the lobby that ends a user's tasks.
- **Shared definitions**: `Basics`.
- **Two streaming loops**: `Crlf`, the line-end normalising digest feed, and `SendQueue` with `SendServer`, the
  send queue with its deferred close.

## How to read the model

- An event of the main loop is one step. Work that the program posts for later (reclaim checks, thread removals)
  is a queue in the state, and running its front is a step of its own. An event the server refuses changes nothing.
- `Lifecycle`, `Threads` and `Tasks` have an `INITIAL`, `Initial` or `EMPTY` state; "reachable" means reached from
  it by any list of steps.
- Integer widths are written out where they matter: the 64-bit accumulator of the version parser, conversions to
  `int`, `int64_t` and `size_t`, and the unsigned subtraction in the callback for four-byte negative numbers.
- The decode callbacks store decoded strings as values. `Ignored` stands for every item the program has no
  callback for.
- Hash tables are walked in an order that is a parameter, or arbitrary.

## What turned out to be conditional

Properties that the code does not have without a condition are stated with their exact condition:

- A version's numbers are taken modulo 2^64, so printing inverts parsing exactly when no number reaches 2^64
  (`ParsePrint`); `WrappedNumeralAccepted` is a text beyond it. Nineteen digits are always enough.
- Numeric identifiers are ordered by value exactly when the conversion of their length difference to `int` keeps
  its sign (`NumericByValue`), which it does for texts below 2^31 characters. Beyond them the comparison can lose the
  exchange of signs (`AntisymmetricIff`) and go in a circle (`Cycle`).
- `handleBuffer` compares the consumed bytes with the length that is left, not with the buffer's, and never
  updates its own count of handled packets. Whole packets are always delivered; the beginning of a further packet
  survives to the next read only under the condition of `TailKept`, and a single packet in two reads only under
  that of `TwoReads`.
- A timestamp in [-2^32, -2^16) arrives changed (`TimestampArrives`).
- A 64-bit RPC parameter is not written at all, and a null one is not heard by the reader (`RequestReadIff`). Bytes
  that fail the packet builder without being malformed stay in the buffer and stop it for good (`JammedForever`).
- A room whose capacity is stored as 0 is abandoned as soon as it is created, and its creation queues no check
  (`NewRoomIsReclaimable`); only an administrator's check or a Lua release can queue one later.
- A seat that its client has left during a game still belongs to the account. If the next game starts before the
  end-of-game check of the last one runs, that check throws the seat out of the running game, the seat runs away a
  second time without a socket, and the account's connected player is no longer its current one
  (`CheckEvictsIff`, `AccountEvicted`; all events: `AccountKeptIff`).
- A room that is abandoned during a game loses its owner, and a player who rejoins the game then does not become one
  (`OwnerlessIff`, `OwnerlessRoom`).
- `removeNpc` may be given any connection. Given the owner, or the last member that keeps a room from being due for a
  check, it breaks what all other events keep (`RemoveNpcExact`, `EmptiedRoom`). Places, accounts and seats survive every
  call (`ListedAtMostOnceAnyway`, `ViewsAndSeatsAnyway`).
- A player who quits a room while on auto-play, after the game or as an observer, is taken off the room's lists without
  returning to the lobby. It is the only way to be listed nowhere (`HousedIff`, `LostQuitter`, `EverybodySomewhere`).
- The request index of the task manager stays right exactly for ids that are zero, or positive and free
  (`SetReplyKeepsIff`).
- Normalising line ends is idempotent exactly on files without CR CR LF (`IdempotentIff`).

## Model

| member | source | states |
|---|---|---|
| LifecycleTheorems.ListedAtMostOnce | src/server/room/room.cpp:179-180 | in every reachable state a connection is listed at most once over the lobby, all seats and all observers, it is a live player, and its `roomId` names the place |
| LifecycleTheorems.AbandonedRoomIsQueued | src/server/room/room.cpp:314-316 | a room of positive capacity with nobody connected and no game always has a reclaim check queued |
| LifecycleTheorems.NewRoomIsReclaimable | src/server/room/lobby.cpp:201-209 | why the capacity matters: no check of a new room is queued, and the room is abandoned at once, so that nobody is due to reclaim it, exactly when its capacity, converted to `size_t`, is 0 |
| LifecycleTheorems.CheckRemovesExactlyTheDead | src/server/room/room.cpp:411-442 | a queued check removes its own room exactly when at that moment no seated member is connected and no game runs, and never another room |
| LifecycleTheorems.OnlyChecksRemoveRooms | src/server/room/room_manager.cpp:44-48 | no other event removes a room |
| LifecycleTheorems.OwnerIsSeated | src/server/room/room.cpp:148-153 | in every reachable state a room's owner is none or a seated player with an account, never a robot |
| LifecycleTheorems.OwnerSuccession | src/server/room/room.cpp:314-325 | when the owner quits, before or during a game, a connected member owns the room if there is one, and nobody does otherwise |
| LifecycleTheorems.KickedOwnerSucceeded | src/server/room/room.cpp:799-828 | the same when the owner is kicked |
| LifecycleTheorems.LostOwnerSucceeded | src/server/user/serverplayer.cpp:180-206 | the same when the owner's socket goes outside a game and the player is destroyed |
| LifecycleOwners.SweptOwnerSucceeded | src/server/room/room.cpp:411-431 | the same when the end-of-game check throws an owner out who lost the connection during the game |
| LifecycleOwners.OwnerlessIff | src/server/user/serverplayer.cpp:232-241 | an event leaves a room with a connected member but no owner exactly when it is a login that gives a player a seat back in a running game whose room lost its owner |
| LifecycleOwners.OwnerlessNeedsRejoin | src/server/room/room.cpp:314-325 | so in every run a room with a connected member has an owner unless somebody rejoined it so |
| LifecycleRuns.OwnerlessRoom | src/server/room/room.cpp:314-316 | a run that comes to such a login |
| LifecycleOwners.RemoveNpcExact | src/server/gamelogic/rpc-dispatchers.cpp:779-803 | `removeNpc` takes any connection; for every reachable state, room and player: the owner stays a seated member exactly when it is not the one removed, the room stays due for a check exactly when the removal does not leave it dead and unqueued, and with both everything that holds between events holds afterwards |
| LifecyclePlaces.ListedAtMostOnceAnyway | src/server/room/room.cpp:1028-1036 | what does not rest on owners and checks holds in runs with every call of `removeNpc`, whomever it names: a connection is still listed at most once, is a live player, and its `roomId` names the place |
| LifecyclePlaces.ViewsAndSeatsAnyway | src/server/user/user_manager.cpp:47-62 | so the account and robot maps still only name live players of that id, and members outside `addNpc` never exceed the capacity |
| LifecyclePlaces.RemoveNpcRests | src/server/gamelogic/rpc-dispatchers.cpp:779-803 | the call itself keeps that invariant for any room and any player, a seated one, one of another room, an observer or one in the lobby |
| LifecyclePlaces.ReachAnyRests | src/server/room/room.cpp:155-347 | and so does every run with such calls |
| LifecycleRuns.EmptiedRoom | src/server/room/room.cpp:1028-1036 | a reachable room that it leaves empty, without a game, unqueued and owned by nobody alive |
| LifecycleOwners.SenderIsListed | src/server/room/lobby.cpp:33-36 | a connected player whose room id is the lobby's, which is what decides where its packets go, is listed in the lobby |
| LifecycleTheorems.SeatsNeverOverbooked | src/server/room/room.cpp:162-166 | members that did not come through `addNpc` never exceed the capacity, over joins, robots, capacity changes and every other event |
| LifecycleTheorems.CleanupFitsRoom | src/server/room/room.cpp:412-431 | after the end-of-game check the whole list of a room that stays is connected and within capacity |
| LifecycleTheorems.SupersededPlayerKeepsAccount | src/server/user/user_manager.cpp:69-77 | the end of any other socket, and the deletions it causes, leave the current player of an account in place and unchanged |
| LifecycleAccounts.AccountKeptIff | src/server/user/user_manager.cpp:47-83 | for every event in every reachable state: an account keeps its current player, on the same socket, exactly when the event neither ends that player nor puts another connection of the account in its place, by a login, by a seat left during a game, or by an empty seat that a check throws out of a running game |
| LifecycleAccounts.CheckEvictsIff | src/server/room/room.cpp:411-431 | a connected current player survives every queued check but one kind: the end-of-game check of a room in which the next game runs and an empty seat of the same account is left |
| LifecycleRuns.AccountEvicted | src/server/room/room.cpp:245-262 | a run that comes to such a check: the account loses a player that is still connected to a socketless one |
| LifecycleTheorems.AccountsAreAView | src/server/user/user_manager.cpp:47-62 | the account and robot maps only name live players of exactly that id |
| LifecycleTheorems.LogoutAtMostOnce | src/network/client_socket.cpp:66-71 | after the end of a socket was handled once, reporting it again after any further events changes nothing |
| LifecycleSteps.StepKeeps | src/server/room/room.cpp:155-347 | every event keeps the whole invariant: places, owners, seats, reclaim checks, accounts, sockets |
| LifecycleSteps.ReachKeeps | src/server/room/room.cpp:780-828 | so does every run from the empty server |
| LifecycleSteps.SweepKeeps | src/server/room/room.cpp:411-431 | deleting absent members one by one, each of which removes itself from the room being swept, keeps it |
| LifecycleSteps.DestroyKeeps | src/server/room/room.cpp:27-68 | so does sending members and observers home when a room is destroyed |
| LifecycleHoused.HousedIff | src/server/room/room.cpp:780-784 | an event leaves everybody somewhere exactly unless it is a quit, from other than a seat in a running game, by a player whose status is not online |
| LifecycleHoused.EverybodySomewhere | src/server/room/lobby.cpp:29-41 | in every run without such a quit every account's player is listed in exactly one place: the lobby, one seat or one observer's chair |
| LifecycleRuns.LostQuitter | src/server/room/room.cpp:783-784 | a run that comes to such a quit |
| LifecycleEffects.QuitterGoesHome | src/server/room/room.cpp:245-326 | a quitter leaves both lists of the room and is in the lobby exactly if online; from a seat in a running game the seat stays with the old connection, and a new connection of the account is in the lobby on the old socket; nobody else changes |
| LifecycleEffects.EnterThenQuit | src/server/room/lobby.cpp:244-253 | coming in and quitting again leaves every player and the lobby as they were, and the same people in the room |
| LifecycleEffects.EnteringSeats | src/server/room/room.cpp:155-219 | a room takes a player in exactly when a seat is free, no game runs and the account is not rejected; then it sits last, is out of the lobby, and owns a room that had no owner |
| LifecycleEffects.ObservingSeats | src/server/room/room.cpp:328-347 | exactly running games are watched, by accounts that are not rejected |
| LifecycleEffects.CreatingRoom | src/server/room/lobby.cpp:201-209 | a new room has the stored capacity; its maker sits in it, owns it and is out of the lobby if there is a seat |
| LifecycleEffects.AddingRobot | src/server/room/room.cpp:235-243 | only the owner adds robots, while a seat is free; the robot is new, under a new negative id, and sits unless a game runs |
| LifecycleEffects.AddingNpc | src/server/room/room.cpp:1018-1026 | Lua's robots are seated whatever the capacity |
| LifecycleEffects.ChangingRoom | src/server/room/room.cpp:847-894 | the capacity changes exactly for the owner and never below the members present; nothing else does |
| LifecycleEffects.StartingGame | src/server/room/room.cpp:727-752 | a game runs afterwards exactly when one ran before or the room is full; nothing else changes |
| LifecycleEffects.StartThenRelease | src/server/room/room.cpp:727-752 | a game that is started and let go of by Lua leaves the rooms and players as they were, with the end-of-game check queued |
| LifecycleEffects.ReleasingRoom | src/server/room/room.cpp:997-1004 | with Lua's last reference, and only then, the end-of-game check is queued |
| LifecycleEffects.TogglingTrust | src/server/room/room.cpp:830-844 | auto-play is turned on and off inside a game, for the sender alone |
| LifecycleEffects.GameEnds | src/server/room/room.cpp:650-678 | the end of a game takes exactly the accounts among its players off auto-play |
| LifecycleEffects.PostingAndForgetting | src/server/room/room.cpp:759-768 | an administrator's check is queued last; forgetting takes one rejection off the list |
| LifecycleDepartures.KickedOut | src/server/room/room.cpp:799-828 | a kick meets exactly the current player of that account, or the robot, in that room without a game: out of both lists, rejected, and in the lobby, or destroyed if a robot |
| LifecycleDepartures.KickedStaysOut | src/server/room/room.cpp:759-772 | whatever happens afterwards, no connection of that account enters or observes that room until the rejection is forgotten |
| LifecycleSessions.LoggingIn | src/server/user/user_manager.cpp:139-170 | a login gives an account that is in a running game its player back in its place and disarms the older socket, and makes a new player in the lobby otherwise; nobody else changes |
| LifecycleSessions.LosingSocket | src/server/user/serverplayer.cpp:180-206 | inside a game the player stays in its place, offline; anywhere else it is destroyed, listed nowhere, and the account's entry goes if it named it |
| LifecycleSessions.StrangeSocket | src/network/client_socket.cpp:66-71 | the end of a socket that is nobody's changes only its own callback |
| LifecycleSessions.LostAndBack | src/server/user/serverplayer.cpp:232-241 | losing the socket inside a game and logging in again on a new one gives back the same place, online, with nothing else changed anywhere |
| LifecycleChecks.CheckDoes | src/server/room/room.cpp:411-442 | a queued check closes a dead room: connected observers go to the lobby, everybody else in it is destroyed, and nobody outside changes; otherwise the end-of-game check destroys exactly the absent members, and any other check does nothing |
| LifecycleChecks.SweptDuringGame | src/server/room/room.cpp:411-431 | if the next game runs already, exactly the absent members lose their seats and are destroyed |
| LifecycleChecks.LobbySwept | src/server/room/lobby.cpp:68-85 | exactly the players in the lobby without a socket are destroyed |
| LifecycleChecks.NpcRemoved | src/server/room/room.cpp:1028-1036 | a member that `removeNpc` names is destroyed and listed nowhere, whoever it is, and nothing happens for anybody else |
| LifecycleServer.GameServer.IsRoomAbandoned | src/server/room/room.cpp:131-142 | the loop finds out whether no listed member has a socket |
| LifecycleServer.GameServer.FindConnected | src/server/room/room.cpp:318-324 | the owner search finds the first connected member |
| LifecycleServer.GameServer.SetSocket | src/network/router.cpp:27-45 | the callback handover: the old socket is disarmed, the new one bound to this connection |
| LifecycleServer.GameServer.Register | src/server/user/user_manager.cpp:47-62 | an account or robot entry and the connection entry, the newest player winning |
| LifecycleServer.GameServer.EnterLobby | src/server/room/lobby.cpp:33-36 | listed in the lobby with room id 0 |
| LifecycleServer.GameServer.RunAway | src/server/room/room.cpp:245-273 | the seat stays with the old connection, a fresh one takes the socket to the lobby |
| LifecycleServer.GameServer.RemovePlayer | src/server/room/room.cpp:275-326 | observer, waiting and playing members leave as the state machine says |
| LifecycleServer.GameServer.AfterLeave | src/server/room/room.cpp:314-325 | reclaim check, owner reset or owner succession |
| LifecycleServer.GameServer.DeletePlayer | src/server/user/user_manager.cpp:64-83 | the maps drop the player and the destructor takes it out of its room |
| LifecycleServer.GameServer.LobbyAdd | src/server/room/lobby.cpp:29-41 | robots are deleted, others enter the lobby |
| LifecycleServer.GameServer.OnSocketGone | src/server/user/serverplayer.cpp:180-206 | a current socket's end logs out or detaches the player, a stale one nothing |
| LifecycleServer.GameServer.Reconnect | src/server/user/serverplayer.cpp:232-241 | a player gets a new socket and is online |
| LifecycleServer.GameServer.CreateNewPlayer | src/server/user/user_manager.cpp:139-170 | a new player is registered, bound and put into the lobby |
| LifecycleServer.GameServer.AddPlayer | src/server/room/room.cpp:155-219 | refusals, seat, room id and first owner |
| LifecycleServer.GameServer.OnCreateRoom | src/server/room/lobby.cpp:201-209 | a room is created and entered |
| LifecycleServer.GameServer.OnEnterRoom | src/server/room/lobby.cpp:244-253 | entering leaves the lobby only when it succeeded |
| LifecycleServer.GameServer.OnObserveRoom | src/server/room/room.cpp:328-347 | only running rooms are observed |
| LifecycleServer.GameServer.OnQuitRoom | src/server/room/room.cpp:780-784 | only players whose state is still online return to the lobby |
| LifecycleServer.GameServer.OnKickPlayer | src/server/room/room.cpp:799-828 | a member found by account or robot id leaves and is rejected from then on |
| LifecycleServer.GameServer.OnAddRobot | src/server/room/room.cpp:235-243 | only the owner adds robots, and only into free seats |
| LifecycleServer.GameServer.OnTrust | src/server/room/room.cpp:830-844 | auto-play is toggled only inside a game |
| LifecycleServer.GameServer.OnChangeRoom | src/server/room/room.cpp:847-894 | only the owner changes the capacity, never below the members present |
| LifecycleServer.GameServer.OnStartGame | src/server/room/room.cpp:727-752 | a game starts once, in a full room |
| LifecycleServer.GameServer.OnGameOver | src/server/room/room.cpp:650-678 | members on auto-play are online again |
| LifecycleServer.GameServer.OnAddNpc | src/server/room/room.cpp:1018-1026 | a robot is seated whatever the capacity |
| LifecycleServer.GameServer.OnRemoveNpc | src/server/room/room.cpp:1028-1036 | a listed member is erased and destroyed |
| LifecycleServer.GameServer.OnLuaRelease | src/server/room/room.cpp:997-1004 | the last Lua reference posts the end-of-game check |
| LifecycleServer.GameServer.CheckAbandoned | src/server/room/room.cpp:411-442 | cleanup, then removal of an abandoned room without a game |
| LifecycleServer.GameServer.SendHome | src/server/room/room.cpp:34-57 | the destructor's loops: connected members to the lobby, others deleted |
| LifecycleServer.GameServer.OnSweepLobby | src/server/room/lobby.cpp:68-85 | the administrator's sweep deletes those in the lobby who are not connected |
| SemverGrammar.ParseIffGrammar | src/3rdparty/semver.hpp:808-825 | for every text: `parse` gives a version exactly when the text is in the grammar of Semantic Versioning 2.0.0 and its three numbers, modulo 2^64, fit an `int`; and it gives what the text denotes |
| SemverGrammar.ParseComplete | src/3rdparty/semver.hpp:542-584 | every grammatical text, the overflowing ones included, is accepted or refused as its numbers say |
| SemverGrammar.ParseSound | src/3rdparty/semver.hpp:542-584 | nothing else is accepted |
| SemverGrammar.AccumulateIsWord | src/3rdparty/semver.hpp:606-608 | the accumulator that wraps at each digit holds the numeral's value modulo 2^64 |
| SemverGrammar.LexInjective | src/3rdparty/semver.hpp:427-471 | no two texts lex to the same version tokens |
| SemverParser.ScanTokens | src/3rdparty/semver.hpp:408-421 | the lexer loop, with its two-character tokens, computes the token list that ends with the only end token |
| SemverCursor.ParseText | src/3rdparty/semver.hpp:808-825 | the parser as it runs, from lexing to the check for the end token, computes the function that the grammar theorem is about |
| SemverCursor.TokenStream.ParseNumber | src/3rdparty/semver.hpp:591-616 | the digit loop computes the number at the cursor and stops behind it |
| SemverCursor.TokenStream.LooksLikeLeadingZero | src/3rdparty/semver.hpp:737-763 | the look-ahead answers whether only digits follow the zero, without moving and without leaving the tokens |
| SemverCursor.TokenStream.ParseIdentifier | src/3rdparty/semver.hpp:660-697 | one identifier, with the leading-zero rule only for pre-releases |
| SemverCursor.TokenStream.ParseTag | src/3rdparty/semver.hpp:618-638 | the dotted list as text and as classified identifiers |
| SemverCursor.TokenStream.ParseVersion | src/3rdparty/semver.hpp:543-584 | the whole version at the cursor; no token behind the end token is read on any input, and the cursor stands behind it exactly when the parse has failed on having taken it |
| SemverCursor.MakeIdentifier | src/3rdparty/semver.hpp:699-708 | numeric means all digits |
| SemverPrinter.ToString | src/3rdparty/semver.hpp:182-206 | the backward writer fills exactly `length()` characters, and they are the printed version |
| SemverPrinter.Length | src/3rdparty/semver.hpp:164-168 | the length of the printed version |
| SemverPrinter.DigitCount | src/3rdparty/semver.hpp:100-107 | the digits of a number |
| SemverPrinter.ToChars | src/3rdparty/semver.hpp:110-116 | the digits before a position, nothing else touched |
| SemverPrinter.DigitsDenote | src/3rdparty/semver.hpp:110-116 | a printed number is a numeral without leading zero that denotes it |
| SemverPrinter.ParsePrint | src/3rdparty/semver.hpp:182-206 | a text that parses prints back as itself exactly when none of its numbers reaches 2^64 |
| SemverPrinter.PrintParse | src/3rdparty/semver.hpp:182-206 | for every accepted text the printed version parses to the same version |
| SemverPrinter.ShortNumeralsExact | src/3rdparty/semver.hpp:591-616 | with numerals of at most 19 digits: accepted exactly when grammatical with components at most INT_MAX, with those components, and printing is the inverse |
| SemverPrinter.WrappedNumeralAccepted | src/3rdparty/semver.hpp:607 | 18446744073709551617.0.0 is accepted as 1.0.0 |
| SemverOrder.NumericComparison | src/3rdparty/semver.hpp:305-321 | the loop, with the length difference narrowed to `int` |
| SemverOrder.PreComparison | src/3rdparty/semver.hpp:508-523 | the identifier-list comparison loop |
| SemverOrder.NumericByValue | src/3rdparty/semver.hpp:305-321 | numerals of any length compare as the numbers they denote exactly when narrowing the length difference keeps its sign |
| SemverOrder.NarrowingFlips | src/3rdparty/semver.hpp:308-310 | of two numerals whose lengths differ by 2^31 each compares below the other |
| SemverOrder.CompareIsPrecedence | src/3rdparty/semver.hpp:784-805 | where the narrowed length differences keep their signs, the computed comparison is the precedence of section 11, zero exactly for equal numbers and pre-release tag, and stays within `int` |
| SemverOrder.TotalPreorder | src/3rdparty/semver.hpp:784-805 | there it is sign-antisymmetric and transitive |
| SemverOrder.Cycle | src/3rdparty/semver.hpp:308-310 | beyond it transitivity fails: three parsed versions each of which precedes the next, and the last the first |
| SemverOrder.AntisymmetricIff | src/3rdparty/semver.hpp:784-805 | for all versions: exchanging the operands exchanges the sign exactly unless the deciding numeric identifiers differ in length by 2^31 modulo 2^32 |
| SemverOrder.ShortTextsComparable | src/3rdparty/semver.hpp:305-321 | texts of at most 2^31 - 1 characters are always in that case |
| SemverOrder.ParsedTextsOrdered | src/3rdparty/semver.hpp:784-805 | the same for any three texts that parse |
| SemverOrder.JoinInjective | src/3rdparty/semver.hpp:618-638 | a tag is one list of identifiers only |
| SemverRange.ContainsConvex | src/3rdparty/semver.hpp:917-941 | a range is convex with pre-releases included; without them a version between two members is one exactly when a comparator names its pre-release |
| SemverRange.RangeTextConvex | src/3rdparty/semver.hpp:961-1042 | the same for every range that any range text parses to and any three version texts |
| SemverRangeText.RangeTextParsed | src/3rdparty/semver.hpp:961-1031 | a range text written with any operators, versions, blanks and alternatives parses to exactly these comparators if the numbers fit, and is refused otherwise |
| SemverRangeText.RangeTextMeans | src/3rdparty/semver.hpp:883-957 | and contains exactly the versions that stand in the written relations by the precedence of section 11 to all comparators of one alternative; a pre-release only if wanted or if one comparator names a pre-release of the same three numbers |
| SemverRange.RangeParser.Parse | src/3rdparty/semver.hpp:966-984 | the range-set loop computes the parsing function |
| SemverRange.RangeParser.ParseOneRange | src/3rdparty/semver.hpp:990-1003 | so does the comparator loop |
| SemverRange.RangeParser.ParseRangeComparator | src/3rdparty/semver.hpp:1006-1023 | operator, blanks, version |
| SemverRange.GateRange | src/server/user/auth.cpp:211 | the literal of the login check parses to the two comparators it is meant to be |
| SemverRange.GateExact | src/server/user/auth.cpp:209-229 | for every text: accepted exactly when it is a version without pre-release whose numbers, modulo 2^64, are 0, 5 and at least 19 |
| SemverRange.GateShort | src/server/user/auth.cpp:209-229 | with numerals of at most 19 digits: exactly 0.5.p with p from 19 to INT_MAX, any build metadata |
| SemverRange.CheckVersion | src/server/user/auth.cpp:209-229 | the login check computes that acceptance |
| Cbor.ItemRoundTrip | src/core/c-wrapper.cpp:138-181 | every item in shortest form decodes, whatever follows, to the event it was written for, and exactly its bytes are read |
| Cbor.JumpTable | src/network/client_socket.cpp:223-263 | what is decoded from each first byte is what appendix B of RFC 8949 says, with big-endian arguments |
| Cbor.ItemPrefix | src/network/client_socket.cpp:287-293 | every proper beginning of an item asks for more data |
| Cbor.CutAt | src/network/client_socket.cpp:284-306 | a proper beginning of several items is whole items and a proper beginning of the next |
| Packets.EncodeArray | src/core/c-wrapper.cpp:138-181 | the writer's bytes are an array head and one item per value, in order |
| Packets.ArrayRoundTrip | src/core/c-wrapper.cpp:138-181 | whatever integers, byte strings, texts and truth values are written, a reader of the bytes finds an array of as many items and exactly these values |
| PacketTheorems.ArrayDeliveredIff | src/network/client_socket.cpp:161-220 | of all arrays of values exactly those of four or six values of the kinds of a packet's fields are delivered |
| PacketTheorems.MalformedEnds | src/network/client_socket.cpp:284-322 | malformed bytes behind whole packets: these are delivered, the buffer is left as it is, and the status is an error |
| PacketTheorems.WholePacketsDelivered | src/network/client_socket.cpp:265-322 | a read of N whole packets of four or six fields delivers exactly those packets in order with equal fields and leaves the buffer empty |
| PacketTheorems.TailKept | src/network/client_socket.cpp:303-319 | with the beginning of another packet behind them the packets are delivered; the beginning stays for the next read exactly when it is empty, or alone and broken off inside an item |
| PacketTheorems.TwoReads | src/network/client_socket.cpp:303-319 | a packet cut in two arrives exactly when the cut is inside an item; otherwise it is lost |
| PacketTheorems.TimestampArrives | src/network/client_socket.cpp:251-253 | a timestamp arrives unchanged exactly outside [-2^32, -2^16) |
| PacketTheorems.IntArrives | src/network/client_socket.cpp:161-175 | every 32-bit value survives the callbacks' unsigned subtraction and the narrowing; 64-bit ones as stated |
| PacketTheorems.DrainItems | src/network/client_socket.cpp:284-306 | the decode loop hands over every whole item and settles as far as the last of them once a packet was handled |
| PacketReader.ClientSocket.ReadBuffer | src/network/client_socket.cpp:265-322 | the loop with its counters computes delivered packets, kept bytes and status |
| PacketReader.PacketBuilder.NextField | src/network/client_socket.cpp:213-220 | the last field delivers the packet and resets the builder |
| PacketReader.PacketBuilder.HandleInteger | src/network/client_socket.cpp:161-175 | integer fields, and what an integer elsewhere does |
| PacketReader.PacketBuilder.HandleBytes | src/network/client_socket.cpp:177-194 | string fields, and what a string elsewhere does |
| PacketReader.PacketBuilder.StartArray | src/network/client_socket.cpp:196-202 | only four or six fields make a packet |
| RpcTheorems.RequestRoundTrip | src/server/rpc-lua/rpc-lua.cpp:48-78 | reading a written request, whatever follows, gives the same id, method and parameters and leaves exactly what follows |
| RpcTheorems.MadeRequestRoundTrip | src/server/rpc-lua/jsonrpc.cpp:71-84 | every request made of integers, byte strings and truth values comes back from its bytes, parameters up to the first null |
| RpcTheorems.MadeRequest | src/server/rpc-lua/jsonrpc.cpp:41-84 | a made request carries the parameters before the first null, and an allocated id cycles through 1 to 10000000 |
| RpcTheorems.RequestReadIff | src/server/rpc-lua/rpc-lua.cpp:21-45 | a frame alone is read exactly when none of its parameters is a 64-bit integer, for which nothing is written, or null, of which the reader does not hear; otherwise the reader waits |
| RpcTheorems.PrefixNeedsData | src/server/rpc-lua/rpc-lua.cpp:404-412 | every proper beginning of a request asks for more data |
| RpcTheorems.SplitFrame | src/server/rpc-lua/rpc-lua.cpp:507-531 | however a frame is cut over reads, the buffer yields it once and keeps exactly the surplus |
| RpcStream.StreamInOrder | src/server/rpc-lua/rpc-lua.cpp:507-531 | for every stream of requests and every cutting into reads: after any number of reads the packets taken out are the first requests in order, one more per read as long as whole ones have arrived, and the buffer is exactly the rest |
| RpcStream.OneReadEach | src/server/rpc-lua/rpc-lua.cpp:511-531 | a whole request that waits behind another needs a further read: whatever the next reads bring, each takes out exactly one until at least those waiting are out, and never more than one |
| RpcTheorems.WaitingKeepsBytes | src/server/rpc-lua/rpc-lua.cpp:519-531 | until the frame is complete the reads yield nothing and keep every byte |
| RpcTheorems.JammedRead | src/server/rpc-lua/rpc-lua.cpp:519-531 | once the buffered bytes fail the builder without a malformed item, a read brings no packet whatever it adds: every byte is kept, or a malformed item clears the buffer |
| RpcTheorems.JammedForever | src/server/rpc-lua/rpc-lua.cpp:507-531 | so no number of reads brings a packet until a malformed item ends the waiting |
| RpcTheorems.IntegerJams | src/server/rpc-lua/rpc-lua.cpp:190-192 | a single integer where a packet should begin is enough |
| RpcTheorems.FailedNeverFinishes | src/server/rpc-lua/rpc-lua.cpp:399-415 | no bytes complete a packet after that |
| RpcReader.SendRequest | src/server/rpc-lua/rpc-lua.cpp:48-78 | the bytes on the pipe, literal parts included, encode the request's events |
| RpcReader.SendParam | src/server/rpc-lua/rpc-lua.cpp:21-45 | the bytes of one parameter |
| RpcReader.MakeNotification | src/server/rpc-lua/jsonrpc.cpp:41-69 | parameter counting |
| RpcReader.Requests.Make | src/server/rpc-lua/jsonrpc.cpp:71-84 | id allocation with wrap-around |
| RpcReader.ReadJsonRpcPacket | src/server/rpc-lua/rpc-lua.cpp:393-416 | the read loop; the cursor ends behind the packet or where it was |
| RpcReader.RpcLua.TakeRead | src/server/rpc-lua/rpc-lua.cpp:519-531 | the buffer after one read |
| RpcAnswers.AnyPacketRead | src/server/rpc-lua/rpc-lua.cpp:132-283 | a response, error or notification with its members in any order, parameters and an error at most once, is read to its end, to exactly its contents, and leaves exactly what follows |
| RpcAnswers.ResponseRead | src/server/rpc-lua/rpc-lua.cpp:195-199 | the answer to a call, with an integer, byte string or truth value as result, comes back with its id, no name and no error |
| RpcAnswers.ErrorRead | src/server/rpc-lua/rpc-lua.cpp:163-180 | an error comes back with its id, code and message, whatever the data |
| RpcAnswers.RefusedIff | src/server/rpc-lua/rpc-lua.cpp:150-283 | an item fails the packet exactly when it is not one that may come there, by the numbers of the members |
| RpcReader.RpcPacketBuilder.HandleInteger | src/server/rpc-lua/rpc-lua.cpp:148-193 | integers in every state |
| RpcReader.RpcPacketBuilder.HandleBool | src/server/rpc-lua/rpc-lua.cpp:195-207 | truth values in every state |
| RpcReader.RpcPacketBuilder.HandleBytes | src/server/rpc-lua/rpc-lua.cpp:209-252 | byte strings in every state |
| RpcReader.RpcPacketBuilder.StartArray | src/server/rpc-lua/rpc-lua.cpp:254-268 | the parameter list |
| RpcReader.RpcPacketBuilder.StartMap | src/server/rpc-lua/rpc-lua.cpp:270-281 | the envelope and the error object |
| RpcReader.RpcPacketBuilder.DoReadParam | src/server/rpc-lua/rpc-lua.cpp:302-327 | five slots; the announced count ends the list |
| ThreadTheorems.CountsAreExact | src/server/gamelogic/roomthread.cpp:197-206 | in every run a thread counts exactly the live rooms and tasks that use it, at most its capacity or one, and lists exactly its rooms |
| ThreadTheorems.OutdatedTogether | src/server/room/room.cpp:381-402 | between steps every digest is empty or the server's, a room's thread is there, and the room is outdated iff the thread is |
| ThreadTheorems.RemovalIsSafe | src/server/gamelogic/roomthread.cpp:205-214 | a posted removal never concerns a thread that a live room or task uses, and every outdated unused thread has one posted |
| ThreadTheorems.OutdatedForGood | src/server/gamelogic/roomthread.cpp:187-195 | an outdated thread is never current again, even when an old digest returns, and its id is not reused |
| ThreadTheorems.RoomOutdatedForGood | src/server/room/room.cpp:381-385 | neither is a room, until it is destroyed |
| ThreadTheorems.AvailableKeeps | src/server/server.cpp:220-229 | the thread that is found is current with a free place, and new only if needed |
| ThreadTheorems.StepKeeps | src/server/server.cpp:409-444 | every operation, the refresh included, keeps the invariant |
| ThreadTheorems.RunKeeps | src/server/admin/admin_service.cpp:217-236 | so does every run |
| ThreadEffects.NewRoomEffect | src/server/server.cpp:220-229 | a new room gets the first current thread with a free place in the walk, or a new one of the configured capacity if there is none; no other thread, room or task changes |
| ThreadEffects.NewTaskEffect | src/server/task/task.cpp:16-18 | a new task is placed in the same way |
| ThreadEffects.EndRoomEffect | src/server/room/room.cpp:59-63 | ending a room removes it alone, and posts its thread's removal exactly when the thread is outdated and it was the last user |
| ThreadEffects.EndTaskEffect | src/server/task/task.cpp:21-25 | so does ending a task |
| ThreadEffects.RefreshEffect | src/server/server.cpp:409-444 | after a refresh a room or thread is current exactly when it was before and the digest is the same; a thread goes exactly when outdated and unused |
| ThreadEffects.OtherEffects | src/server/gamelogic/roomthread.cpp:187-214 | a posted removal takes its own thread and nothing else; questions and configuration change no room, task or thread |
| ThreadEffects.CapacityAsConfigured | src/server/gamelogic/roomthread.cpp:179-181 | in every run a thread's capacity is what was configured when it was created |
| ThreadServer.ThreadPool.ThreadIsOutdated | src/server/gamelogic/roomthread.cpp:187-195 | the question that clears a stale digest |
| ThreadServer.ThreadPool.RoomIsOutdated | src/server/room/room.cpp:381-385 | the same for a room |
| ThreadServer.ThreadPool.DecreaseRefCount | src/server/gamelogic/roomthread.cpp:205-214 | the last user of an outdated thread posts its removal |
| ThreadServer.ThreadPool.GetAvailableThread | src/server/server.cpp:220-229 | the search loop |
| ThreadServer.ThreadPool.CreateRoom | src/server/room/room_manager.cpp:30-38 | a room takes a thread, its digest and a reference |
| ThreadServer.ThreadPool.DestroyRoom | src/server/room/room.cpp:59-63 | and gives them back |
| ThreadServer.ThreadPool.CreateTask | src/server/task/task.cpp:16-18 | a task takes a reference |
| ThreadServer.ThreadPool.DestroyTask | src/server/task/task.cpp:21-25 | and gives it back |
| ThreadServer.ThreadPool.RemoveRoomFromThread | src/server/gamelogic/roomthread.cpp:220-224 | the first occurrence leaves the list |
| ThreadServer.ThreadPool.RemoveIdleThreads | src/server/server.cpp:437-444 | collect, then remove |
| ThreadServer.ThreadPool.RefreshServerMd5 | src/server/server.cpp:409-444 | a new digest marks every room and thread |
| TaskTheorems.UserListsExact | src/server/task/task_manager.cpp:48-85 | in every run a user's list is exactly that user's live tasks, each once, and never an empty list |
| TaskTheorems.ReplyIndexExact | src/server/task/task_manager.cpp:40-46 | the request index finds exactly the task that waits for that reply |
| TaskTheorems.TasksStayInLobby | src/server/room/lobby.cpp:43-52 | a task of a user exists only while the user is listed in the lobby; that senders of tasks are is `SenderIsListed` |
| TaskTheorems.RemoveAllByUserExact | src/server/task/task_manager.cpp:56-65 | removing a user's tasks removes exactly those, although each removal edits the list |
| TaskTheorems.SetReplyKeepsIff | src/server/task/task_manager.cpp:87-103 | the index still agrees exactly when the new id is none, or positive and not awaited by another task |
| TaskTheorems.StepKeeps | src/server/room/lobby.cpp:313-331 | every operation keeps the three maps in agreement |
| TaskTheorems.StartedBelongsToSender | src/server/room/lobby.cpp:327-329 | a task that a user in the lobby starts is that user's, last in its list, awaited by nobody, and gone when the user leaves the lobby; nothing else changes |
| TaskTheorems.LobbyMoves | src/server/room/lobby.cpp:29-52 | entering lists a user and does nothing else; leaving ends exactly that user's tasks |
| TaskTheorems.AwaitedIsFound | src/server/task/task_manager.cpp:87-103 | a task that awaits a free reply is found for it, and for no earlier reply |
| TaskTheorems.EndedIsGone | src/server/task/task_manager.cpp:15-46 | ending a task takes it, and only it, out of all three maps |
| TaskServer.TaskManager.RemoveTask | src/server/task/task_manager.cpp:15-33 | one task out of three maps |
| TaskServer.TaskManager.RemoveAllTasksByUser | src/server/task/task_manager.cpp:56-65 | the loop over the copy |
| TaskServer.TaskManager.AttachTaskToUser | src/server/task/task_manager.cpp:67-85 | a task is attached once |
| TaskServer.TaskManager.SetTaskExpectedReplyId | src/server/task/task_manager.cpp:87-103 | the index follows the task |
| TaskServer.TaskManager.LeaveLobby | src/server/room/lobby.cpp:43-52 | leaving the lobby ends the user's tasks |
| TaskServer.TaskManager.OnTask | src/server/room/lobby.cpp:327-329 | a task is created and attached |
| Crlf.FeedFile | src/core/util.cpp:30-84 | for every way of cutting a file into non-empty buffers the digest is fed the file with each CR LF replaced by LF, pairs across a border and a last lone CR included |
| Crlf.FeedBuffer | src/core/util.cpp:34-78 | one buffer of it, with the CR held back |
| Crlf.NormalizeDeletes | src/core/util.cpp:55-66 | that is the file without each CR that stands before an LF |
| Crlf.NormalizeToCrlf | src/core/util.cpp:20 | rewriting the line ends of any file to CR LF does not change what is fed |
| Crlf.IdempotentIff | src/core/util.cpp:55-66 | normalising again changes nothing exactly when the file has no CR CR LF |
| SendQueue.OneWriteInOrder | src/network/client_socket.cpp:106-132 | in every run a write is under way exactly when the queue is not empty, of its front, and written then queued messages are what was sent, in order |
| SendQueue.CloseAfterWrites | src/network/client_socket.cpp:82-104 | a close happens only after everything sent before was written, and a requested one is not forgotten |
| SendQueue.HandlersFireOnce | src/network/client_socket.cpp:99-103 | no installed disconnect handler is called twice |
| SendQueue.EndsExactly | src/network/client_socket.cpp:66-132 | the installed handler is called by exactly the end of the reader, a disconnect with an empty queue and the last completion after a disconnect, and the socket is closed by exactly the last two |
| SendQueue.InstalledIsCalled | src/network/client_socket.cpp:92-104 | over any further steps a handler that is not replaced has been called exactly when one of them ended the connection |
| SendQueue.QueueDrains | src/network/client_socket.cpp:119-131 | as many completions as queued messages write everything and carry out a requested close |
| SendServer.Connection.SendMessage | src/network/client_socket.cpp:106-109 | only the first message starts a write |
| SendServer.Connection.ContinueSending | src/network/client_socket.cpp:111-132 | the front is written, or a requested close is done |
| SendServer.Connection.OnWritten | src/network/client_socket.cpp:123-130 | completion, with or without an error |
| SendServer.Connection.DisconnectFromHost | src/network/client_socket.cpp:82-90 | close now or after the queue |
| SendServer.Connection.CloseSocket | src/network/client_socket.cpp:92-104 | the handler is called and replaced |
| SendServer.Connection.OnReaderEnd | src/network/client_socket.cpp:66-71 | so it is when the reader ends |

## Left out

- CompareIsPrecedence, TotalPreorder, ParsedTextsOrdered, ContainsConvex, RangeTextConvex: where the numbers of identifiers fit an `int` and narrowing keeps the sign of the length differences position by position, which all texts below 2^31 characters meet; exact are `NumericByValue` for one identifier and `AntisymmetricIff` for the sign; for transitivity `Cycle` shows that it fails beyond the condition, not for which triples.
- RemoveNpcExact: in runs `removeNpc` is a step exactly where this member says that it keeps what the other results rest on; in runs after any other call of it, places, accounts and seats are covered (`LifecyclePlaces`), owners and queued checks are not.
- OnAddRobot: requires the next robot id to be negative, which every reachable state satisfies; the wrap-around of robot, connection, task and request id counters is not modelled and live ids are taken to be distinct (the wrap of JSON-RPC ids is).
- FeedFile: the MD5 computation itself is a log of the bytes it is fed, and the all-zero digest of a file that cannot be opened is not part of it.
- FeedBuffer: the update for bytes before a held-back CR (src/core/util.cpp:40) is proved to be out of reach and has no counterpart.
- HandlersFireOnce: a disconnect handler that itself closes the same socket while it is being called is not modelled.
- ReadBuffer: a callback that closes the connection in the middle of a buffer is not modelled; callbacks are a log.
- Kicks (`emitKicked`) are the later end of that player's socket, as its own step; their timing against the code after the call is not modelled.
- Passwords, banned words, outdated rooms, disabled features and ban lists only refuse requests; a refused request is no step. The flags `died`, `runned`, ready marks and game time are not in the model.
- Lua process death (`RoomThread::shutdown`) and `Server::_clear`, which bypass the reclaim rules.
- Threads of execution: room state read by several threads under a lock is read in one step; the hop of a call to its worker thread is not modelled.
- Object lifetime: raw captures, views into reused buffers and delayed destruction; removal and destructor are one step.
- Maps stand for hash tables and values for the objects they own, so aliasing between a map's object and a reference held elsewhere is not captured.
- libcbor, asio, OpenSSL, SQLite and zlib are not part of this model; CBOR follows RFC 8949, and what libcbor does with items the program ignores is not distinguished.
- Error positions and error codes of the version parser, and the partly filled version a failed parse leaves.
- `sendError`, `sendResponse` and the dispatchers behind the RPC reader: the writer and this reader are not inverses there.
- Broadcast notifications, statistics, win rates, chat, avatars, package management, shell and HTTP administration beyond the sweeps named above.
