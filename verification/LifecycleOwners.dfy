/** Owners, reclaim checks and lobby membership: what holds exactly when. */
module LifecycleOwners {
  import opened Basics
  import opened Lifecycle
  import opened LifecycleInvariant
  import opened LifecycleSteps
  import opened LifecycleBounds
  import opened LifecycleTheorems

  // ---------------------------------------------------------------- rooms without owner

  /** An event leaves a room without owner but with a connected member exactly when it is a login that gives
      one of the room's players the seat in its running game back. */
  lemma OwnerlessIff(s: State, step: Step, r: nat)
    requires Reachable(s) && Safe(s, r)
    ensures Safe(Next(s, step), r) <==> !Rejoins(s, step, r)
  {
    hide Reachable, Inv, Tame, Safe, Next, Rejoins;
    ReachableKeeps(s);
    ReachableTame(s);
    StepSafe(s, step, r);
  }

  /** So in every run: a room with a connected member has an owner unless somebody has rejoined it so. */
  lemma {:induction false} OwnerlessNeedsRejoin(steps: seq<Step>, r: nat)
    requires !Safe(Reach(steps), r)
    ensures exists i :: 0 <= i < |steps| && Rejoins(Reach(steps[..i]), steps[i], r)
    decreases |steps|
  {
    hide Safe, Next, Rejoins, Inv, Tame;
    NoRoomYet(r);
    if steps != [] {
      var n := |steps| - 1;
      var before := steps[..n];
      if Safe(Reach(before), r) {
        ReachKeeps(before);
        ReachTame(before);
        StepSafe(Reach(before), steps[n], r);
        assert Rejoins(Reach(steps[..n]), steps[n], r);
      } else {
        OwnerlessNeedsRejoin(before, r);
        var i :| 0 <= i < |before| && Rejoins(Reach(before[..i]), before[i], r);
        assert before[..i] == steps[..i] && before[i] == steps[i];
      }
    }
  }

  lemma NoRoomYet(r: nat)
    ensures Safe(INITIAL, r)
  {
  }

  /** The end-of-game check throws an owner out whose connection was lost during the game: if anybody in the
      room is connected, a connected member owns it afterwards. */
  lemma SweptOwnerSucceeded(s: State)
    requires Reachable(s) && s.checks != [] && s.checks[0].reason == NoRefCount && s.checks[0].room in s.rooms
    requires s.rooms[s.checks[0].room].owner != 0
    requires !IsAbandoned(s, s.rooms[s.checks[0].room].players)
    ensures var (t, r) := (DoRunCheck(s), s.checks[0].room);
      && OwnerSettled(t, r) && t.rooms[r].owner != 0
      && t.rooms[r].owner in t.rooms[r].players && Connected(t, t.rooms[r].owner)
  {
    var t, r := DoRunCheck(s), s.checks[0].room;
    hide Reachable;
    ReachableKeeps(s);
    OwnerlessIff(s, RunCheck, r);
    hide DoRunCheck;
    assert Next(s, RunCheck) == t;
    RunCheckKeeps(s);
    RunCheckRooms(s);
    RunCheckFits(s);
    RunCheckMembers(s);
    assert RoomOk(t, r, {});
    hide Inv;
    var c :| c in s.rooms[r].players && Connected(s, c);
    assert c in t.rooms[r].players && Connected(t, c);
  }

  /** Connected members stay when the check does not remove their room. */
  lemma RunCheckMembers(s: State)
    requires Inv(s) && s.checks != [] && s.checks[0].reason == NoRefCount && s.checks[0].room in s.rooms
    requires !IsAbandoned(s, s.rooms[s.checks[0].room].players)
    ensures var (t, r) := (DoRunCheck(s), s.checks[0].room);
      && r in t.rooms
      && (forall c :: c in s.rooms[r].players && Connected(s, c) ==> c in t.rooms[r].players)
      && forall c :: Connected(s, c) ==> Connected(t, c)
  {
    var u, r := s.(checks := s.checks[1..]), s.checks[0].room;
    PopChecked(s);
    hide Inv, InvLax, OwnerOk, CheckAbandoned, SweepAbsent;
    assert forall d :: Connected(u, d) == Connected(s, d);
    CheckRooms(u, r, NoRefCount);
    SweepShape(u, r);
  }

  // ---------------------------------------------------------------- removing listed members

  /** `removeNpc` takes any connection.  The room's owner stays a seated member exactly when it is not the one
      removed, the room stays due for a check exactly when the removal does not strand it, and everything
      else that holds between events holds afterwards. */
  lemma RemoveNpcExact(s: State, r: nat, c: int)
    requires Reachable(s) && r in s.rooms && c in s.players
    ensures var t := DoRemoveNpc(s, r, c);
      && r in t.rooms
      && (OwnerOk(t, t.rooms[r], {}) <==> c != s.rooms[r].owner)
      && (ReclaimOk(t, r, t.rooms[r]) <==> !Strands(s, r, c))
      && (Inv(t) <==> c != s.rooms[r].owner && !Strands(s, r, c))
  {
    hide Reachable;
    ReachableKeeps(s);
    var t := DoRemoveNpc(s, r, c);
    assert RoomOk(s, r, {}) && PlayerOk(s, c);
    if c in s.rooms[r].players {
      RemovedState(s, r, c);
      hide DoRemoveNpc, PlayerOk;
      RemovedOwner(s, t, r, c);
      RemovedDue(s, t, r, c);
      if c != s.rooms[r].owner && !Strands(s, r, c) {
        RemoveNpcKeeps(s, r, c);
      } else {
        hide OwnerOk, ReclaimOk, Strands;
        assert !(OwnerOk(t, t.rooms[r], {}) && ReclaimOk(t, r, t.rooms[r]));
        NotInv(t, r);
      }
    }
  }

  lemma NotInv(s: State, r: nat)
    requires r in s.rooms && !(OwnerOk(s, s.rooms[r], {}) && ReclaimOk(s, r, s.rooms[r]))
    ensures !Inv(s)
  {
    assert Inv(s) ==> RoomOk(s, r, DeadIn(r, 0, {}));
  }

  lemma RemovedState(s: State, r: nat, c: int)
    requires Inv(s) && r in s.rooms && c in s.players && c in s.rooms[r].players
    ensures var t := DoRemoveNpc(s, r, c);
      && t.rooms == s.rooms[r := s.rooms[r].(players := Erase(s.rooms[r].players, c))]
      && t.players == s.players - {c} && t.checks == s.checks
      && forall d :: d in Erase(s.rooms[r].players, c) <==> d in s.rooms[r].players && d != c
  {
    assert RoomOk(s, r, {}) && PlayerOk(s, c);
    EraseMembers(s.rooms[r].players, c);
    hide Inv, RoomOk, PlayerOk, Erase;
    NoRoomZeroAt(s, r);
  }

  lemma NoRoomZeroAt(s: State, r: nat)
    ensures r in s.rooms ==> s.rooms == s.rooms[r := s.rooms[r]]
  {
  }

  lemma RemovedOwner(s: State, t: State, r: nat, c: int)
    requires r in s.rooms && OwnerOk(s, s.rooms[r], {}) && c in s.players && c in s.rooms[r].players && c != 0
    requires t.rooms == s.rooms[r := s.rooms[r].(players := Erase(s.rooms[r].players, c))] && t.players == s.players - {c}
    requires forall d :: d in Erase(s.rooms[r].players, c) <==> d in s.rooms[r].players && d != c
    ensures OwnerOk(t, t.rooms[r], {}) <==> c != s.rooms[r].owner
  {
  }

  lemma RemovedDue(s: State, t: State, r: nat, c: int)
    requires r in s.rooms && c in s.players && c in s.rooms[r].players
    requires t.rooms == s.rooms[r := s.rooms[r].(players := Erase(s.rooms[r].players, c))] && t.players == s.players - {c}
    requires t.checks == s.checks
    requires forall d :: d in Erase(s.rooms[r].players, c) <==> d in s.rooms[r].players && d != c
    ensures ReclaimOk(t, r, t.rooms[r]) <==> !Strands(s, r, c)
  {
    assert forall d :: d != c ==> Connected(t, d) == Connected(s, d);
    assert Queued(t, r) == Queued(s, r);
  }

  // ---------------------------------------------------------------- the lobby

  /** A player whose packets go to the lobby, which is decided by its room id, is listed in the lobby. */
  lemma SenderIsListed(s: State, c: int)
    requires Reachable(s) && SenderInLobby(s, c)
    ensures c in s.lobby
  {
    hide Reachable;
    ReachableTame(s);
  }
}
