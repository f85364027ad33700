/** The three maps agree in every reachable state, and no task outlives its user's stay in the lobby. */
module TaskTheorems {
  import opened Basics
  import opened Tasks

  // ---------------------------------------------------------------- the invariant

  /** A user's list has members, each once, and each is a live task of that user. */
  predicate ListOk(s: State, user: int)
    requires user in s.byUser
  {
    var list := s.byUser[user];
    && user > 0 && list != [] && Distinct(list)
    && forall t :: t in list ==> t in s.tasks && s.tasks[t].user == user
  }

  /** A task of a user is in that user's list. */
  predicate Listed(s: State, t: int)
    requires t in s.tasks
  {
    var user := s.tasks[t].user;
    user >= 0 && (user > 0 ==> user in s.byUser && t in s.byUser[user])
  }

  predicate UsersAgree(s: State) {
    (forall user :: user in s.byUser ==> ListOk(s, user)) && forall t :: t in s.tasks ==> Listed(s, t)
  }

  /** The request index is exactly what the tasks wait for. */
  predicate RepliesAgree(s: State) {
    && (forall q :: q in s.byReply ==> q > 0 && s.byReply[q] in s.tasks && s.tasks[s.byReply[q]].reply == q)
    && (forall t :: t in s.tasks ==> s.tasks[t].reply >= 0)
    && (forall t :: t in s.tasks && s.tasks[t].reply > 0 ==>
          s.tasks[t].reply in s.byReply && s.byReply[s.tasks[t].reply] == t)
  }

  predicate InLobby(s: State) {
    forall t :: t in s.tasks && s.tasks[t].user > 0 ==> s.tasks[t].user in s.lobby
  }

  predicate Inv(s: State) {
    UsersAgree(s) && RepliesAgree(s) && InLobby(s)
  }

  // ---------------------------------------------------------------- lists

  lemma {:induction false} RemovedFromList(xs: seq<int>, x: int)
    requires Distinct(xs)
    ensures Distinct(RemoveAllOf(xs, x)) && forall y :: y in RemoveAllOf(xs, x) <==> y in xs && y != x
    decreases |xs|
  {
    if xs != [] {
      var e := RemoveAllOf(xs[1..], x);
      RemovedFromList(xs[1..], x);
      assert xs == [xs[0]] + xs[1..];
      assert xs[0] !in xs[1..];
      hide RemoveAllOf;
      assert forall y :: y in [xs[0]] + e <==> y == xs[0] || y in e;
      DistinctCons(xs[0], e);
      assert [] + e == e;
      assert RemoveAllOf(xs, x) == (if xs[0] == x then [] else [xs[0]]) + e by {
        RemoveAllOfStep(xs, x);
      }
    }
  }

  lemma RemoveAllOfStep(xs: seq<int>, x: int)
    requires xs != []
    ensures RemoveAllOf(xs, x) == (if xs[0] == x then [] else [xs[0]]) + RemoveAllOf(xs[1..], x)
  {
  }

  // ---------------------------------------------------------------- operations

  lemma CreateKeeps(s: State, t: int)
    requires Inv(s) && t !in s.tasks
    ensures Inv(Create(s, t))
  {
    var s' := Create(s, t);
    forall user | user in s'.byUser
      ensures ListOk(s', user)
    {
      assert ListOk(s, user);
    }
    forall u | u in s'.tasks
      ensures Listed(s', u)
    {
      if u != t {
        assert Listed(s, u);
      }
    }
  }

  lemma AttachKeeps(s: State, t: int, user: int)
    requires Inv(s) && user in s.lobby
    ensures Inv(Attach(s, t, user))
  {
    var s' := Attach(s, t, user);
    if s' != s {
      AttachUsers(s, t, user);
    }
  }

  lemma AttachUsers(s: State, t: int, user: int)
    requires UsersAgree(s) && user > 0 && t in s.tasks && s.tasks[t].user <= 0
    ensures UsersAgree(Attach(s, t, user))
  {
    var s', list := Attach(s, t, user), ListOf(s, user);
    assert user in s.byUser ==> ListOk(s, user);
    assert t !in list;
    DistinctSnoc(list, t);
    assert ListOk(s', user);
    forall u | u in s'.byUser && u != user
      ensures ListOk(s', u)
    {
      assert ListOk(s, u);
    }
    forall u | u in s'.tasks
      ensures Listed(s', u)
    {
      assert Listed(s, u);
    }
  }

  lemma RemoveUsers(s: State, t: int)
    requires UsersAgree(s) && t in s.tasks
    ensures UsersAgree(Remove(s, t))
  {
    var s', user := Remove(s, t), s.tasks[t].user;
    assert Listed(s, t);
    if user > 0 {
      assert ListOk(s, user);
      RemovedFromList(s.byUser[user], t);
    }
    hide RemoveAllOf, Distinct;
    forall u | u in s'.byUser
      ensures ListOk(s', u)
    {
      assert ListOk(s, u);
    }
    forall x | x in s'.tasks
      ensures Listed(s', x)
    {
      assert Listed(s, x);
    }
  }

  lemma RemoveReplies(s: State, t: int)
    requires RepliesAgree(s) && t in s.tasks
    ensures RepliesAgree(Remove(s, t))
  {
    hide RemoveAllOf;
  }

  lemma RemoveKeeps(s: State, t: int)
    requires Inv(s)
    ensures Inv(Remove(s, t))
  {
    hide UsersAgree, RepliesAgree, RemoveAllOf;
    if t in s.tasks {
      RemoveUsers(s, t);
      RemoveReplies(s, t);
    }
  }

  /** The index still agrees after an id was set exactly when that id is none or positive and free.  (A
      negative one would stay in the index for ever, one in use would be taken from another task.) */
  lemma SetReplyKeepsIff(s: State, t: int, reply: int)
    requires RepliesAgree(s) && t in s.tasks
    ensures RepliesAgree(SetReply(s, t, reply)) <==> FreeReply(s, t, reply)
  {
    var s' := SetReply(s, t, reply);
    if FreeReply(s, t, reply) {
      RepliesSet(s, t, reply);
    } else if reply > 0 {
      var u := s.byReply[reply];
      assert u in s'.tasks && s'.tasks[u].reply == reply && s'.byReply[reply] == t;
    } else {
      assert reply in s'.byReply;
    }
  }

  lemma RepliesSet(s: State, t: int, reply: int)
    requires RepliesAgree(s) && t in s.tasks && FreeReply(s, t, reply)
    ensures RepliesAgree(SetReply(s, t, reply))
  {
  }

  lemma SetReplyKeeps(s: State, t: int, reply: int)
    requires Inv(s) && FreeReply(s, t, reply)
    ensures Inv(SetReply(s, t, reply))
  {
    if t in s.tasks {
      RepliesSet(s, t, reply);
      var s' := SetReply(s, t, reply);
      hide RepliesAgree;
      forall user | user in s'.byUser
        ensures ListOk(s', user)
      {
        assert ListOk(s, user);
      }
      forall u | u in s'.tasks
        ensures Listed(s', u)
      {
        assert Listed(s, u);
      }
    }
  }

  // ---------------------------------------------------------------- removing all tasks of a user

  lemma {:induction false} RemoveListEffect(s: State, ts: seq<int>)
    requires Inv(s)
    ensures var s' := RemoveList(s, ts);
      && Inv(s') && s'.lobby == s.lobby
      && s'.tasks == map t | t in s.tasks && t !in ts :: s.tasks[t]
    decreases |ts|
  {
    hide Inv, Remove;
    if ts != [] {
      var s1 := Remove(s, ts[0]);
      RemoveKeeps(s, ts[0]);
      RemoveTasks(s, ts[0]);
      RemoveListEffect(s1, ts[1..]);
      assert ts == [ts[0]] + ts[1..];
    }
  }

  lemma RemoveTasks(s: State, t: int)
    ensures Remove(s, t).tasks == s.tasks - {t} && Remove(s, t).lobby == s.lobby
  {
  }

  /** Exactly the tasks of that user are gone, and with them the user's list and their awaited replies. */
  lemma RemoveAllByUserExact(s: State, user: int)
    requires Inv(s) && user > 0
    ensures var s' := RemoveAllByUser(s, user);
      && Inv(s') && s'.lobby == s.lobby && user !in s'.byUser
      && s'.tasks == map t | t in s.tasks && s.tasks[t].user != user :: s.tasks[t]
  {
    var s' := RemoveAllByUser(s, user);
    if user in s.byUser {
      RemoveListEffect(s, s.byUser[user]);
      assert ListOk(s, user);
    }
    forall t | t in s.tasks
      ensures (user in s.byUser && t in s.byUser[user]) <==> s.tasks[t].user == user
    {
      assert Listed(s, t);
    }
    hide RemoveAllByUser;
    assert s'.tasks == map t | t in s.tasks && s.tasks[t].user != user :: s.tasks[t];
    NoTasksNoList(s', user);
  }

  lemma NoTasksNoList(s: State, user: int)
    requires UsersAgree(s) && forall t :: t in s.tasks ==> s.tasks[t].user != user
    ensures user !in s.byUser
  {
    forall u | u in s.byUser
      ensures u != user
    {
      assert ListOk(s, u);
      var t := s.byUser[u][0];
      assert t in s.byUser[u] && s.tasks[t].user == u;
    }
  }

  lemma OnlyUsersHaveLists(s: State, user: int)
    requires UsersAgree(s) && user <= 0
    ensures user !in s.byUser
  {
    assert forall u :: u in s.byUser ==> ListOk(s, u);
  }

  lemma LeaveKeeps(s: State, user: int)
    requires Inv(s)
    ensures Inv(Leave(s, user))
    ensures user > 0 ==> user !in Leave(s, user).byUser && forall t :: t in Leave(s, user).tasks ==> Leave(s, user).tasks[t].user != user
  {
    var s1 := s.(lobby := s.lobby - {user});
    LobbyOnly(s, s1);
    if user > 0 {
      var s0 := s.(lobby := s.lobby + {user});
      LobbyOnly(s, s0);
      RemoveAllByUserExact(s, user);
      LobbyIrrelevant(s, user, s1.lobby);
      LobbyOnly(RemoveAllByUser(s, user), Leave(s, user));
    } else {
      OnlyUsersHaveLists(s, user);
    }
  }

  lemma LobbyOnly(s: State, s': State)
    requires UsersAgree(s) && RepliesAgree(s) && s' == s.(lobby := s'.lobby)
    ensures UsersAgree(s') && RepliesAgree(s')
  {
    assert forall user :: user in s.byUser ==> ListOk(s, user) && ListOk(s', user);
    assert forall t :: t in s.tasks ==> Listed(s, t) && Listed(s', t);
  }

  lemma LobbyIrrelevant(s: State, user: int, lobby: set<int>)
    ensures RemoveAllByUser(s.(lobby := lobby), user) == RemoveAllByUser(s, user).(lobby := lobby)
  {
    if user in s.byUser {
      LobbyIrrelevantList(s, s.byUser[user], lobby);
    }
  }

  lemma {:induction false} LobbyIrrelevantList(s: State, ts: seq<int>, lobby: set<int>)
    ensures RemoveList(s.(lobby := lobby), ts) == RemoveList(s, ts).(lobby := lobby)
    decreases |ts|
  {
    if ts != [] {
      LobbyIrrelevantList(Remove(s, ts[0]), ts[1..], lobby);
    }
  }

  // ---------------------------------------------------------------- every run

  lemma StepKeeps(s: State, step: Step)
    requires Inv(s) && Enabled(s, step)
    ensures Inv(Next(s, step))
  {
    hide Remove, Leave, SetReply, UsersAgree, RepliesAgree;
    match step
    case Entering(user) => LobbyOnly(s, Enter(s, user));
    case Leaving(user) => LeaveKeeps(s, user);
    case Starting(user, t) =>
      CreateKeeps(s, t);
      AttachKeeps(Create(s, t), t, user);
    case Awaiting(t, reply) => SetReplyKeeps(s, t, reply);
    case Ending(t) => RemoveKeeps(s, t);
  }

  lemma {:induction false} RunKeeps(s: State, steps: seq<Step>)
    requires Inv(s) && Run(s, steps).Some?
    ensures Inv(Run(s, steps).value)
    decreases |steps|
  {
    hide Inv, Next, Enabled;
    if steps != [] {
      StepKeeps(s, steps[0]);
      RunKeeps(Next(s, steps[0]), steps[1..]);
    }
  }

  lemma ReachableKeeps(s: State)
    requires Reachable(s)
    ensures Inv(s)
  {
    hide Inv, Run;
    EmptyAgrees();
    var steps :| Run(EMPTY, steps) == Some(s);
    RunKeeps(EMPTY, steps);
  }

  lemma EmptyAgrees()
    ensures Inv(EMPTY)
  {
  }

  // ---------------------------------------------------------------- main results

  /** In every reachable state a user's list is exactly that user's live tasks, each once, and there is no
      empty list. */
  lemma UserListsExact(s: State, user: int)
    requires Reachable(s) && user > 0
    ensures Distinct(ListOf(s, user)) && (user in s.byUser ==> s.byUser[user] != [])
    ensures forall t :: t in ListOf(s, user) <==> t in s.tasks && s.tasks[t].user == user
  {
    hide Reachable;
    ReachableKeeps(s);
    assert user in s.byUser ==> ListOk(s, user);
    assert forall t :: t in s.tasks ==> Listed(s, t);
  }

  /** The request index finds the one task that waits for a reply, and no other. */
  lemma ReplyIndexExact(s: State, t: int, reply: int)
    requires Reachable(s) && reply > 0
    ensures (reply in s.byReply && s.byReply[reply] == t) <==> (t in s.tasks && s.tasks[t].reply == reply)
  {
    hide Reachable;
    ReachableKeeps(s);
  }

  /** A task of a user exists only while that user is in the lobby. */
  lemma TasksStayInLobby(s: State, t: int)
    requires Reachable(s) && t in s.tasks && s.tasks[t].user > 0
    ensures s.tasks[t].user in s.lobby
  {
    hide Reachable;
    ReachableKeeps(s);
  }

  // ---------------------------------------------------------------- what each operation does

  /** Tasks other than `t` and lists of users other than `user` are as before. */
  ghost predicate Elsewhere(s: State, s': State, t: int, user: int) {
    && (forall u :: u != t ==> (u in s'.tasks <==> u in s.tasks) && (u in s.tasks ==> s'.tasks[u] == s.tasks[u]))
    && forall v :: v != user ==> ListOf(s', v) == ListOf(s, v)
  }

  /** A task that a user in the lobby starts is that user's, at the end of the list, and is not awaited by
      anybody; it is gone when the user leaves the lobby. */
  lemma StartedBelongsToSender(s: State, user: int, t: int)
    requires Reachable(s) && Enabled(s, Starting(user, t))
    ensures var s' := Next(s, Starting(user, t));
      && t in s'.tasks && s'.tasks[t] == Task(if user > 0 then user else 0, 0)
      && ListOf(s', user) == ListOf(s, user) + (if user > 0 then [t] else [])
      && Elsewhere(s, s', t, user) && s'.byReply == s.byReply && s'.lobby == s.lobby
      && (user > 0 ==> t !in Next(s', Leaving(user)).tasks)
  {
    hide Reachable, Inv, HandleTask, Leave, Elsewhere;
    ReachableKeeps(s);
    Started(s, user, t);
    StepKeeps(s, Starting(user, t));
    Left(Next(s, Starting(user, t)), user);
  }

  lemma Started(s: State, user: int, t: int)
    requires Inv(s) && t !in s.tasks
    ensures var s' := HandleTask(s, user, t);
      && t in s'.tasks && s'.tasks[t] == Task(if user > 0 then user else 0, 0)
      && ListOf(s', user) == ListOf(s, user) + (if user > 0 then [t] else [])
      && Elsewhere(s, s', t, user) && s'.byReply == s.byReply && s'.lobby == s.lobby
  {
    if user in s.byUser {
      assert ListOk(s, user);
    }
    hide Inv, ListOk;
    assert ListOf(s, user) + [] == ListOf(s, user);
  }

  /** Entering lists a user and nothing else; leaving unlists it and ends its tasks and nobody else's. */
  lemma LobbyMoves(s: State, user: int)
    requires Reachable(s)
    ensures Next(s, Entering(user)) == s.(lobby := Next(s, Entering(user)).lobby)
    ensures forall v :: v in Next(s, Entering(user)).lobby <==> v == user || v in s.lobby
    ensures forall v :: v in Next(s, Leaving(user)).lobby <==> v != user && v in s.lobby
    ensures forall t :: t in Next(s, Leaving(user)).tasks <==> t in s.tasks && !(user > 0 && s.tasks[t].user == user)
    ensures forall t :: t in Next(s, Leaving(user)).tasks ==> Next(s, Leaving(user)).tasks[t] == s.tasks[t]
  {
    hide Reachable;
    ReachableKeeps(s);
    Left(s, user);
  }

  lemma Left(s: State, user: int)
    requires Inv(s)
    ensures var s' := Leave(s, user);
      && s'.lobby == s.lobby - {user}
      && s'.tasks == map t | t in s.tasks && !(user > 0 && s.tasks[t].user == user) :: s.tasks[t]
  {
    LobbyIrrelevant(s, user, s.lobby - {user});
    if user > 0 {
      RemoveAllByUserExact(s, user);
    } else {
      OnlyUsersHaveLists(s, user);
    }
  }

  /** A task that awaits a free reply is the one the index finds for it, and for no earlier reply. */
  lemma AwaitedIsFound(s: State, t: int, reply: int)
    requires Reachable(s) && t in s.tasks && FreeReply(s, t, reply)
    ensures var s' := Next(s, Awaiting(t, reply));
      && t in s'.tasks && s'.tasks[t] == s.tasks[t].(reply := reply) && s'.byUser == s.byUser && s'.lobby == s.lobby
      && Elsewhere(s, s', t, 0)
      && (reply > 0 ==> reply in s'.byReply && s'.byReply[reply] == t)
      && forall q :: q != reply ==> (q in s'.byReply <==> q in s.byReply && s.byReply[q] != t)
  {
    hide Reachable;
    ReachableKeeps(s);
  }

  /** Ending a task takes it, and only it, out of the tasks, its user's list and the index. */
  lemma EndedIsGone(s: State, t: int)
    requires Reachable(s) && t in s.tasks
    ensures var s' := Next(s, Ending(t));
      && t !in s'.tasks && Elsewhere(s, s', t, s.tasks[t].user) && s'.lobby == s.lobby
      && (forall u :: u in ListOf(s', s.tasks[t].user) <==> u != t && u in ListOf(s, s.tasks[t].user))
      && forall q :: q in s'.byReply <==> q in s.byReply && s.byReply[q] != t
  {
    hide Reachable;
    ReachableKeeps(s);
    var user := s.tasks[t].user;
    assert Listed(s, t);
    if user in s.byUser {
      assert ListOk(s, user);
      RemovedFromList(s.byUser[user], t);
    } else {
      NobodysList(s);
    }
    hide RemoveAllOf, Distinct;
  }

  lemma NobodysList(s: State)
    requires UsersAgree(s)
    ensures 0 !in s.byUser
  {
    OnlyUsersHaveLists(s, 0);
  }
}
