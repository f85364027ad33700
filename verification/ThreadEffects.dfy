/** What each operation of the thread pool does, for every reachable state. */
module ThreadEffects {
  import opened Basics
  import opened Threads
  import opened ThreadTheorems

  // ---------------------------------------------------------------- which thread is taken

  /** Current, and with a free place. */
  predicate Usable(s: State, t: int) {
    t in s.threads && s.threads[t].md5 == s.md5 && s.threads[t].refs < s.threads[t].capacity
  }

  /** The first usable thread of the walk; when there is none, the next new one. */
  predicate Chosen(s: State, order: seq<int>, t: int) {
    if exists i :: 0 <= i < |order| && Usable(s, order[i])
    then exists i :: 0 <= i < |order| && order[i] == t && Usable(s, t) && forall j :: 0 <= j < i ==> !Usable(s, order[j])
    else t == s.nextThread && t !in s.threads
  }

  lemma {:induction false} AvailableChosen(s: State, order: seq<int>)
    requires Inv(s) && forall i :: 0 <= i < |order| ==> order[i] in s.threads
    ensures var (s', t) := Available(s, order);
      Chosen(s, order, t) && s' == if t in s.threads then s else CreateThread(s)
    decreases |order|
  {
    hide Inv, MarkThread;
    AvailableKeeps(s, order);
    if order == [] {
      NextIsNew(s);
    } else {
      MarkThreadIdle(s, order[0]);
      if Usable(s, order[0]) {
        assert order[0] == Available(s, order).1;
      } else {
        var rest := order[1..];
        AvailableChosen(s, rest);
        var t := Available(s, rest).1;
        assert Available(s, order) == Available(s, rest);
        hide Available, CreateThread;
        ChosenBehind(s, order, t);
      }
    }
  }

  lemma ChosenBehind(s: State, order: seq<int>, t: int)
    requires order != [] && !Usable(s, order[0]) && Chosen(s, order[1..], t)
    ensures Chosen(s, order, t)
  {
    hide Usable;
    var rest := order[1..];
    if i :| 0 <= i < |rest| && Usable(s, rest[i]) {
      assert Usable(s, order[i + 1]);
      var k :| 0 <= k < |rest| && rest[k] == t && Usable(s, t) && forall j :: 0 <= j < k ==> !Usable(s, rest[j]);
      assert order[k + 1] == t && forall j :: 0 <= j < k + 1 ==> !Usable(s, order[j]) by {
        assert forall j :: 1 <= j < k + 1 ==> order[j] == rest[j - 1];
      }
    } else {
      assert forall i :: 1 <= i < |order| ==> order[i] == rest[i - 1];
    }
  }

  /** Threads but `t` are as before, and `t` keeps its capacity; a new one has the configured capacity. */
  ghost predicate OnlyThread(s: State, s': State, t: int) {
    && (forall u :: u != t ==> (u in s'.threads <==> u in s.threads) && (u in s.threads ==> s'.threads[u] == s.threads[u]))
    && (t in s'.threads ==> s'.threads[t].capacity == if t in s.threads then s.threads[t].capacity else s.perThread)
    && s'.md5 == s.md5 && s'.perThread == s.perThread
  }

  // ---------------------------------------------------------------- rooms and tasks

  /** A new room gets the first usable thread of the walk, or a new thread of the configured capacity if there is
      none, with the server's digest. */
  lemma NewRoomEffect(s: State, r: int, order: seq<int>)
    requires Reachable(s) && Enabled(s, NewRoom(r, order))
    ensures var s' := Next(s, NewRoom(r, order));
      && r in s'.rooms && s'.rooms[r].md5 == s.md5 && Chosen(s, order, s'.rooms[r].thread)
      && s'.rooms[r].thread in s'.threads && OnlyThread(s, s', s'.rooms[r].thread)
      && s'.rooms - {r} == s.rooms && s'.tasks == s.tasks && s'.queue == s.queue
  {
    hide Reachable;
    ReachableKeeps(s);
    AvailableChosen(s, order);
    AvailableInv(s, order);
    hide Inv, Chosen, Available;
    var (s1, t) := Available(s, order);
    assert Next(s, NewRoom(r, order)) == SetThread(s1, r, t);
    NextIsNew(s);
  }

  /** A new task is placed in the same way. */
  lemma NewTaskEffect(s: State, k: int, order: seq<int>)
    requires Reachable(s) && Enabled(s, NewTask(k, order))
    ensures var s' := Next(s, NewTask(k, order));
      && k in s'.tasks && Chosen(s, order, s'.tasks[k])
      && s'.tasks[k] in s'.threads && OnlyThread(s, s', s'.tasks[k])
      && s'.tasks - {k} == s.tasks && s'.rooms == s.rooms && s'.queue == s.queue
  {
    hide Reachable;
    ReachableKeeps(s);
    AvailableChosen(s, order);
    AvailableInv(s, order);
    hide Inv, Chosen, Available;
    var (s1, t) := Available(s, order);
    assert Next(s, NewTask(k, order)) == Increase(s1.(tasks := s1.tasks[k := t]), t);
    NextIsNew(s);
  }

  predicate OutdatedForOne(s: State, t: int) {
    t in s.threads && s.threads[t].md5 != s.md5 && Users(s, t) == 1
  }

  /** Ending a room or a task removes it alone.  Its thread stays until its removal runs, which is posted at that
      moment exactly when the thread is outdated and has no other user. */
  lemma EndRoomEffect(s: State, r: int)
    requires Reachable(s) && r in s.rooms
    ensures var s' := Next(s, EndRoom(r));
      var t := s.rooms[r].thread;
      && s'.rooms == s.rooms - {r} && s'.tasks == s.tasks && s'.threads.Keys == s.threads.Keys && OnlyThread(s, s', t)
      && s'.queue == s.queue + (if OutdatedForOne(s, t) then [t] else [])
  {
    hide Reachable;
    ReachableKeeps(s);
    assert RoomOk(s, r) && ThreadOk(s, s.rooms[r].thread);
    assert r in RoomsOf(s, s.rooms[r].thread);
    UsedNotQueued(s, s.rooms[r].thread);
    hide Users, Lists, Erase;
  }

  lemma EndTaskEffect(s: State, k: int)
    requires Reachable(s) && k in s.tasks && s.tasks[k] in s.threads
    ensures var s' := Next(s, EndTask(k));
      var t := s.tasks[k];
      && s'.tasks == s.tasks - {k} && s'.rooms == s.rooms && s'.threads.Keys == s.threads.Keys && OnlyThread(s, s', t)
      && s'.queue == s.queue + (if OutdatedForOne(s, t) then [t] else [])
  {
    hide Reachable;
    ReachableKeeps(s);
    assert ThreadOk(s, s.tasks[k]) && k in TasksOf(s, s.tasks[k]);
    UsedNotQueued(s, s.tasks[k]);
    hide Users, Lists;
  }

  // ---------------------------------------------------------------- digests and removals

  /** After a refresh a room is current exactly when it was before and the digest is the same; no room and no task
      goes, and a thread goes exactly when it is outdated by now and nobody uses it. */
  lemma RefreshEffect(s: State, digest: string)
    requires Reachable(s) && digest != ""
    ensures var s' := Next(s, Refresh(digest));
      && s'.md5 == digest && s'.tasks == s.tasks && s'.rooms.Keys == s.rooms.Keys && s'.perThread == s.perThread
      && (forall r :: r in s.rooms ==> s'.rooms[r].thread == s.rooms[r].thread)
      && (forall r :: r in s.rooms ==> (s'.rooms[r].md5 == digest <==> digest == s.md5 && s.rooms[r].md5 == s.md5))
      && (forall t :: t in s'.threads <==> t in s.threads && !(Users(s, t) == 0 && (digest != s.md5 || s.threads[t].md5 != s.md5)))
      && (forall t :: t in s'.threads ==> s'.threads[t].capacity == s.threads[t].capacity)
      && (forall t :: t in s'.threads ==> (s'.threads[t].md5 == digest <==> digest == s.md5 && s.threads[t].md5 == s.md5))
  {
    hide Reachable;
    ReachableKeeps(s);
    forall t | t in s.threads
      ensures s.threads[t].refs == Users(s, t) && (s.threads[t].md5 == "" || s.threads[t].md5 == s.md5)
    {
      assert ThreadOk(s, t);
    }
    forall r | r in s.rooms
      ensures s.rooms[r].md5 == "" || s.rooms[r].md5 == s.md5
    {
      assert RoomOk(s, r) && ThreadOk(s, s.rooms[r].thread);
    }
    hide Inv, Users;
  }

  /** A posted removal takes the thread it was posted for, and nothing else; the configuration and the questions
      change no room, no task and no thread, and the statistics what a refresh with the same digest does. */
  lemma OtherEffects(s: State, n: int)
    requires Reachable(s)
    ensures var s' := Next(s, Removal);
      && s'.rooms == s.rooms && s'.tasks == s.tasks && s'.md5 == s.md5 && s'.perThread == s.perThread
      && (if s.queue == [] then s' == s else s'.threads == s.threads - {s.queue[0]} && [s.queue[0]] + s'.queue == s.queue)
    ensures Next(s, Reload(n)).perThread == n && Next(s, Reload(n)) == s.(perThread := Next(s, Reload(n)).perThread)
    ensures Enabled(s, Refresh(s.md5)) && Next(s, Stat) == Next(s, Refresh(s.md5))
    ensures forall r :: r in s.rooms ==> Next(s, AskRoom(r)) == s
    ensures forall t :: t in s.threads ==> Next(s, AskThread(t)) == s
  {
    hide Reachable;
    ReachableKeeps(s);
    SweepRoomsIdle(s);
    forall r | r in s.rooms
      ensures MarkRoom(s, r) == s
    {
      MarkRoomIdle(s, r);
    }
    forall t | t in s.threads
      ensures MarkThread(s, t) == s
    {
      MarkThreadIdle(s, t);
    }
  }

  // ---------------------------------------------------------------- capacities

  /** The step that creates thread `t`: it is the next one, and `capacity` is configured. */
  predicate Creates(s: State, step: Step, t: int, capacity: int)
    requires Enabled(s, step)
  {
    t == s.nextThread && t !in s.threads && t in Next(s, step).threads && capacity == s.perThread
  }

  predicate CreatedDuring(s: State, steps: seq<Step>, t: int, capacity: int)
    decreases |steps|
  {
    steps != [] && Enabled(s, steps[0])
    && (Creates(s, steps[0], t, capacity) || CreatedDuring(Next(s, steps[0]), steps[1..], t, capacity))
  }

  lemma StepCapacity(s: State, step: Step, t: int)
    requires Inv(s) && Enabled(s, step) && t in Next(s, step).threads
    ensures if t in s.threads then Next(s, step).threads[t].capacity == s.threads[t].capacity
            else Creates(s, step, t, Next(s, step).threads[t].capacity)
  {
    hide ThreadOk, RoomOk, QueuedOk;
    match step
    case NewRoom(_, order) => AvailableKeeps(s, order);
    case NewTask(_, order) => AvailableKeeps(s, order);
    case _ =>
  }

  lemma {:induction false} RunCapacity(s: State, steps: seq<Step>, t: int)
    requires Inv(s) && Run(s, steps).Some? && t in Run(s, steps).value.threads
    ensures var capacity := Run(s, steps).value.threads[t].capacity;
      (t in s.threads && capacity == s.threads[t].capacity) || CreatedDuring(s, steps, t, capacity)
    decreases |steps|
  {
    hide Inv, Next, Enabled, Creates;
    if steps != [] {
      var s' := Next(s, steps[0]);
      StepKeeps(s, steps[0]);
      RunCapacity(s', steps[1..], t);
      if t in s'.threads {
        StepCapacity(s, steps[0], t);
      }
    }
  }

  /** In every run the capacity of a thread is the one that was configured when it was created, whatever was
      configured afterwards. */
  lemma CapacityAsConfigured(digest: string, perThread: int, steps: seq<Step>, t: int)
    requires digest != "" && Run(Initial(digest, perThread), steps).Some?
    requires t in Run(Initial(digest, perThread), steps).value.threads
    ensures CreatedDuring(Initial(digest, perThread), steps, t, Run(Initial(digest, perThread), steps).value.threads[t].capacity)
  {
    assert Inv(Initial(digest, perThread));
    hide Inv, Run;
    RunCapacity(Initial(digest, perThread), steps, t);
  }
}
