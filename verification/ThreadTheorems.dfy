/** What every run of the thread pool keeps. */
module ThreadTheorems {
  import opened Basics
  import opened Threads

  // ---------------------------------------------------------------- the invariant

  function RoomsOf(s: State, t: int): set<int> {
    set r | r in s.rooms && s.rooms[r].thread == t
  }

  function TasksOf(s: State, t: int): set<int> {
    set k | k in s.tasks && s.tasks[k] == t
  }

  function Users(s: State, t: int): nat {
    |RoomsOf(s, t)| + |TasksOf(s, t)|
  }

  function AtLeastOne(capacity: int): int {
    if capacity < 1 then 1 else capacity
  }

  /** The list of a thread's rooms is exactly the rooms that name it, each once. */
  predicate Lists(xs: seq<int>, rooms: set<int>) {
    Distinct(xs) && (forall r :: r in xs ==> r in rooms) && forall r :: r in rooms ==> r in xs
  }

  predicate Current(s: State, md5: string) {
    md5 == "" || md5 == s.md5
  }

  predicate ThreadOk(s: State, t: int)
    requires t in s.threads
  {
    var th := s.threads[t];
    && t < s.nextThread && Current(s, th.md5)
    && th.refs == Users(s, t) && th.refs <= AtLeastOne(th.capacity)
    && Lists(th.rooms, RoomsOf(s, t))
    && (th.md5 == "" && th.refs == 0 ==> t in s.queue)
  }

  predicate RoomOk(s: State, r: int)
    requires r in s.rooms
  {
    s.rooms[r].thread in s.threads && s.rooms[r].md5 == s.threads[s.rooms[r].thread].md5
  }

  /** A posted removal concerns a thread that is outdated and unused, or gone. */
  predicate QueuedOk(s: State, t: int) {
    t < s.nextThread && (t in s.threads ==> s.threads[t].md5 == "" && s.threads[t].refs == 0)
  }

  predicate Inv(s: State) {
    && s.md5 != ""
    && (forall t :: t in s.threads ==> ThreadOk(s, t))
    && (forall r :: r in s.rooms ==> RoomOk(s, r))
    && (forall k :: k in s.tasks ==> s.tasks[k] in s.threads)
    && (forall t :: t in s.queue ==> QueuedOk(s, t))
  }

  // ---------------------------------------------------------------- marks change nothing between steps

  lemma MarkThreadIdle(s: State, t: int)
    requires Inv(s) && t in s.threads
    ensures MarkThread(s, t) == s
  {
    assert ThreadOk(s, t);
    assert s.threads[t := s.threads[t]] == s.threads;
  }

  lemma MarkRoomIdle(s: State, r: int)
    requires Inv(s) && r in s.rooms
    ensures MarkRoom(s, r) == s
  {
    assert RoomOk(s, r) && ThreadOk(s, s.rooms[r].thread);
    assert s.rooms[r := s.rooms[r]] == s.rooms;
  }

  // ---------------------------------------------------------------- taking a thread

  /** The thread that is found is current and has room for one more user; at most it is new. */
  lemma {:induction false} AvailableKeeps(s: State, order: seq<int>)
    requires Inv(s) && forall i :: 0 <= i < |order| ==> order[i] in s.threads
    ensures var (s', t) := Available(s, order);
      && s'.threads[t].md5 == s.md5 && s'.threads[t].refs + 1 <= AtLeastOne(s'.threads[t].capacity)
      && (if t in s.threads then s' == s else s' == CreateThread(s) && t == s.nextThread)
    decreases |order|
  {
    hide Users, Lists, MarkThread;
    if order != [] {
      var t := order[0];
      MarkThreadIdle(s, t);
      assert ThreadOk(s, t);
      if s.threads[t].md5 != s.md5 || Full(s.threads[t]) {
        AvailableKeeps(s, order[1..]);
      }
    } else {
      NextIsNew(s);
    }
  }

  lemma NextIsNew(s: State)
    requires Inv(s)
    ensures s.nextThread !in s.threads
  {
    assert forall t :: t in s.threads ==> ThreadOk(s, t);
  }

  lemma CreateThreadUsers(s: State)
    requires Inv(s)
    ensures s.nextThread !in s.threads && RoomsOf(s, s.nextThread) == {} && TasksOf(s, s.nextThread) == {}
  {
    hide Users, Lists;
    NextIsNew(s);
    assert forall k :: k in s.tasks ==> s.tasks[k] != s.nextThread;
    forall r | r in s.rooms
      ensures s.rooms[r].thread != s.nextThread
    {
      assert RoomOk(s, r);
    }
  }

  /** All of the invariant but what concerns thread `t`. */
  predicate Elsewhere(s: State, t: int) {
    && s.md5 != ""
    && (forall u :: u in s.threads && u != t ==> ThreadOk(s, u))
    && (forall r :: r in s.rooms ==> RoomOk(s, r))
    && (forall k :: k in s.tasks ==> s.tasks[k] in s.threads)
    && (forall u :: u in s.queue ==> u < s.nextThread && (u != t ==> QueuedOk(s, u)))
  }

  lemma OtherThread(s: State, s': State, u: int)
    requires u in s.threads && ThreadOk(s, u) && u in s'.threads && s'.threads[u] == s.threads[u]
    requires s'.md5 == s.md5 && s.nextThread <= s'.nextThread && (u in s.queue ==> u in s'.queue)
    requires RoomsOf(s', u) == RoomsOf(s, u) && TasksOf(s', u) == TasksOf(s, u)
    ensures ThreadOk(s', u)
  {
    hide Lists;
  }

  /** Only thread `t` and its users differ. */
  ghost predicate OnlyAt(s: State, s': State, t: int) {
    && s'.threads.Keys == s.threads.Keys
    && (forall u :: u in s.threads && u != t ==> s'.threads[u] == s.threads[u])
    && (forall u :: u != t ==> RoomsOf(s', u) == RoomsOf(s, u) && TasksOf(s', u) == TasksOf(s, u))
    && s'.md5 == s.md5 && s'.nextThread == s.nextThread && s'.queue == s.queue
  }

  lemma FrameElsewhere(s: State, s': State, t: int)
    requires Inv(s) && OnlyAt(s, s', t) && t in s.threads && s'.threads[t].md5 == s.threads[t].md5
    requires forall r :: r in s'.rooms ==> (r in s.rooms && s'.rooms[r] == s.rooms[r]) || RoomOk(s', r)
    requires forall k :: k in s'.tasks ==> s'.tasks[k] in s'.threads
    ensures Elsewhere(s', t)
  {
    hide Lists, Users, RoomsOf, TasksOf;
    forall u | u in s'.threads && u != t
      ensures ThreadOk(s', u)
    {
      assert ThreadOk(s, u);
      OtherThread(s, s', u);
    }
    hide ThreadOk;
    forall r | r in s'.rooms
      ensures RoomOk(s', r)
    {
      if r in s.rooms && s'.rooms[r] == s.rooms[r] {
        assert RoomOk(s, r);
      }
    }
    forall u | u in s'.queue
      ensures u < s'.nextThread && (u != t ==> QueuedOk(s', u))
    {
      assert QueuedOk(s, u);
    }
  }

  lemma Together(s: State, t: int)
    requires Elsewhere(s, t) && t in s.threads && ThreadOk(s, t) && t !in s.queue
    ensures Inv(s)
  {
    hide ThreadOk, RoomOk, QueuedOk;
  }

  /** A current thread is not posted for removal. */
  lemma CurrentNotQueued(s: State, t: int)
    requires Inv(s) && t in s.threads && s.threads[t].md5 == s.md5
    ensures t !in s.queue
  {
    hide ThreadOk, RoomOk;
    assert t in s.queue ==> QueuedOk(s, t);
  }

  /** Who uses which thread, after a room came or went. */
  lemma RoomUsers(s: State, s': State, r: int, t: int)
    requires s'.tasks == s.tasks
    requires forall x :: x != r ==> (x in s'.rooms <==> x in s.rooms) && (x in s.rooms ==> s'.rooms[x].thread == s.rooms[x].thread)
    requires r in s.rooms ==> s.rooms[r].thread == t
    requires r in s'.rooms ==> s'.rooms[r].thread == t
    ensures forall u :: TasksOf(s', u) == TasksOf(s, u)
    ensures forall u :: u != t ==> RoomsOf(s', u) == RoomsOf(s, u)
    ensures RoomsOf(s', t) == if r in s'.rooms then RoomsOf(s, t) + {r} else RoomsOf(s, t) - {r}
  {
    forall u, x | x != r
      ensures x in RoomsOf(s', u) <==> x in RoomsOf(s, u)
    {
    }
    forall u | u != t
      ensures RoomsOf(s', u) == RoomsOf(s, u)
    {
      assert r !in RoomsOf(s, u) && r !in RoomsOf(s', u);
    }
  }

  lemma RoomAdded(s: State, r: int, t: int)
    requires t in s.threads && ThreadOk(s, t) && r !in s.rooms
    requires s.threads[t].md5 == s.md5 != "" && s.threads[t].refs + 1 <= AtLeastOne(s.threads[t].capacity)
    ensures ThreadOk(SetThread(s, r, t), t) && OnlyAt(s, SetThread(s, r, t), t)
  {
    var s' := SetThread(s, r, t);
    RoomUsers(s, s', r, t);
    assert r !in RoomsOf(s, t);
    ListsSnoc(s.threads[t].rooms, RoomsOf(s, t), r);
    hide Lists, RoomsOf, TasksOf;
    assert s'.threads[t].rooms == s.threads[t].rooms + [r];
  }

  lemma ListsSnoc(xs: seq<int>, rooms: set<int>, r: int)
    requires Lists(xs, rooms) && r !in rooms
    ensures Lists(xs + [r], rooms + {r})
  {
    assert r !in xs;
  }

  lemma TakenForRoom(s: State, r: int, t: int)
    requires Inv(s) && t in s.threads && r !in s.rooms
    requires s.threads[t].md5 == s.md5 && s.threads[t].refs + 1 <= AtLeastOne(s.threads[t].capacity)
    ensures Inv(SetThread(s, r, t))
  {
    var s' := SetThread(s, r, t);
    RoomAdded(s, r, t);
    CurrentNotQueued(s, t);
    hide Inv, ThreadOk, OnlyAt;
    InvParts(s);
    assert s'.rooms[r] == Room(t, s'.threads[t].md5);
    FrameElsewhere(s, s', t);
    Together(s', t);
  }

  lemma InvParts(s: State)
    requires Inv(s)
    ensures forall t :: t in s.threads ==> ThreadOk(s, t)
    ensures forall k :: k in s.tasks ==> s.tasks[k] in s.threads
  {
  }

  lemma TaskAdded(s: State, k: int, t: int)
    requires t in s.threads && ThreadOk(s, t) && k !in s.tasks
    requires s.threads[t].md5 == s.md5 != "" && s.threads[t].refs + 1 <= AtLeastOne(s.threads[t].capacity)
    ensures var s' := Increase(s.(tasks := s.tasks[k := t]), t); ThreadOk(s', t) && OnlyAt(s, s', t)
  {
    var s' := Increase(s.(tasks := s.tasks[k := t]), t);
    assert RoomsOf(s', t) == RoomsOf(s, t) && TasksOf(s', t) == TasksOf(s, t) + {k};
    hide Lists;
    assert forall u :: u != t ==> RoomsOf(s', u) == RoomsOf(s, u) && TasksOf(s', u) == TasksOf(s, u);
  }

  lemma TakenForTask(s: State, k: int, t: int)
    requires Inv(s) && t in s.threads && k !in s.tasks
    requires s.threads[t].md5 == s.md5 && s.threads[t].refs + 1 <= AtLeastOne(s.threads[t].capacity)
    ensures Inv(Increase(s.(tasks := s.tasks[k := t]), t))
  {
    var s' := Increase(s.(tasks := s.tasks[k := t]), t);
    TaskAdded(s, k, t);
    CurrentNotQueued(s, t);
    hide Inv, ThreadOk, OnlyAt;
    InvParts(s);
    FrameElsewhere(s, s', t);
    Together(s', t);
  }

  /** A new thread does not satisfy the invariant's last clause only when it is outdated: it is not. */
  lemma NewThreadKeeps(s: State)
    requires Inv(s)
    ensures Inv(CreateThread(s))
  {
    var s' := CreateThread(s);
    CreateThreadUsers(s);
    assert RoomsOf(s', s.nextThread) == RoomsOf(s, s.nextThread) && TasksOf(s', s.nextThread) == TasksOf(s, s.nextThread);
    assert ThreadOk(s', s.nextThread);
    hide Lists, Users;
    forall u | u in s'.threads && u != s.nextThread
      ensures ThreadOk(s', u)
    {
      assert ThreadOk(s, u);
      assert RoomsOf(s', u) == RoomsOf(s, u) && TasksOf(s', u) == TasksOf(s, u);
      OtherThread(s, s', u);
    }
    hide ThreadOk;
    forall x | x in s'.rooms
      ensures RoomOk(s', x)
    {
      assert RoomOk(s, x);
    }
    forall u | u in s'.queue
      ensures QueuedOk(s', u)
    {
      assert QueuedOk(s, u);
    }
  }

  lemma AvailableInv(s: State, order: seq<int>)
    requires Inv(s) && forall i :: 0 <= i < |order| ==> order[i] in s.threads
    ensures var (s', t) := Available(s, order);
      && Inv(s') && s'.rooms == s.rooms && s'.tasks == s.tasks && s'.md5 == s.md5
      && s'.threads[t].md5 == s'.md5 && s'.threads[t].refs + 1 <= AtLeastOne(s'.threads[t].capacity)
  {
    hide Inv, Available, AtLeastOne;
    AvailableKeeps(s, order);
    NewThreadKeeps(s);
  }

  // ---------------------------------------------------------------- leaving a thread

  /** One user of thread `t` is gone, but the thread still counts it. */
  predicate OneTooMany(s: State, t: int) {
    && t in s.threads && Elsewhere(s, t) && t < s.nextThread && Current(s, s.threads[t].md5)
    && s.threads[t].refs == Users(s, t) + 1 && s.threads[t].refs <= AtLeastOne(s.threads[t].capacity)
    && Lists(s.threads[t].rooms, RoomsOf(s, t))
    && t !in s.queue
  }

  lemma DecreaseKeeps(s: State, t: int)
    requires OneTooMany(s, t)
    ensures Inv(Decrease(s, t))
  {
    var s' := Decrease(s, t);
    assert s'.threads.Keys == s.threads.Keys;
    assert forall u :: RoomsOf(s', u) == RoomsOf(s, u) && TasksOf(s', u) == TasksOf(s, u);
    assert forall u :: u in s'.queue <==> u in s.queue || (u == t && t in s'.queue);
    assert ThreadOk(s', t);
    hide Lists, Users;
    forall u | u in s'.threads && u != t
      ensures ThreadOk(s', u)
    {
      assert ThreadOk(s, u);
      OtherThread(s, s', u);
    }
    hide ThreadOk;
    forall x | x in s'.rooms
      ensures RoomOk(s', x)
    {
      assert RoomOk(s, x);
    }
    forall u | u in s'.queue
      ensures QueuedOk(s', u)
    {
      if u != t {
        assert QueuedOk(s, u);
      }
    }
  }

  /** The thread of a room or a task counts it, so no removal of that thread is posted. */
  lemma UsedNotQueued(s: State, t: int)
    requires Inv(s) && t in s.threads && (RoomsOf(s, t) != {} || TasksOf(s, t) != {})
    ensures s.threads[t].refs >= 1 && t !in s.queue
  {
    assert ThreadOk(s, t);
    assert t in s.queue ==> QueuedOk(s, t);
  }

  lemma DestroyRoomKeeps(s: State, r: int)
    requires Inv(s)
    ensures Inv(DestroyRoom(s, r))
  {
    if r in s.rooms {
      assert RoomOk(s, r);
      var t := s.rooms[r].thread;
      assert r in RoomsOf(s, t);
      UsedNotQueued(s, t);
      var s1 := s.(rooms := s.rooms - {r});
      var s2 := s1.(threads := s1.threads[t := s1.threads[t].(rooms := Erase(s1.threads[t].rooms, r))]);
      assert DestroyRoom(s, r) == Decrease(s2, t);
      RoomGone(s, r, s2);
      hide Decrease, Inv, OneTooMany;
      DecreaseKeeps(s2, t);
    }
  }

  lemma RoomErased(s: State, r: int, s': State)
    requires r in s.rooms && s.rooms[r].thread in s.threads && ThreadOk(s, s.rooms[r].thread)
    requires var t := s.rooms[r].thread;
      s' == s.(rooms := s.rooms - {r}, threads := s.threads[t := s.threads[t].(rooms := Erase(s.threads[t].rooms, r))])
    ensures var t := s.rooms[r].thread;
      && OnlyAt(s, s', t) && s'.threads[t].refs == Users(s', t) + 1 && Lists(s'.threads[t].rooms, RoomsOf(s', t))
  {
    var t := s.rooms[r].thread;
    RoomUsers(s, s', r, t);
    assert r in RoomsOf(s, t);
    ErasedLists(s.threads[t].rooms, RoomsOf(s, t), r);
    hide Erase, Lists, RoomsOf, TasksOf;
  }

  lemma ErasedLists(xs: seq<int>, rooms: set<int>, r: int)
    requires Lists(xs, rooms)
    ensures Lists(Erase(xs, r), rooms - {r})
  {
    EraseMembers(xs, r);
    hide Erase;
  }

  lemma RoomGone(s: State, r: int, s': State)
    requires Inv(s) && r in s.rooms && s.rooms[r].thread in s.threads && s.rooms[r].thread !in s.queue
    requires var t := s.rooms[r].thread;
      s' == s.(rooms := s.rooms - {r}, threads := s.threads[t := s.threads[t].(rooms := Erase(s.threads[t].rooms, r))])
    ensures OneTooMany(s', s.rooms[r].thread)
  {
    var t := s.rooms[r].thread;
    InvParts(s);
    RoomErased(s, r, s');
    hide Lists, Users, Erase, OnlyAt, Inv;
    assert ThreadOk(s, t);
    FrameElsewhere(s, s', t);
  }

  lemma TaskErased(s: State, k: int)
    requires k in s.tasks && s.tasks[k] in s.threads && ThreadOk(s, s.tasks[k])
    ensures var (s', t) := (s.(tasks := s.tasks - {k}), s.tasks[k]);
      && OnlyAt(s, s', t) && s'.threads[t].refs == Users(s', t) + 1 && Lists(s'.threads[t].rooms, RoomsOf(s', t))
  {
    var t, s' := s.tasks[k], s.(tasks := s.tasks - {k});
    assert RoomsOf(s', t) == RoomsOf(s, t) && TasksOf(s', t) == TasksOf(s, t) - {k};
    assert k in TasksOf(s, t);
    hide Lists;
    assert forall u :: u != t ==> RoomsOf(s', u) == RoomsOf(s, u) && TasksOf(s', u) == TasksOf(s, u);
  }

  lemma DestroyTaskKeeps(s: State, k: int)
    requires Inv(s)
    ensures Inv(DestroyTask(s, k))
  {
    if k in s.tasks {
      var t := s.tasks[k];
      assert k in TasksOf(s, t);
      UsedNotQueued(s, t);
      InvParts(s);
      TaskErased(s, k);
      hide Lists, Users, Decrease, OnlyAt, Inv;
      assert ThreadOk(s, t);
      var s' := s.(tasks := s.tasks - {k});
      FrameElsewhere(s, s', t);
      DecreaseKeeps(s', t);
    }
  }

  // ---------------------------------------------------------------- removals and sweeps

  /** Removing threads nobody uses, with the marks of the rest already right. */
  lemma RemovedKeeps(s: State, s': State)
    requires Inv(s) && s' == s.(threads := s'.threads, queue := s'.queue)
    requires forall t :: t in s'.threads ==> t in s.threads && s'.threads[t] == s.threads[t]
    requires forall t :: t in s.threads && t !in s'.threads ==> s.threads[t].refs == 0
    requires forall t :: t in s'.queue ==> t in s.queue
    requires forall t :: t in s.queue && t in s'.threads ==> t in s'.queue
    ensures Inv(s')
  {
    forall r | r in s'.rooms
      ensures RoomOk(s', r)
    {
      assert RoomOk(s, r);
      assert r in RoomsOf(s, s.rooms[r].thread);
      UsedNotQueued(s, s.rooms[r].thread);
    }
    forall k | k in s'.tasks
      ensures s'.tasks[k] in s'.threads
    {
      assert k in TasksOf(s, s.tasks[k]);
      UsedNotQueued(s, s.tasks[k]);
    }
    hide Lists, Users;
    forall t | t in s'.threads
      ensures ThreadOk(s', t)
    {
      assert ThreadOk(s, t);
      assert RoomsOf(s', t) == RoomsOf(s, t) && TasksOf(s', t) == TasksOf(s, t);
      OtherThread(s, s', t);
    }
    hide ThreadOk;
    forall t | t in s'.queue
      ensures QueuedOk(s', t)
    {
      assert QueuedOk(s, t);
    }
  }

  lemma RunRemovalKeeps(s: State)
    requires Inv(s)
    ensures Inv(RunRemoval(s))
  {
    if s.queue != [] {
      var s' := RunRemoval(s);
      assert s.queue == [s.queue[0]] + s.queue[1..];
      assert QueuedOk(s, s.queue[0]);
      hide Inv;
      RemovedKeeps(s, s');
    }
  }

  lemma SweepThreadsKeeps(s: State)
    requires Inv(s)
    ensures Inv(SweepThreads(s))
  {
    var s' := SweepThreads(s);
    forall t | t in s'.threads
      ensures s'.threads[t] == s.threads[t]
    {
      assert ThreadOk(s, t);
    }
    hide Inv;
    RemovedKeeps(s, s');
  }

  /** The same digest again: the sweep over the rooms finds nothing. */
  lemma SweepRoomsIdle(s: State)
    requires Inv(s)
    ensures SweepRooms(s) == s
  {
    forall r | r in s.rooms
      ensures Refreshed(s.rooms[r].md5, s.md5) == s.rooms[r].md5
    {
      assert RoomOk(s, r) && ThreadOk(s, s.rooms[r].thread);
    }
    assert SweepRooms(s).rooms == s.rooms;
  }

  /** Another digest: every room and every thread that stays becomes outdated at once. */
  lemma RefreshChanges(s: State, digest: string)
    requires Inv(s) && digest != "" && digest != s.md5
    ensures Inv(RefreshMd5(s, digest))
  {
    var s' := RefreshMd5(s, digest);
    RefreshShape(s, digest);
    hide RefreshMd5;
    RefreshUsers(s, s');
    hide RoomOk;
    forall t | t in s'.threads
      ensures ThreadOk(s', t)
    {
      assert ThreadOk(s, t);
      assert RoomsOf(s', t) == RoomsOf(s, t) && TasksOf(s', t) == TasksOf(s, t);
    }
    hide ThreadOk;
    forall t | t in s'.queue
      ensures QueuedOk(s', t)
    {
      assert QueuedOk(s, t);
    }
  }

  lemma RefreshUsers(s: State, s': State)
    requires Inv(s) && s'.tasks == s.tasks
    requires forall t :: t in s'.threads <==> t in s.threads && s.threads[t].refs != 0
    requires forall t :: t in s'.threads ==> s'.threads[t].md5 == ""
    requires s'.rooms.Keys == s.rooms.Keys && forall r :: r in s.rooms ==> s'.rooms[r] == s.rooms[r].(md5 := "")
    ensures forall r :: r in s'.rooms ==> RoomOk(s', r)
    ensures forall k :: k in s'.tasks ==> s'.tasks[k] in s'.threads
  {
    hide ThreadOk, Users;
    forall r | r in s'.rooms
      ensures RoomOk(s', r)
    {
      assert RoomOk(s, r);
      assert r in RoomsOf(s, s.rooms[r].thread);
      UsedNotQueued(s, s.rooms[r].thread);
    }
    forall k | k in s'.tasks
      ensures s'.tasks[k] in s'.threads
    {
      assert k in TasksOf(s, s.tasks[k]);
      UsedNotQueued(s, s.tasks[k]);
    }
  }

  lemma RefreshShape(s: State, digest: string)
    requires Inv(s) && digest != "" && digest != s.md5
    ensures var s' := RefreshMd5(s, digest);
      && s'.md5 == digest && s'.tasks == s.tasks && s'.queue == s.queue && s'.nextThread == s.nextThread
      && (forall t :: t in s'.threads <==> t in s.threads && s.threads[t].refs != 0)
      && (forall t :: t in s'.threads ==> s'.threads[t] == s.threads[t].(md5 := ""))
      && s'.rooms.Keys == s.rooms.Keys && (forall r :: r in s.rooms ==> s'.rooms[r] == s.rooms[r].(md5 := ""))
  {
    hide Users, Lists;
    forall t | t in s.threads
      ensures s.threads[t].md5 != digest
    {
      assert ThreadOk(s, t);
    }
    forall r | r in s.rooms
      ensures s.rooms[r].md5 != digest
    {
      assert RoomOk(s, r);
    }
  }

  lemma RefreshKeeps(s: State, digest: string)
    requires Inv(s) && digest != ""
    ensures Inv(RefreshMd5(s, digest))
  {
    hide Inv, SweepThreads, SweepRooms;
    if digest == s.md5 {
      SweepRoomsIdle(s);
      SweepThreadsKeeps(s);
    } else {
      RefreshChanges(s, digest);
    }
  }

  // ---------------------------------------------------------------- every run

  lemma StepKeeps(s: State, step: Step)
    requires Inv(s) && Enabled(s, step)
    ensures Inv(Next(s, step))
  {
    hide Inv, Available, SetThread, Increase, DestroyRoom, DestroyTask, RunRemoval, RefreshMd5, SweepThreads, MarkRoom, MarkThread;
    match step
    case NewRoom(r, order) =>
      AvailableInv(s, order);
      var (s1, t) := Available(s, order);
      TakenForRoom(s1, r, t);
    case NewTask(k, order) =>
      AvailableInv(s, order);
      var (s1, t) := Available(s, order);
      TakenForTask(s1, k, t);
    case EndRoom(r) => DestroyRoomKeeps(s, r);
    case EndTask(k) => DestroyTaskKeeps(s, k);
    case Removal => RunRemovalKeeps(s);
    case Refresh(digest) => RefreshKeeps(s, digest);
    case Reload(n) => ReloadKeeps(s, n);
    case Stat => SweepThreadsKeeps(s);
    case AskRoom(r) => MarkRoomIdle(s, r);
    case AskThread(t) => MarkThreadIdle(s, t);
  }

  lemma ReloadKeeps(s: State, n: int)
    requires Inv(s)
    ensures Inv(s.(perThread := n))
  {
    var s' := s.(perThread := n);
    hide Lists, Users;
    forall t | t in s'.threads
      ensures ThreadOk(s', t)
    {
      assert ThreadOk(s, t);
      assert RoomsOf(s', t) == RoomsOf(s, t) && TasksOf(s', t) == TasksOf(s, t);
      OtherThread(s, s', t);
    }
    hide ThreadOk;
    forall r | r in s'.rooms
      ensures RoomOk(s', r)
    {
      assert RoomOk(s, r);
    }
    forall t | t in s'.queue
      ensures QueuedOk(s', t)
    {
      assert QueuedOk(s, t);
    }
  }

  lemma {:induction false} RunKeeps(s: State, steps: seq<Step>)
    requires Inv(s) && Run(s, steps).Some?
    ensures Inv(Run(s, steps).value)
    decreases |steps|
  {
    hide Inv, Next, Enabled;
    if steps != [] {
      StepKeeps(s, steps[0]);
      RunKeeps(Next(s, steps[0]), steps[1..]);
    }
  }

  ghost predicate Reachable(s: State) {
    exists digest, perThread, steps :: digest != "" && Run(Initial(digest, perThread), steps) == Some(s)
  }

  lemma ReachableKeeps(s: State)
    requires Reachable(s)
    ensures Inv(s)
  {
    var digest, perThread, steps :| digest != "" && Run(Initial(digest, perThread), steps) == Some(s);
    assert Inv(Initial(digest, perThread));
    hide Inv, Run;
    RunKeeps(Initial(digest, perThread), steps);
  }

  // ---------------------------------------------------------------- main results

  /** A thread counts exactly the live rooms and tasks that use it, and never more than its capacity, or
      one when the capacity is below that. */
  lemma CountsAreExact(s: State, t: int)
    requires Reachable(s) && t in s.threads
    ensures s.threads[t].refs == |RoomsOf(s, t)| + |TasksOf(s, t)|
    ensures s.threads[t].refs <= AtLeastOne(s.threads[t].capacity)
    ensures Distinct(s.threads[t].rooms) && forall r :: r in s.threads[t].rooms <==> r in s.rooms && s.rooms[r].thread == t
  {
    hide Reachable;
    ReachableKeeps(s);
    assert ThreadOk(s, t);
  }

  /** Between steps every digest is the server's or empty, and a room is outdated iff its thread is, which
      is there. */
  lemma OutdatedTogether(s: State, r: int)
    requires Reachable(s) && r in s.rooms
    ensures s.rooms[r].thread in s.threads
    ensures var th := s.threads[s.rooms[r].thread];
      && (s.rooms[r].md5 == "" || s.rooms[r].md5 == s.md5) && (th.md5 == "" || th.md5 == s.md5)
      && (s.rooms[r].md5 != s.md5 <==> th.md5 != s.md5)
  {
    hide Reachable;
    ReachableKeeps(s);
    assert RoomOk(s, r) && ThreadOk(s, s.rooms[r].thread);
  }

  /** A posted removal never takes a thread away from a live room or task, and every outdated thread
      without users has its removal posted: none is left behind. */
  lemma RemovalIsSafe(s: State, t: int)
    requires Reachable(s)
    ensures t in s.queue ==> (forall r :: r in s.rooms ==> s.rooms[r].thread != t) && forall k :: k in s.tasks ==> s.tasks[k] != t
    ensures t in s.threads && s.threads[t].md5 != s.md5 && RoomsOf(s, t) == {} && TasksOf(s, t) == {} ==> t in s.queue
    ensures forall k :: k in s.tasks ==> s.tasks[k] in s.threads
  {
    hide Reachable;
    ReachableKeeps(s);
    if t in s.queue {
      assert QueuedOk(s, t);
      forall r | r in s.rooms
        ensures s.rooms[r].thread != t
      {
        assert RoomOk(s, r) && r in RoomsOf(s, s.rooms[r].thread);
        UsedNotQueued(s, s.rooms[r].thread);
      }
      forall k | k in s.tasks
        ensures s.tasks[k] != t
      {
        assert k in TasksOf(s, s.tasks[k]);
        UsedNotQueued(s, s.tasks[k]);
      }
    }
    if t in s.threads {
      assert ThreadOk(s, t);
    }
  }

  // ---------------------------------------------------------------- outdated for good

  /** Thread `t` is outdated, or it is gone. */
  predicate Over(s: State, t: int) {
    t < s.nextThread && (t in s.threads ==> s.threads[t].md5 == "")
  }

  lemma StepOver(s: State, step: Step, t: int)
    requires Inv(s) && Enabled(s, step) && Over(s, t)
    ensures Over(Next(s, step), t)
  {
    hide ThreadOk, RoomOk, QueuedOk, Users, Lists;
    match step
    case NewRoom(r, order) => AvailableKeeps(s, order);
    case NewTask(k, order) => AvailableKeeps(s, order);
    case _ =>
  }

  /** Once outdated a thread is never current again, not even when an earlier digest comes back, and its id
      is not given to another. */
  lemma {:induction false} OutdatedForGood(s: State, steps: seq<Step>, t: int)
    requires Inv(s) && Over(s, t) && Run(s, steps).Some?
    ensures Over(Run(s, steps).value, t)
    decreases |steps|
  {
    hide Inv, Next, Enabled, Over;
    if steps != [] {
      StepKeeps(s, steps[0]);
      StepOver(s, steps[0], t);
      OutdatedForGood(Next(s, steps[0]), steps[1..], t);
    }
  }

  /** The same for a room, until it is destroyed. */
  predicate RoomOver(s: State, r: int) {
    r in s.rooms ==> s.rooms[r].md5 == ""
  }

  lemma {:induction false} RoomOutdatedForGood(s: State, steps: seq<Step>, r: int)
    requires Inv(s) && RoomOver(s, r) && r in s.rooms && Run(s, steps).Some?
    requires forall i :: 0 <= i < |steps| ==> steps[i] != EndRoom(r)
    ensures r in Run(s, steps).value.rooms && Run(s, steps).value.rooms[r].md5 == ""
    decreases |steps|
  {
    hide Inv, Next;
    if steps != [] {
      StepKeeps(s, steps[0]);
      StepRoomOver(s, steps[0], r);
      RoomOutdatedForGood(Next(s, steps[0]), steps[1..], r);
    }
  }

  lemma StepRoomOver(s: State, step: Step, r: int)
    requires Inv(s) && Enabled(s, step) && r in s.rooms && s.rooms[r].md5 == "" && step != EndRoom(r)
    ensures r in Next(s, step).rooms && Next(s, step).rooms[r].md5 == ""
  {
    hide ThreadOk, RoomOk, QueuedOk, Users, Lists;
    match step
    case NewRoom(_, order) => AvailableKeeps(s, order);
    case NewTask(_, order) => AvailableKeeps(s, order);
    case _ =>
  }
}
