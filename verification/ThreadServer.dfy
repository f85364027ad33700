/** The pool as the server runs it: maps changed in place and loops over them, proved against the functions
    of `Threads`. */
module ThreadServer {
  import opened Basics
  import opened Threads

  lemma HasMember(xs: set<int>)
    requires xs != {}
    ensures exists x :: x in xs
  {
    assert (forall x :: x !in xs) ==> xs == {};
  }

  lemma SweptIs(s: State, threads: map<int, Thread>)
    requires threads.Keys == set t | t in s.threads && !Idle(s, t)
    requires forall t :: t in threads ==> threads[t] == s.threads[t].(md5 := Refreshed(s.threads[t].md5, s.md5))
    ensures threads == SweepThreads(s).threads
  {
    assert forall t :: t in threads ==> threads[t] == SweepThreads(s).threads[t];
  }

  lemma MarkedIs(s: State, threads: map<int, Thread>)
    requires threads.Keys == s.threads.Keys
    requires forall t :: t in threads ==> threads[t] == s.threads[t].(md5 := Refreshed(s.threads[t].md5, s.md5))
    ensures threads == map t | t in s.threads :: s.threads[t].(md5 := Refreshed(s.threads[t].md5, s.md5))
  {
    var expected := map t | t in s.threads :: s.threads[t].(md5 := Refreshed(s.threads[t].md5, s.md5));
    assert forall t :: t in threads ==> threads[t] == expected[t];
  }

  class ThreadPool {
    var md5: string
    var threads: map<int, Thread>
    var rooms: map<int, Room>
    var tasks: map<int, int>
    var queue: seq<int>
    var perThread: int
    var nextThread: int

    function View(): State
      reads this
    {
      State(md5, threads, rooms, tasks, queue, perThread, nextThread)
    }

    constructor (digest: string, capacity: int)
      ensures View() == Initial(digest, capacity)
    {
      md5, threads, rooms, tasks, queue, perThread, nextThread := digest, map[], map[], map[], [], capacity, 1000;
    }

    // -------------------------------------------------------------- one thread

    method ThreadIsOutdated(t: int) returns (outdated: bool)
      requires t in threads
      modifies this
      ensures outdated == (old(threads[t].md5) != md5) && View() == MarkThread(old(View()), t)
    {
      outdated := threads[t].md5 != md5;
      if outdated {
        threads := threads[t := threads[t].(md5 := "")];
      }
      assert threads == old(threads)[t := threads[t]];
    }

    method RoomIsOutdated(r: int) returns (outdated: bool)
      requires r in rooms
      modifies this
      ensures outdated == (old(rooms[r].md5) != md5) && View() == MarkRoom(old(View()), r)
    {
      outdated := rooms[r].md5 != md5;
      if outdated {
        rooms := rooms[r := rooms[r].(md5 := "")];
      }
      assert rooms == old(rooms)[r := rooms[r]];
    }

    method IncreaseRefCount(t: int)
      requires t in threads
      modifies this
      ensures View() == Increase(old(View()), t)
    {
      threads := threads[t := threads[t].(refs := threads[t].refs + 1)];
    }

    method DecreaseRefCount(t: int)
      requires t in threads
      modifies this
      ensures View() == Decrease(old(View()), t)
    {
      threads := threads[t := threads[t].(refs := threads[t].refs - 1)];
      if threads[t].refs > 0 {
        return;
      }
      var outdated := ThreadIsOutdated(t);
      if outdated {
        queue := queue + [t];
      }
    }

    /** Erases the first occurrence in a thread's list of rooms. */
    method RemoveRoomFromThread(t: int, r: int)
      requires t in threads
      modifies this
      ensures View() == old(View()).(threads := old(threads)[t := old(threads)[t].(rooms := Erase(old(threads)[t].rooms, r))])
    {
      var list := threads[t].rooms;
      var i := 0;
      assert list[0..] == list;
      while i < |list| && list[i] != r
        invariant 0 <= i <= |list|
        invariant Erase(list, r) == list[..i] + Erase(list[i..], r)
      {
        assert list[i..][1..] == list[i + 1..];
        i := i + 1;
      }
      if i < |list| {
        assert list[i..][1..] == list[i + 1..];
        list := list[..i] + list[i + 1..];
      } else {
        assert list[i..] == [] && list[..i] == list;
      }
      assert list == Erase(old(threads)[t].rooms, r);
      threads := threads[t := threads[t].(rooms := list)];
    }

    // -------------------------------------------------------------- the pool

    method CreateThread() returns (t: int)
      modifies this
      ensures t == old(nextThread) && View() == Threads.CreateThread(old(View()))
    {
      t := nextThread;
      nextThread := nextThread + 1;
      threads := threads[t := Thread(0, perThread, md5, [])];
    }

    /** `order` is the order in which the hash table is walked. */
    method GetAvailableThread(order: seq<int>) returns (t: int)
      requires OrderOf(View(), order)
      modifies this
      ensures (View(), t) == Available(old(View()), order)
    {
      hide Full;
      assert order[0..] == order;
      for i := 0 to |order|
        invariant threads.Keys == old(threads.Keys)
        invariant Available(View(), order[i..]) == Available(old(View()), order)
      {
        assert order[i..][1..] == order[i + 1..];
        t := order[i];
        var outdated := ThreadIsOutdated(t);
        if outdated {
          continue;
        }
        if Full(threads[t]) {
          continue;
        }
        return;
      }
      assert order[|order|..] == [];
      t := CreateThread();
    }

    method RemoveThread(t: int)
      modifies this
      ensures View() == Threads.RemoveThread(old(View()), t)
    {
      if t in threads {
        threads := threads - {t};
      }
      assert threads == old(threads) - {t};
    }

    method CreateRoom(r: int, order: seq<int>)
      requires OrderOf(View(), order)
      modifies this
      ensures View() == Threads.CreateRoom(old(View()), r, order)
    {
      hide Available;
      var t := GetAvailableThread(order);
      rooms := rooms[r := Room(t, threads[t].md5)];
      threads := threads[t := threads[t].(rooms := threads[t].rooms + [r])];
      IncreaseRefCount(t);
    }

    method DestroyRoom(r: int)
      modifies this
      ensures View() == Threads.DestroyRoom(old(View()), r)
    {
      if r !in rooms {
        return;
      }
      var t := rooms[r].thread;
      rooms := rooms - {r};
      if t in threads {
        RemoveRoomFromThread(t, r);
        DecreaseRefCount(t);
      }
    }

    method CreateTask(k: int, order: seq<int>)
      requires OrderOf(View(), order)
      modifies this
      ensures View() == Threads.CreateTask(old(View()), k, order)
    {
      hide Available;
      var t := GetAvailableThread(order);
      tasks := tasks[k := t];
      IncreaseRefCount(t);
    }

    method DestroyTask(k: int)
      requires k in tasks ==> tasks[k] in threads
      modifies this
      ensures View() == Threads.DestroyTask(old(View()), k)
    {
      if k in tasks {
        var t := tasks[k];
        tasks := tasks - {k};
        DecreaseRefCount(t);
      }
    }

    method RunPostedRemoval()
      modifies this
      ensures View() == RunRemoval(old(View()))
    {
      if queue != [] {
        var t := queue[0];
        queue := queue[1..];
        RemoveThread(t);
      }
    }

    // -------------------------------------------------------------- sweeps

    /** The outdated threads without users; asking clears every stale digest. */
    method CollectIdle() returns (idle: set<int>)
      modifies this
      ensures idle == set t | t in old(threads) && Idle(old(View()), t)
      ensures View() == old(View()).(threads := map t | t in old(threads) ::
        old(threads)[t].(md5 := Refreshed(old(threads)[t].md5, md5)))
    {
      ghost var was := View();
      var todo: set<int> := set t | t in threads;
      idle := {};
      while todo != {}
        invariant View() == was.(threads := threads) && threads.Keys == was.threads.Keys
        invariant forall t :: t in todo ==> t in was.threads && threads[t] == was.threads[t]
        invariant forall t :: t in was.threads && t !in todo ==>
          threads[t] == was.threads[t].(md5 := Refreshed(was.threads[t].md5, was.md5))
        invariant idle == set t | t in was.threads && t !in todo && Idle(was, t)
        decreases todo
      {
        HasMember(todo);
        var t :| t in todo;
        var refs := threads[t].refs;
        var outdated := ThreadIsOutdated(t);
        if outdated && refs == 0 {
          idle := idle + {t};
        }
        todo := todo - {t};
      }
      MarkedIs(was, threads);
    }

    /** Used by the statistics and by the digest refresh: first collect, then remove. */
    method RemoveIdleThreads()
      modifies this
      ensures View() == SweepThreads(old(View()))
    {
      ghost var was := View();
      hide Refreshed;
      var idle := CollectIdle();
      while idle != {}
        invariant View() == was.(threads := threads)
        invariant forall t :: t in idle ==> t in was.threads && Idle(was, t)
        invariant threads.Keys == set t | t in was.threads && (t in idle || !Idle(was, t))
        invariant forall t :: t in threads ==> threads[t] == was.threads[t].(md5 := Refreshed(was.threads[t].md5, was.md5))
        decreases idle
      {
        var t :| t in idle;
        RemoveThread(t);
        idle := idle - {t};
      }
      SweptIs(was, threads);
    }

    method MarkRooms()
      modifies this
      ensures View() == SweepRooms(old(View()))
    {
      ghost var was := View();
      var todo: set<int> := set r | r in rooms;
      while todo != {}
        invariant View() == was.(rooms := rooms) && rooms.Keys == was.rooms.Keys
        invariant forall r :: r in todo ==> r in was.rooms && rooms[r] == was.rooms[r]
        invariant forall r :: r in was.rooms && r !in todo ==>
          rooms[r] == was.rooms[r].(md5 := Refreshed(was.rooms[r].md5, was.md5))
        decreases todo
      {
        HasMember(todo);
        var r :| r in todo;
        var outdated := RoomIsOutdated(r);
        todo := todo - {r};
      }
      ghost var expected := SweepRooms(was).rooms;
      assert forall r :: r in rooms ==> rooms[r] == expected[r];
      assert rooms == expected;
    }

    method RefreshServerMd5(digest: string)
      modifies this
      ensures View() == RefreshMd5(old(View()), digest)
    {
      md5 := digest;
      MarkRooms();
      RemoveIdleThreads();
    }
  }
}
