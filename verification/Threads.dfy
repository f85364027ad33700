/** The pool of Lua worker threads: manual reference counts of rooms and tasks, "outdated" marks, and
    removals posted for later.  State and operations as functions. */
module Threads {
  import opened Basics

  datatype Thread = Thread(refs: int, capacity: int, md5: string, rooms: seq<int>)

  datatype Room = Room(thread: int, md5: string)

  /** `queue` holds the ids of threads whose removal has been posted, in order.  `perThread` is the
      configured capacity of new threads. */
  datatype State = State(
    md5: string,
    threads: map<int, Thread>,
    rooms: map<int, Room>,
    tasks: map<int, int>,
    queue: seq<int>,
    perThread: int,
    nextThread: int)

  // ---------------------------------------------------------------- marks

  /** `isOutdated` answers, and clears a stale digest so that it never counts as current again. */
  function Refreshed(own: string, current: string): string {
    if own != current then "" else own
  }

  function MarkThread(s: State, t: int): State
    requires t in s.threads
  {
    s.(threads := s.threads[t := s.threads[t].(md5 := Refreshed(s.threads[t].md5, s.md5))])
  }

  function MarkRoom(s: State, r: int): State
    requires r in s.rooms
  {
    s.(rooms := s.rooms[r := s.rooms[r].(md5 := Refreshed(s.rooms[r].md5, s.md5))])
  }

  predicate Full(t: Thread) {
    t.capacity <= t.refs
  }

  // ---------------------------------------------------------------- taking and leaving a thread

  function CreateThread(s: State): State {
    s.(threads := s.threads[s.nextThread := Thread(0, s.perThread, s.md5, [])], nextThread := s.nextThread + 1)
  }

  /** The first usable thread in the order in which the hash table is walked, or a new one. */
  function Available(s: State, order: seq<int>): (r: (State, int))
    requires forall i :: 0 <= i < |order| ==> order[i] in s.threads
    ensures r.1 in r.0.threads && r.0.threads.Keys >= s.threads.Keys
    decreases |order|
  {
    if order == [] then (CreateThread(s), s.nextThread)
    else
      var t := order[0];
      var outdated, s' := s.threads[t].md5 != s.md5, MarkThread(s, t);
      if outdated || Full(s'.threads[t]) then Available(s', order[1..]) else (s', t)
  }

  function Increase(s: State, t: int): State
    requires t in s.threads
  {
    s.(threads := s.threads[t := s.threads[t].(refs := s.threads[t].refs + 1)])
  }

  /** Leaving an outdated thread for good posts its removal. */
  function Decrease(s: State, t: int): State
    requires t in s.threads
  {
    var s1 := s.(threads := s.threads[t := s.threads[t].(refs := s.threads[t].refs - 1)]);
    if s1.threads[t].refs > 0 then s1
    else
      var s2 := MarkThread(s1, t);
      if s1.threads[t].md5 != s.md5 then s2.(queue := s2.queue + [t]) else s2
  }

  // ---------------------------------------------------------------- operations

  predicate OrderOf(s: State, order: seq<int>) {
    (forall i :: 0 <= i < |order| ==> order[i] in s.threads) && forall t :: t in s.threads ==> t in order
  }

  function SetThread(s: State, r: int, t: int): State
    requires t in s.threads
  {
    var s1 := s.(rooms := s.rooms[r := Room(t, s.threads[t].md5)],
                 threads := s.threads[t := s.threads[t].(rooms := s.threads[t].rooms + [r])]);
    Increase(s1, t)
  }

  function CreateRoom(s: State, r: int, order: seq<int>): State
    requires OrderOf(s, order)
  {
    var (s1, t) := Available(s, order);
    SetThread(s1, r, t)
  }

  function CreateTask(s: State, k: int, order: seq<int>): State
    requires OrderOf(s, order)
  {
    var (s1, t) := Available(s, order);
    Increase(s1.(tasks := s1.tasks[k := t]), t)
  }

  function DestroyRoom(s: State, r: int): State {
    if r !in s.rooms then s
    else
      var t, s1 := s.rooms[r].thread, s.(rooms := s.rooms - {r});
      if t !in s1.threads then s1
      else Decrease(s1.(threads := s1.threads[t := s1.threads[t].(rooms := Erase(s1.threads[t].rooms, r))]), t)
  }

  /** The task holds its thread by pointer; here, that it is still there is a fact to be proved. */
  function DestroyTask(s: State, k: int): State
    requires k in s.tasks ==> s.tasks[k] in s.threads
  {
    if k !in s.tasks then s else Decrease(s.(tasks := s.tasks - {k}), s.tasks[k])
  }

  function RemoveThread(s: State, t: int): State {
    s.(threads := s.threads - {t})
  }

  /** One posted removal is executed. */
  function RunRemoval(s: State): State {
    if s.queue == [] then s else RemoveThread(s.(queue := s.queue[1..]), s.queue[0])
  }

  predicate Idle(s: State, t: int)
    requires t in s.threads
  {
    s.threads[t].md5 != s.md5 && s.threads[t].refs == 0
  }

  /** Every thread is asked whether it is outdated; those that are and have no user go at once. */
  function SweepThreads(s: State): State {
    s.(threads := map t | t in s.threads && !Idle(s, t) ::
      s.threads[t].(md5 := Refreshed(s.threads[t].md5, s.md5)))
  }

  function SweepRooms(s: State): State {
    s.(rooms := map r | r in s.rooms :: s.rooms[r].(md5 := Refreshed(s.rooms[r].md5, s.md5)))
  }

  function RefreshMd5(s: State, digest: string): State {
    SweepThreads(SweepRooms(s.(md5 := digest)))
  }

  // ---------------------------------------------------------------- runs

  datatype Step =
    | NewRoom(room: int, order: seq<int>)
    | NewTask(task: int, order: seq<int>)
    | EndRoom(room: int)
    | EndTask(task: int)
    | Removal
    | Refresh(digest: string)
    | Reload(perThread: int)
    | Stat
    | AskRoom(room: int)
    | AskThread(thread: int)

  /** Ids of new rooms and tasks are not in use, and a digest is not empty. */
  predicate Enabled(s: State, step: Step) {
    match step
    case NewRoom(r, order) => r !in s.rooms && OrderOf(s, order)
    case NewTask(k, order) => k !in s.tasks && OrderOf(s, order)
    case EndTask(k) => k in s.tasks ==> s.tasks[k] in s.threads
    case Refresh(digest) => digest != ""
    case AskRoom(r) => r in s.rooms
    case AskThread(t) => t in s.threads
    case _ => true
  }

  function Next(s: State, step: Step): State
    requires Enabled(s, step)
  {
    match step
    case NewRoom(r, order) => CreateRoom(s, r, order)
    case NewTask(k, order) => CreateTask(s, k, order)
    case EndRoom(r) => DestroyRoom(s, r)
    case EndTask(k) => DestroyTask(s, k)
    case Removal => RunRemoval(s)
    case Refresh(digest) => RefreshMd5(s, digest)
    case Reload(n) => s.(perThread := n)
    case Stat => SweepThreads(s)
    case AskRoom(r) => MarkRoom(s, r)
    case AskThread(t) => MarkThread(s, t)
  }

  function Initial(digest: string, perThread: int): State {
    State(digest, map[], map[], map[], [], perThread, 1000)
  }

  /** Where a list of steps leads; a step that is not possible ends the run. */
  function Run(s: State, steps: seq<Step>): Option<State>
    decreases |steps|
  {
    if steps == [] then Some(s)
    else if Enabled(s, steps[0]) then Run(Next(s, steps[0]), steps[1..])
    else None
  }
}
