/** The task manager's three maps: tasks by id, task ids by the user they belong to, and task ids by the
    request whose reply they wait for.  `lobby` holds the users who are in the lobby. */
module Tasks {
  import opened Basics

  /** Zero stands for no user and for no awaited reply. */
  datatype Task = Task(user: int, reply: int)

  datatype State = State(tasks: map<int, Task>, byReply: map<int, int>, byUser: map<int, seq<int>>, lobby: set<int>)

  // ---------------------------------------------------------------- the manager

  function Create(s: State, t: int): State {
    s.(tasks := s.tasks[t := Task(0, 0)])
  }

  function RemoveAllOf(xs: seq<int>, x: int): seq<int> {
    if xs == [] then [] else (if xs[0] == x then [] else [xs[0]]) + RemoveAllOf(xs[1..], x)
  }

  function ListOf(s: State, user: int): seq<int> {
    if user in s.byUser then s.byUser[user] else []
  }

  function Remove(s: State, t: int): State {
    if t !in s.tasks then s
    else
      var task := s.tasks[t];
      var byReply := if task.reply > 0 then s.byReply - {task.reply} else s.byReply;
      var list := RemoveAllOf(ListOf(s, task.user), t);
      var byUser := if task.user <= 0 then s.byUser
        else if list == [] then s.byUser - {task.user} else s.byUser[task.user := list];
      s.(tasks := s.tasks - {t}, byReply := byReply, byUser := byUser)
  }

  function RemoveList(s: State, ts: seq<int>): State
    decreases |ts|
  {
    if ts == [] then s else RemoveList(Remove(s, ts[0]), ts[1..])
  }

  function RemoveAllByUser(s: State, user: int): State {
    if user !in s.byUser then s else RemoveList(s, s.byUser[user])
  }

  function Attach(s: State, t: int, user: int): State {
    if user <= 0 || t !in s.tasks || s.tasks[t].user > 0 then s
    else
      var list := ListOf(s, user);
      s.(tasks := s.tasks[t := s.tasks[t].(user := user)],
         byUser := s.byUser[user := if t in list then list else list + [t]])
  }

  function SetReply(s: State, t: int, reply: int): State {
    if t !in s.tasks then s
    else
      var old_ := s.tasks[t].reply;
      var cleared := if old_ > 0 then s.byReply - {old_} else s.byReply;
      s.(tasks := s.tasks[t := s.tasks[t].(reply := reply)],
         byReply := if reply == 0 then cleared else cleared[reply := t])
  }

  // ---------------------------------------------------------------- the lobby

  function Enter(s: State, user: int): State {
    s.(lobby := s.lobby + {user})
  }

  function Leave(s: State, user: int): State {
    RemoveAllByUser(s.(lobby := s.lobby - {user}), user)
  }

  function HandleTask(s: State, user: int, t: int): State {
    Attach(Create(s, t), t, user)
  }

  // ---------------------------------------------------------------- runs

  datatype Step =
    | Entering(user: int)
    | Leaving(user: int)
    | Starting(user: int, task: int)
    | Awaiting(task: int, reply: int)
    | Ending(task: int)

  /** A request id the index can take: none, or a positive one no other task waits for. */
  predicate FreeReply(s: State, t: int, reply: int) {
    reply == 0 || (reply > 0 && (reply in s.byReply ==> s.byReply[reply] == t))
  }

  /** A new task's id is not in use, packets come from users in the lobby, awaited ids are free. */
  predicate Enabled(s: State, step: Step) {
    match step
    case Starting(user, t) => t !in s.tasks && user in s.lobby
    case Awaiting(t, reply) => FreeReply(s, t, reply)
    case _ => true
  }

  function Next(s: State, step: Step): State {
    match step
    case Entering(user) => Enter(s, user)
    case Leaving(user) => Leave(s, user)
    case Starting(user, t) => HandleTask(s, user, t)
    case Awaiting(t, reply) => SetReply(s, t, reply)
    case Ending(t) => Remove(s, t)
  }

  const EMPTY := State(map[], map[], map[], {})

  /** Where a list of steps leads; a step that is not possible ends the run. */
  function Run(s: State, steps: seq<Step>): Option<State>
    decreases |steps|
  {
    if steps == [] then Some(s)
    else if Enabled(s, steps[0]) then Run(Next(s, steps[0]), steps[1..])
    else None
  }

  ghost predicate Reachable(s: State) {
    exists steps :: Run(EMPTY, steps) == Some(s)
  }
}
