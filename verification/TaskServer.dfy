/** `TaskManager` and the lobby's calls of it, as they run. */
module TaskServer {
  import opened Tasks

  class TaskManager {
    var taskMap: map<int, Task>
    var requestIdMap: map<int, int>
    var connIdMap: map<int, seq<int>>
    var lobby: set<int>

    function View(): State
      reads this
    {
      State(taskMap, requestIdMap, connIdMap, lobby)
    }

    constructor ()
      ensures View() == EMPTY
    {
      taskMap, requestIdMap, connIdMap, lobby := map[], map[], map[], {};
    }

    method CreateTask(t: int)
      modifies this
      ensures View() == Create(old(View()), t)
    {
      taskMap := taskMap[t := Task(0, 0)];
    }

    /** `std::remove` and the erase after it: every occurrence goes, the order of the others stays. */
    method EraseFrom(list: seq<int>, t: int) returns (kept: seq<int>)
      ensures kept == RemoveAllOf(list, t)
    {
      kept := [];
      assert list[0..] == list;
      for i := 0 to |list|
        invariant RemoveAllOf(list, t) == kept + RemoveAllOf(list[i..], t)
      {
        assert list[i..][1..] == list[i + 1..];
        if list[i] != t {
          kept := kept + [list[i]];
        }
      }
      assert list[|list|..] == [];
    }

    method RemoveTask(t: int)
      modifies this
      ensures View() == Remove(old(View()), t)
    {
      if t !in taskMap {
        return;
      }
      var task := taskMap[t];
      if task.reply > 0 {
        requestIdMap := requestIdMap - {task.reply};
      }
      if task.user > 0 {
        if task.user !in connIdMap {
          connIdMap := connIdMap[task.user := []];
        }
        var kept := EraseFrom(connIdMap[task.user], t);
        connIdMap := connIdMap[task.user := kept];
        if kept == [] {
          connIdMap := connIdMap - {task.user};
        }
      }
      taskMap := taskMap - {t};
      assert connIdMap == Remove(old(View()), t).byUser;
    }

    method RemoveAllTasksByUser(user: int)
      modifies this
      ensures View() == RemoveAllByUser(old(View()), user)
    {
      if user !in connIdMap {
        return;
      }
      var copy := connIdMap[user];
      assert copy[0..] == copy;
      for i := 0 to |copy|
        invariant RemoveList(View(), copy[i..]) == RemoveAllByUser(old(View()), user)
      {
        assert copy[i..][1..] == copy[i + 1..];
        RemoveTask(copy[i]);
      }
    }

    method AttachTaskToUser(t: int, user: int)
      modifies this
      ensures View() == Attach(old(View()), t, user)
    {
      if user <= 0 || t !in taskMap {
        return;
      }
      if taskMap[t].user > 0 {
        return;
      }
      taskMap := taskMap[t := taskMap[t].(user := user)];
      if user !in connIdMap {
        connIdMap := connIdMap[user := []];
      }
      if t !in connIdMap[user] {
        connIdMap := connIdMap[user := connIdMap[user] + [t]];
      }
      assert connIdMap == Attach(old(View()), t, user).byUser;
    }

    method SetTaskExpectedReplyId(t: int, reply: int)
      modifies this
      ensures View() == SetReply(old(View()), t, reply)
    {
      if t !in taskMap {
        return;
      }
      var before := taskMap[t].reply;
      if before > 0 {
        requestIdMap := requestIdMap - {before};
      }
      taskMap := taskMap[t := taskMap[t].(reply := reply)];
      if reply == 0 {
        return;
      }
      requestIdMap := requestIdMap[reply := t];
    }

    /** `Lobby::removePlayer`, as far as it concerns tasks. */
    method LeaveLobby(user: int)
      modifies this
      ensures View() == Leave(old(View()), user)
    {
      lobby := lobby - {user};
      RemoveAllTasksByUser(user);
    }

    method EnterLobby(user: int)
      modifies this
      ensures View() == Enter(old(View()), user)
    {
      lobby := lobby + {user};
    }

    method OnTask(user: int, t: int)
      modifies this
      ensures View() == HandleTask(old(View()), user, t)
    {
      CreateTask(t);
      AttachTaskToUser(t, user);
    }
  }
}
