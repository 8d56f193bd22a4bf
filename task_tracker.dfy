/** src/utils/task-tracker.js: the module-level Map from an
    image-generation task id to the chat that asked for it and the time it
    was stored. An entry older than one hour is expired: reading it deletes
    it, and the periodic cleanup deletes every expired entry. `Date.now()`
    is the `now` parameter, in milliseconds. */
module TaskTracker {
  import opened Common

  const TASK_EXPIRY_TIME: int := 60 * 60 * 1000

  datatype Task = Task(chatId: int, timestamp: int)

  /** `now - task.timestamp > TASK_EXPIRY_TIME`. */
  predicate Expired(task: Task, now: int)
  {
    now - task.timestamp > TASK_EXPIRY_TIME
  }

  /** The entries of `m` that are not expired at `now`. */
  function Live(m: map<string, Task>, now: int): (r: map<string, Task>)
    ensures forall id :: id in r <==> id in m && !Expired(m[id], now)
    ensures forall id :: id in r ==> r[id] == m[id]
  {
    map id | id in m && !Expired(m[id], now) :: m[id]
  }

  /** What getTask returns and the map it leaves behind. */
  datatype Lookup = Lookup(task: Option<Task>, tasks: map<string, Task>)

  /** getTask(taskId) at time `now`, on the map `m`. */
  function GetTaskSpec(m: map<string, Task>, taskId: string, now: int): Lookup
  {
    if taskId !in m then Lookup(None, m)
    else if Expired(m[taskId], now) then Lookup(None, m - {taskId})
    else Lookup(Some(m[taskId]), m)
  }

  /** getTask: an absent id gives null and changes nothing; an entry more
      than an hour old gives null and is deleted, and nothing else is;
      otherwise the entry is returned and the map is unchanged. */
  lemma GetTaskCases(m: map<string, Task>, taskId: string, now: int)
    ensures var l := GetTaskSpec(m, taskId, now);
      && (l.task.Some? <==> taskId in m && !Expired(m[taskId], now))
      && (l.task.Some? ==> l.task.value == m[taskId])
      && (l.tasks == m <==> taskId !in m || !Expired(m[taskId], now))
      && (l.tasks != m ==> l.tasks == m - {taskId} && Expired(m[taskId], now))
  {
    if taskId in m && Expired(m[taskId], now) {
      assert taskId !in m - {taskId};
    }
  }

  /** The expiry is strict: an entry exactly one hour old is still
      returned; one millisecond later it is gone. */
  lemma ExpiryBoundary(m: map<string, Task>, taskId: string, chatId: int, stored: int)
    requires taskId in m && m[taskId] == Task(chatId, stored)
    ensures GetTaskSpec(m, taskId, stored + TASK_EXPIRY_TIME) == Lookup(Some(Task(chatId, stored)), m)
    ensures GetTaskSpec(m, taskId, stored + TASK_EXPIRY_TIME + 1) == Lookup(None, m - {taskId})
  {
  }

  /** A stored task is found again, with its chat id, for the whole hour
      after it was stored, whatever else the map holds. */
  lemma StoredTaskFound(m: map<string, Task>, taskId: string, chatId: int, stored: int, now: int)
    requires stored <= now <= stored + TASK_EXPIRY_TIME
    ensures GetTaskSpec(m[taskId := Task(chatId, stored)], taskId, now).task == Some(Task(chatId, stored))
  {
  }

  /** A removed task is not found. */
  lemma RemovedTaskNotFound(m: map<string, Task>, taskId: string, now: int)
    ensures GetTaskSpec(m - {taskId}, taskId, now) == Lookup(None, m - {taskId})
  {
  }

  /** The cleanup is invisible to getTask at the same time: every id reads
      the same before and after it. */
  lemma CleanupPreservesLookups(m: map<string, Task>, taskId: string, now: int)
    ensures GetTaskSpec(Live(m, now), taskId, now).task == GetTaskSpec(m, taskId, now).task
  {
  }

  /** A second cleanup at the same time, or an earlier one, removes
      nothing more. */
  lemma CleanupIdempotent(m: map<string, Task>, earlier: int, now: int)
    requires earlier <= now
    ensures Live(Live(m, now), earlier) == Live(m, now)
  {
  }

  /** The Map, as an object whose operations update it in place. */
  class Tracker {
    var tasks: map<string, Task>

    constructor ()
      ensures tasks == map[]
    {
      tasks := map[];
    }

    /** storeTask(taskId, chatId) at time `now`: inserts or overwrites
        the entry. */
    method StoreTask(taskId: string, chatId: int, now: int)
      modifies this
      ensures tasks == old(tasks)[taskId := Task(chatId, now)]
    {
      tasks := tasks[taskId := Task(chatId, now)];
    }

    /** getTask(taskId) at time `now`, deleting the entry it finds
        expired. */
    method GetTask(taskId: string, now: int) returns (task: Option<Task>)
      modifies this
      ensures Lookup(task, tasks) == GetTaskSpec(old(tasks), taskId, now)
    {
      if taskId !in tasks {
        return None;
      }
      var found := tasks[taskId];
      if now - found.timestamp > TASK_EXPIRY_TIME {
        tasks := tasks - {taskId};
        return None;
      }
      return Some(found);
    }

    /** removeTask(taskId): deletes that entry and no other. */
    method RemoveTask(taskId: string)
      modifies this
      ensures tasks == old(tasks) - {taskId}
    {
      tasks := tasks - {taskId};
    }

    /** cleanupExpiredTasks at time `now`: visits every entry once and
        deletes the expired ones as it goes. */
    method CleanupExpiredTasks(now: int)
      modifies this
      ensures tasks == Live(old(tasks), now)
    {
      var pending := tasks.Keys;
      while pending != {}
        invariant pending <= old(tasks).Keys
        invariant forall id :: id in tasks <==> id in old(tasks) && (id in pending || !Expired(old(tasks)[id], now))
        invariant forall id :: id in tasks ==> tasks[id] == old(tasks)[id]
        decreases pending
      {
        var taskId :| taskId in pending;
        if now - tasks[taskId].timestamp > TASK_EXPIRY_TIME {
          tasks := tasks - {taskId};
        }
        pending := pending - {taskId};
      }
    }
  }
}
