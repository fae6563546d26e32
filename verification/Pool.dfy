/** The queue operations of thread_pool, run under its lock. */
module Pool {
  import opened Wire
  import opened PoolModel

  class TaskQueues {
    var queues: Queues

    constructor ()
      ensures queues == [[], [], []]
    {
      queues := [[], [], []];
    }

    method Submit(task: Task, level: nat)
      requires level < LEVELS
      modifies this
      ensures queues == old(queues)[level := old(queues)[level] + [task]]
    {
      queues := queues[level := queues[level] + [task]];
    }

    method AnyPending() returns (r: bool)
      ensures r == HasPending(queues)
    {
      r := false;
      for l := 0 to LEVELS
        invariant r <==> exists k :: 0 <= k < l && queues[k] != []
      {
        if queues[l] != [] {
          r := true;
        }
      }
    }

    /** The scan from the highest level; the task is the oldest of the first level that has one. */
    method DequeueHighest() returns (task: Option<Task>)
      modifies this
      ensures task.None? <==> !HasPending(old(queues))
      ensures task.None? ==> queues == old(queues)
      ensures task.Some? ==>
        var l := Highest(old(queues));
        task.value == old(queues)[l][0] && queues == old(queues)[l := old(queues)[l][1..]]
    {
      for l := 0 to LEVELS
        invariant queues == old(queues)
        invariant forall k :: 0 <= k < l ==> queues[k] == []
      {
        if queues[l] != [] {
          task := Some(queues[l][0]);
          queues := queues[l := queues[l][1..]];
          return;
        }
      }
      return None;
    }
  }
}
