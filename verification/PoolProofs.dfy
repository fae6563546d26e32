/** What every interleaving of the thread pool's workers and submitters keeps. */
module PoolProofs {
  import opened PoolModel

  // ----- Every task is in one place ------------------------------------------------------

  function TasksOf(p: Phase): multiset<Task>
  {
    if p.Running? then multiset{p.task} else multiset{}
  }

  function RunningTasks(workers: seq<Phase>): multiset<Task>
  {
    if workers == [] then multiset{}
    else RunningTasks(workers[..|workers| - 1]) + TasksOf(workers[|workers| - 1])
  }

  lemma RunningLast(workers: seq<Phase>)
    requires workers != []
    ensures RunningTasks(workers) == RunningTasks(workers[..|workers| - 1]) + TasksOf(workers[|workers| - 1])
  {
  }

  lemma AddBoth(a: multiset<Task>, b: multiset<Task>, x: multiset<Task>, y: multiset<Task>, z: multiset<Task>)
    requires a + x == b + y
    ensures (a + z) + x == (b + z) + y
  {
    assert (a + z) + x == (a + x) + z && (b + z) + y == (b + y) + z;
  }

  lemma {:induction false} RunningUpdated(workers: seq<Phase>, w: nat, p: Phase)
    requires w < |workers|
    ensures RunningTasks(workers[w := p]) + TasksOf(workers[w]) == RunningTasks(workers) + TasksOf(p)
  {
    hide RunningTasks, TasksOf;
    var n := |workers| - 1;
    var front := workers[..n];
    RunningLast(workers);
    RunningLast(workers[w := p]);
    if w == n {
      assert workers[w := p][..n] == front;
      var a, x, y := RunningTasks(front), TasksOf(workers[w]), TasksOf(p);
      assert (a + y) + x == (a + x) + y;
    } else {
      RunningUpdated(front, w, p);
      assert workers[w := p][..n] == front[w := p];
      AddBoth(RunningTasks(front[w := p]), RunningTasks(front), TasksOf(workers[w]), TasksOf(p), TasksOf(workers[n]));
    }
  }

  function Queued(queues: Queues): multiset<Task>
  {
    multiset(queues[0]) + multiset(queues[1]) + multiset(queues[2])
  }

  function Everywhere(s: State): multiset<Task>
  {
    Queued(s.queues) + RunningTasks(s.workers) + multiset(s.past.finished)
  }

  ghost predicate Conserved(s: State) {
    forall t: Task :: Everywhere(s)[t] == if t < s.past.nextTask then 1 else 0
  }

  lemma SubmitMoves(s: State, level: nat)
    requires level < LEVELS
    ensures Everywhere(SubmitStep(s, level)) == Everywhere(s) + multiset{s.past.nextTask}
  {
    QueueGrows(s.queues, level, s.past.nextTask);
    hide Queued;
  }

  lemma QueueShrinks(queues: Queues, l: nat)
    requires l < LEVELS && queues[l] != []
    ensures Queued(queues) == Queued(queues[l := queues[l][1..]]) + multiset{queues[l][0]}
  {
    var q := queues[l];
    assert q == [q[0]] + q[1..];
    assert multiset(q) == multiset{q[0]} + multiset(q[1..]);
  }

  lemma TakeMoves(s: State, w: nat)
    requires w < |s.workers| && s.workers[w].Idle? && HasPending(s.queues)
    ensures Everywhere(TakeStep(s, w)) == Everywhere(s)
  {
    hide Queued, RunningTasks;
    var l := Highest(s.queues);
    var t := s.queues[l][0];
    QueueShrinks(s.queues, l);
    RunningUpdated(s.workers, w, Running(t));
    var r := RunningTasks(s.workers[w := Running(t)]);
    assert r + multiset{} == r;
    Shift(Queued(s.queues[l := s.queues[l][1..]]), RunningTasks(s.workers), multiset(s.past.finished), multiset{t});
  }

  lemma Shift(q: multiset<Task>, r: multiset<Task>, f: multiset<Task>, x: multiset<Task>)
    ensures q + (r + x) + f == (q + x) + r + f
  {
  }

  lemma FinishMoves(s: State, w: nat)
    requires w < |s.workers| && s.workers[w].Running?
    ensures Everywhere(FinishStep(s, w)) == Everywhere(s)
  {
    var t := s.workers[w].task;
    RunningUpdated(s.workers, w, Idle);
    hide Queued, RunningTasks;
    var q, r, f := Queued(s.queues), RunningTasks(s.workers[w := Idle]), multiset(s.past.finished);
    assert r + multiset{t} == RunningTasks(s.workers);
    assert q + r + (f + multiset{t}) == q + (r + multiset{t}) + f;
  }

  lemma ExitMoves(s: State, w: nat)
    requires w < |s.workers| && s.workers[w].Idle?
    ensures Everywhere(s.(workers := s.workers[w := Exited])) == Everywhere(s)
  {
    RunningUpdated(s.workers, w, Exited);
    var a, b := RunningTasks(s.workers[w := Exited]), RunningTasks(s.workers);
    assert a == a + TasksOf(s.workers[w]) == b + TasksOf(Exited) == b;
  }

  lemma NextConserves(s: State, step: Step)
    requires Conserved(s)
    ensures Conserved(Next(s, step))
  {
    hide Everywhere;
    var s' := Next(s, step);
    match step
    case Submit(level) =>
      if level < LEVELS {
        SubmitMoves(s, level);
      }
    case Take(w) =>
      if s' != s {
        TakeMoves(s, w);
      }
    case Exit(w) =>
      if s' != s {
        ExitMoves(s, w);
      }
    case Finish(w) =>
      if s' != s {
        FinishMoves(s, w);
      }
    case RequestStop(_) =>
      StopMoves(s, s'.stopping);
  }

  lemma StopMoves(s: State, stopping: set<nat>)
    ensures Everywhere(s.(stopping := stopping)) == Everywhere(s)
  {
  }

  lemma {:induction false} NoneRunning(workers: seq<Phase>)
    requires forall w :: 0 <= w < |workers| ==> !workers[w].Running?
    ensures RunningTasks(workers) == multiset{}
  {
    if workers != [] {
      NoneRunning(workers[..|workers| - 1]);
    }
  }

  /** In every interleaving each submitted task is in exactly one place: queued, running or finished. */
  lemma {:induction false} EveryTaskOnce(workerCount: nat, steps: seq<Step>)
    ensures Conserved(Run(Start(workerCount), steps))
    decreases |steps|
  {
    if steps == [] {
      NoneRunning(Start(workerCount).workers);
    } else {
      EveryTaskOnce(workerCount, steps[..|steps| - 1]);
      NextConserves(Run(Start(workerCount), steps[..|steps| - 1]), steps[|steps| - 1]);
    }
  }

  // ----- Strict priority, first in first out ------------------------------------------------

  function SubmittedAt(log: seq<Event>, level: nat): seq<Task>
  {
    if log == [] then []
    else
      var last := log[|log| - 1];
      SubmittedAt(log[..|log| - 1], level) + if last.Submitted? && last.level == level then [last.task] else []
  }

  function TakenAt(log: seq<Event>, level: nat): seq<Task>
  {
    if log == [] then []
    else
      var last := log[|log| - 1];
      TakenAt(log[..|log| - 1], level) + if last.Taken? && last.level == level then [last.task] else []
  }

  /** Tasks of a level that have been submitted and not taken, oldest first, when takes follow the order of submits. */
  predicate InOrder(log: seq<Event>, level: nat) {
    TakenAt(log, level) <= SubmittedAt(log, level)
  }

  /** The take at index i found every higher level empty and took the oldest task of its own. */
  predicate TookHighest(log: seq<Event>, i: nat)
    requires i < |log| && log[i].Taken?
  {
    var before := log[..i];
    var l := log[i].level;
    && l < LEVELS
    && (forall k :: 0 <= k < l ==> TakenAt(before, k) == SubmittedAt(before, k))
    && InOrder(before, l)
    && |TakenAt(before, l)| < |SubmittedAt(before, l)|
    && log[i].task == SubmittedAt(before, l)[|TakenAt(before, l)|]
  }

  ghost predicate LogInv(s: State) {
    && (forall l :: 0 <= l < LEVELS ==> SubmittedAt(s.past.log, l) == TakenAt(s.past.log, l) + s.queues[l])
    && (forall i :: 0 <= i < |s.past.log| && s.past.log[i].Taken? ==> TookHighest(s.past.log, i))
  }

  lemma LogSnoc(log: seq<Event>, e: Event, level: nat)
    ensures SubmittedAt(log + [e], level)
         == SubmittedAt(log, level) + if e.Submitted? && e.level == level then [e.task] else []
    ensures TakenAt(log + [e], level) == TakenAt(log, level) + if e.Taken? && e.level == level then [e.task] else []
  {
    assert (log + [e])[..|log|] == log;
  }

  lemma OldTakes(log: seq<Event>, e: Event, i: nat)
    requires i < |log| && log[i].Taken? && TookHighest(log, i)
    ensures TookHighest(log + [e], i)
  {
    assert (log + [e])[..i] == log[..i];
  }

  lemma SubmitKeepsLog(s: State, level: nat)
    requires LogInv(s) && level < LEVELS
    ensures LogInv(SubmitStep(s, level))
  {
    var s' := SubmitStep(s, level);
    var e := Submitted(s.past.nextTask, level);
    forall l | 0 <= l < LEVELS ensures SubmittedAt(s'.past.log, l) == TakenAt(s'.past.log, l) + s'.queues[l] {
      LogSnoc(s.past.log, e, l);
    }
    forall i | 0 <= i < |s'.past.log| && s'.past.log[i].Taken? ensures TookHighest(s'.past.log, i) {
      OldTakes(s.past.log, e, i);
    }
  }

  lemma TakeKeepsLog(s: State, w: nat)
    requires LogInv(s) && w < |s.workers| && HasPending(s.queues)
    ensures LogInv(TakeStep(s, w))
  {
    var s' := TakeStep(s, w);
    var log := s.past.log;
    var level := Highest(s.queues);
    var q := s.queues[level];
    var e := Taken(q[0], level);
    forall l | 0 <= l < LEVELS ensures SubmittedAt(s'.past.log, l) == TakenAt(s'.past.log, l) + s'.queues[l] {
      LogSnoc(log, e, l);
      if l == level {
        assert TakenAt(log, l) + q == (TakenAt(log, l) + [q[0]]) + q[1..];
      }
    }
    forall i | 0 <= i < |s'.past.log| && s'.past.log[i].Taken? ensures TookHighest(s'.past.log, i) {
      if i < |log| {
        OldTakes(log, e, i);
      } else {
        assert s'.past.log[..i] == log;
        assert forall k :: 0 <= k < level ==> SubmittedAt(log, k) == TakenAt(log, k) + s.queues[k];
      }
    }
  }

  lemma {:induction false} RunKeepsLog(workerCount: nat, steps: seq<Step>)
    ensures LogInv(Run(Start(workerCount), steps))
    decreases |steps|
  {
    if steps != [] {
      RunKeepsLog(workerCount, steps[..|steps| - 1]);
      var s, step := Run(Start(workerCount), steps[..|steps| - 1]), steps[|steps| - 1];
      match step
      case Submit(level) =>
        if level < LEVELS {
          SubmitKeepsLog(s, level);
        }
      case Take(w) =>
        if w < |s.workers| && s.workers[w].Idle? && HasPending(s.queues) {
          TakeKeepsLog(s, w);
        }
      case _ =>
    }
  }

  /** Every take, in every interleaving, takes the oldest task of the highest level that has one. */
  lemma StrictPriority(workerCount: nat, steps: seq<Step>, i: nat)
    requires var log := Run(Start(workerCount), steps).past.log; i < |log| && log[i].Taken?
    ensures TookHighest(Run(Start(workerCount), steps).past.log, i)
  {
    RunKeepsLog(workerCount, steps);
  }

  // ----- Shutdown --------------------------------------------------------------------------------

  predicate LateInv(s: State) {
    && |s.workers| > 0
    && (if AllExited(s.workers) then Queued(s.queues) == multiset(s.past.late) else s.past.late == [])
  }

  lemma NothingQueued(queues: Queues)
    ensures Queued(queues) == multiset{} <==> !HasPending(queues)
  {
    if HasPending(queues) {
      var l := Highest(queues);
      assert queues[l][0] in multiset(queues[l]);
      assert queues[l][0] in Queued(queues);
    }
  }

  lemma QueueGrows(queues: Queues, l: nat, t: Task)
    requires l < LEVELS
    ensures Queued(queues[l := queues[l] + [t]]) == Queued(queues) + multiset{t}
  {
    assert multiset(queues[l] + [t]) == multiset(queues[l]) + multiset{t};
  }

  lemma NextKeepsLate(s: State, step: Step)
    requires LateInv(s)
    ensures LateInv(Next(s, step))
  {
    hide Queued;
    var s' := Next(s, step);
    match step
    case Submit(level) =>
      if level < LEVELS {
        QueueGrows(s.queues, level, s.past.nextTask);
      }
    case Exit(w) =>
      if s' != s {
        NothingQueued(s.queues);
        assert !AllExited(s.workers);
      }
    case Take(w) =>
      if s' != s {
        assert !s'.workers[w].Exited? && !s.workers[w].Exited?;
      }
    case Finish(w) =>
      if s' != s {
        assert !s'.workers[w].Exited? && !s.workers[w].Exited?;
      }
    case _ =>
  }

  lemma {:induction false} RunKeepsLate(workerCount: nat, steps: seq<Step>)
    ensures LateInv(Run(Start(workerCount), steps))
    decreases |steps|
  {
    if steps == [] {
      assert !Start(workerCount).workers[0].Exited?;
    } else {
      RunKeepsLate(workerCount, steps[..|steps| - 1]);
      NextKeepsLate(Run(Start(workerCount), steps[..|steps| - 1]), steps[|steps| - 1]);
    }
  }

  /** Once all workers have exited, the queues hold nothing, exactly when nothing was submitted after the last exit. */
  lemma DrainedAtShutdown(workerCount: nat, steps: seq<Step>)
    requires AllExited(Run(Start(workerCount), steps).workers)
    ensures var s := Run(Start(workerCount), steps);
      !HasPending(s.queues) <==> s.past.late == []
  {
    var s := Run(Start(workerCount), steps);
    RunKeepsLate(workerCount, steps);
    NothingQueued(s.queues);
    assert s.past.late != [] ==> s.past.late[0] in multiset(s.past.late);
  }

  /** Then every task submitted before has run to its end. */
  lemma AllFinishedAtShutdown(workerCount: nat, steps: seq<Step>, t: Task)
    requires var s := Run(Start(workerCount), steps);
      AllExited(s.workers) && s.past.late == [] && t < s.past.nextTask
    ensures multiset(Run(Start(workerCount), steps).past.finished)[t] == 1
  {
    var s := Run(Start(workerCount), steps);
    EveryTaskOnce(workerCount, steps);
    DrainedAtShutdown(workerCount, steps);
    NothingQueued(s.queues);
    NoneRunning(s.workers);
    assert Everywhere(s)[t] == 1;
  }

  // ----- Stop requests -----------------------------------------------------------------------------

  predicate Requested(steps: seq<Step>, w: nat) {
    exists i :: 0 <= i < |steps| && steps[i] == RequestStop(w)
  }

  lemma {:induction false} StoppingAsRequested(workerCount: nat, steps: seq<Step>, w: nat)
    ensures w in Run(Start(workerCount), steps).stopping <==> Requested(steps, w)
    decreases |steps|
  {
    if steps != [] {
      var front, last := steps[..|steps| - 1], steps[|steps| - 1];
      StoppingAsRequested(workerCount, front, w);
      assert steps == front + [last];
      if i :| 0 <= i < |front| && front[i] == RequestStop(w) {
        assert steps[i] == RequestStop(w);
      }
      if last == RequestStop(w) {
        assert steps[|steps| - 1] == RequestStop(w);
      }
    }
  }

  /** A worker has exited only if it was asked to stop, before it exited. */
  lemma {:induction false} ExitsWhenAsked(workerCount: nat, steps: seq<Step>, w: nat)
    requires var workers := Run(Start(workerCount), steps).workers; w < |workers| && workers[w].Exited?
    ensures exists k :: 0 <= k < |steps| && steps[k] == Exit(w) && Requested(steps[..k], w)
    decreases |steps|
  {
    if steps != [] {
      var front, last := steps[..|steps| - 1], steps[|steps| - 1];
      var s := Run(Start(workerCount), front);
      assert |s.workers| == |Next(s, last).workers|;
      if s.workers[w].Exited? {
        ExitsWhenAsked(workerCount, front, w);
        var k :| 0 <= k < |front| && front[k] == Exit(w) && Requested(front[..k], w);
        assert steps[k] == Exit(w) && steps[..k] == front[..k];
      } else {
        StoppingAsRequested(workerCount, front, w);
        assert steps[|steps| - 1] == Exit(w);
      }
    }
  }

  lemma ExitedWasAsked(workerCount: nat, steps: seq<Step>, w: nat)
    requires var workers := Run(Start(workerCount), steps).workers; w < |workers| && workers[w].Exited?
    ensures Requested(steps, w)
  {
    ExitsWhenAsked(workerCount, steps, w);
    var k :| 0 <= k < |steps| && steps[k] == Exit(w) && Requested(steps[..k], w);
    var i :| 0 <= i < k && steps[..k][i] == RequestStop(w);
    assert steps[i] == RequestStop(w);
  }

  /** Without a stop request no worker exits, and no task comes too late. */
  lemma NobodyExitsUnasked(workerCount: nat, steps: seq<Step>)
    requires forall w: nat :: !Requested(steps, w)
    ensures var s := Run(Start(workerCount), steps);
      s.past.late == [] && forall w :: 0 <= w < |s.workers| ==> !s.workers[w].Exited?
  {
    var s := Run(Start(workerCount), steps);
    RunKeepsLate(workerCount, steps);
    forall w | 0 <= w < |s.workers| ensures !s.workers[w].Exited? {
      if s.workers[w].Exited? {
        ExitedWasAsked(workerCount, steps, w);
      }
    }
    assert !s.workers[0].Exited?;
  }

  /** The pool keeps as many workers as it was asked for, and at least one. */
  lemma {:induction false} WorkersAsAsked(workerCount: nat, steps: seq<Step>)
    ensures |Run(Start(workerCount), steps).workers| == if workerCount == 0 then 1 else workerCount
    decreases |steps|
  {
    if steps != [] {
      WorkersAsAsked(workerCount, steps[..|steps| - 1]);
    }
  }

  // ----- What was submitted ----------------------------------------------------------------------------

  /** The levels of the tasks submitted, by task number. */
  function SubmitsOf(steps: seq<Step>): (r: seq<nat>)
  {
    if steps == [] then []
    else
      var last := steps[|steps| - 1];
      SubmitsOf(steps[..|steps| - 1]) + if last.Submit? && last.level < LEVELS then [last.level] else []
  }

  /** The tasks of a level, in the order of their submission. */
  function TasksAt(levels: seq<nat>, level: nat): (r: seq<Task>)
  {
    if levels == [] then []
    else
      TasksAt(levels[..|levels| - 1], level) + if levels[|levels| - 1] == level then [|levels| - 1] else []
  }

  lemma TasksSnoc(levels: seq<nat>, l: nat, level: nat)
    ensures TasksAt(levels + [l], level) == TasksAt(levels, level) + if l == level then [|levels|] else []
  {
    assert (levels + [l])[..|levels|] == levels;
  }

  /** Every submit call puts a task into the level that it names: the log of a run is that of its calls. */
  lemma {:induction false} SubmittedAsCalled(workerCount: nat, steps: seq<Step>, level: nat)
    ensures var s := Run(Start(workerCount), steps);
      && s.past.nextTask == |SubmitsOf(steps)|
      && SubmittedAt(s.past.log, level) == TasksAt(SubmitsOf(steps), level)
    decreases |steps|
  {
    hide Next;
    if steps != [] {
      var front, last := steps[..|steps| - 1], steps[|steps| - 1];
      SubmittedAsCalled(workerCount, front, level);
      NextSubmits(Run(Start(workerCount), front), last, level);
      if last.Submit? && last.level < LEVELS {
        TasksSnoc(SubmitsOf(front), last.level, level);
      } else {
        assert SubmitsOf(front) + [] == SubmitsOf(front);
      }
    }
  }

  lemma NextSubmits(s: State, step: Step, level: nat)
    ensures var r := Next(s, step);
      var counts := step.Submit? && step.level < LEVELS;
      && r.past.nextTask == s.past.nextTask + (if counts then 1 else 0)
      && SubmittedAt(r.past.log, level)
         == SubmittedAt(s.past.log, level) + if counts && step.level == level then [s.past.nextTask] else []
  {
    assert SubmittedAt(s.past.log, level) + [] == SubmittedAt(s.past.log, level);
    match step
    case Submit(l) => LogSnoc(s.past.log, Submitted(s.past.nextTask, l), level);
    case Take(w) =>
      if HasPending(s.queues) {
        LogSnoc(s.past.log, Taken(s.queues[Highest(s.queues)][0], Highest(s.queues)), level);
      }
    case _ =>
  }

  // ----- A worker that is there can finish everything ------------------------------------------------------

  lemma {:induction false} RunAppend(s: State, a: seq<Step>, b: seq<Step>)
    ensures Run(s, a + b) == Run(Run(s, a), b)
    decreases |b|
  {
    hide Next;
    if b == [] {
      assert a + b == a;
    } else {
      RunAppend(s, a, b[..|b| - 1]);
      assert (a + b)[..|a + b| - 1] == a + b[..|b| - 1];
    }
  }

  function QueuedCount(queues: Queues): nat
  {
    |queues[0]| + |queues[1]| + |queues[2]|
  }

  lemma TakeAndFinish(s: State, w: nat)
    requires w < |s.workers| && s.workers[w].Idle? && HasPending(s.queues)
    ensures var l := Highest(s.queues);
      var r := Run(s, [Take(w), Finish(w)]);
      && r.queues == s.queues[l := s.queues[l][1..]] && r.workers == s.workers
      && r.past.finished == s.past.finished + [s.queues[l][0]] && r.past.nextTask == s.past.nextTask
  {
    var t := Next(s, Take(w));
    assert [Take(w), Finish(w)][..1] == [Take(w)] && [Take(w)][..0] == [];
    assert Run(s, [Take(w)]) == t;
    assert Next(t, Finish(w)).workers == s.workers;
  }

  /** One idle worker alone empties the queues. */
  lemma {:induction false} IdleEmpties(s: State, w: nat) returns (steps: seq<Step>)
    requires w < |s.workers| && s.workers[w].Idle?
    ensures var r := Run(s, steps);
      !HasPending(r.queues) && r.workers == s.workers && r.past.nextTask == s.past.nextTask
    decreases QueuedCount(s.queues)
  {
    if !HasPending(s.queues) {
      steps := [];
    } else {
      TakeAndFinish(s, w);
      var two := [Take(w), Finish(w)];
      var more := IdleEmpties(Run(s, two), w);
      RunAppend(s, two, more);
      steps := two + more;
    }
  }

  /** A stopped pool shuts down: a worker that is idle with empty queues and a stop request exits. */
  lemma StoppedExits(s: State, w: nat)
    requires w < |s.workers| && s.workers[w].Idle? && !HasPending(s.queues) && w in s.stopping
    ensures Next(s, Exit(w)).workers == s.workers[w := Exited]
  {
  }

  /** Whatever has happened, a pool with an idle worker can run every queued task to its end. */
  lemma IdleWorkerFinishes(workerCount: nat, steps: seq<Step>, w: nat) returns (more: seq<Step>)
    requires var s := Run(Start(workerCount), steps); w < |s.workers| && s.workers[w].Idle?
    ensures var s := Run(Start(workerCount), steps);
      var r := Run(Start(workerCount), steps + more);
      && !HasPending(r.queues) && r.past.nextTask == s.past.nextTask
      && forall t: Task :: t < r.past.nextTask ==> (multiset(r.past.finished) + RunningTasks(s.workers))[t] == 1
  {
    var s := Run(Start(workerCount), steps);
    more := IdleEmpties(s, w);
    RunAppend(Start(workerCount), steps, more);
    var r := Run(s, more);
    EveryTaskOnce(workerCount, steps + more);
    NothingQueued(r.queues);
    hide Queued, RunningTasks;
    forall t: Task | t < r.past.nextTask ensures (multiset(r.past.finished) + RunningTasks(s.workers))[t] == 1 {
      assert Everywhere(r)[t] == 1;
    }
  }
}
