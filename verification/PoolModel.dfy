/** The strict-priority thread pool as a step system: every lock section is one step. */
module PoolModel {

  /** Tasks are numbered in the order of submit. */
  type Task = nat

  const LEVELS: nat := 3

  /** Queues by level; 0 is the highest. */
  type Queues = q: seq<seq<Task>> | |q| == LEVELS witness [[], [], []]

  datatype Phase = Idle | Running(task: Task) | Exited

  datatype Event = Submitted(task: Task, level: nat) | Taken(task: Task, level: nat)

  /** History: the order of submissions and takes, tasks finished, tasks that came when no worker was left. */
  datatype Past = Past(log: seq<Event>, finished: seq<Task>, late: seq<Task>, nextTask: nat)

  datatype State = State(queues: Queues, workers: seq<Phase>, stopping: set<nat>, past: Past)

  datatype Step =
    // from outside, or from within a running task
    | Submit(level: nat)
    | RequestStop(worker: nat)
    // the three outcomes of a worker's lock section and of the task that it runs
    | Take(worker: nat)
    | Exit(worker: nat)
    | Finish(worker: nat)

  predicate HasPending(queues: Queues) {
    exists l :: 0 <= l < LEVELS && queues[l] != []
  }

  /** The highest level that is not empty. */
  function Highest(queues: Queues): (l: nat)
    requires HasPending(queues)
    ensures l < LEVELS && queues[l] != [] && forall k :: 0 <= k < l ==> queues[k] == []
  {
    if queues[0] != [] then 0 else if queues[1] != [] then 1 else 2
  }

  predicate AllExited(workers: seq<Phase>) {
    forall w :: 0 <= w < |workers| ==> workers[w].Exited?
  }

  function SubmitStep(s: State, level: nat): State
    requires level < LEVELS
  {
    var t := s.past.nextTask;
    s.(queues := s.queues[level := s.queues[level] + [t]],
       past := s.past.(log := s.past.log + [Submitted(t, level)], nextTask := t + 1,
                       late := if AllExited(s.workers) then s.past.late + [t] else s.past.late))
  }

  function TakeStep(s: State, w: nat): State
    requires w < |s.workers| && HasPending(s.queues)
  {
    var l := Highest(s.queues);
    var t := s.queues[l][0];
    s.(queues := s.queues[l := s.queues[l][1..]], workers := s.workers[w := Running(t)],
       past := s.past.(log := s.past.log + [Taken(t, l)]))
  }

  /** A task that throws is finished like any other. */
  function FinishStep(s: State, w: nat): State
    requires w < |s.workers| && s.workers[w].Running?
  {
    s.(workers := s.workers[w := Idle], past := s.past.(finished := s.past.finished + [s.workers[w].task]))
  }

  /** A step that is not enabled changes nothing. */
  function Next(s: State, step: Step): State
  {
    match step
    case Submit(level) => if level < LEVELS then SubmitStep(s, level) else s
    case RequestStop(w) => s.(stopping := s.stopping + {w})
    case Take(w) => if w < |s.workers| && s.workers[w].Idle? && HasPending(s.queues) then TakeStep(s, w) else s
    case Exit(w) =>
      if w < |s.workers| && s.workers[w].Idle? && w in s.stopping && !HasPending(s.queues)
      then s.(workers := s.workers[w := Exited]) else s
    case Finish(w) => if w < |s.workers| && s.workers[w].Running? then FinishStep(s, w) else s
  }

  function Run(s: State, steps: seq<Step>): State
    decreases |steps|
  {
    if steps == [] then s else Next(Run(s, steps[..|steps| - 1]), steps[|steps| - 1])
  }

  /** A pool is never without workers: a count of zero is taken as one. */
  function Start(workerCount: nat): State
  {
    State([[], [], []], seq(if workerCount == 0 then 1 else workerCount, _ => Idle), {}, Past([], [], [], 0))
  }
}
