/**
 * The event loop and its poller as a step system. Every lock section and every system call is one
 * step; any number of threads interleave with the loop thread in any way.
 */
module LoopModel {
  import opened Wire
  import opened LoopTables
  import opened Timers

  type Thread = nat

  /** The loop's own thread, as the caller of defer, set_timeout and the others from a callback. */
  const LOOP: Thread := 0

  type Fn = nat

  /** Where a thread is in a public call: nowhere, before the poller's table, or before the poke. */
  datatype Phase = Outside | BeforePoller(change: Change) | BeforePoke

  /** What next_timeout returned, with the earliest deadline that it saw. */
  datatype Choice = Choice(ms: Option<nat>, soonest: Option<int>)

  /** Where the loop thread is in iterate. */
  datatype Loop =
    | Top                                                    // before the test of quitting
    | Tested                                                 // quitting was false
    | Chosen(choice: Choice)                                 // after next_timeout
    | Waiting(choice: Choice, snapshot: map<int, Interest>)  // from the copy of the table to the return of poll
    | Returned(woke: bool)                                   // poll is back, the wake channel not yet drained
    | Awake                                                  // before the swap
    | RunningDeferred(batch: seq<Fn>)
    | RunningTimers(due: seq<Timer>)
    | Dispatching(rest: seq<int>)

  /** The lists guarded by the loop's lock. */
  datatype Work = Work(deferred: seq<Fn>, timers: seq<Timer>, nextTimer: nat)

  /** Timers cleared before harvest, timers fired, and when they fired. */
  datatype TimerPast = TimerPast(cleared: seq<Timer>, fired: seq<Timer>, firedAt: seq<nat>)

  /**
   * Events reported by the poller, left over from an earlier wait at an interrupted one, dispatched,
   * skipped because their handle was not watched at their turn, and dropped because of quitting.
   */
  datatype EventPast = EventPast(
    reported: seq<int>,
    leftOver: seq<int>,
    dispatched: seq<int>,
    skipped: seq<int>,
    dropped: seq<int>
  )

  /** History; `deferrals` is the order of defer, `raced` the handles changed by two threads at a time. */
  datatype Past = Past(deferrals: seq<Fn>, executed: seq<Fn>, raced: set<int>, timers: TimerPast, events: EventPast)

  datatype State = State(
    now: nat,
    work: Work,
    tables: Tables,
    quitting: bool,
    wake: nat,
    ready: seq<int>,
    threads: map<Thread, Phase>,
    loop: Loop,
    past: Past
  )

  /** The first half of a public call, under the loop's lock. */
  datatype Call =
    | Defer(fn: Fn)
    | SetTimeout(delay: int)
    | ClearTimeout(id: nat)
    | ChangeWatch(change: Change)
    | Quit

  /** The loop thread, from the top of iterate to the drained wake channel. */
  datatype Waiter =
    | TestQuitting
    | Choose
    | Snapshot
    | PollReturns(ready: seq<int>)
    | PollInterrupted
    | PollFails
    | DrainWake

  /** The loop thread, from the swap to the end of iterate. */
  datatype Server =
    | Swap
    | RunDeferred
    | Harvest
    | FireTimer
    | BeginDispatch
    | DispatchNext

  datatype Step =
    | Tick(elapsed: nat)
    | Restart
    | Begin(t: Thread, call: Call)
    | Proceed(t: Thread)
    | Await(w: Waiter)
    | Serve(v: Server)

  function PhaseOf(s: State, t: Thread): Phase
  {
    if t in s.threads then s.threads[t] else Outside
  }

  /** Callbacks run: the loop thread itself may be inside a public call. */
  predicate Calling(loop: Loop) {
    loop.RunningDeferred? || loop.RunningTimers? || loop.Dispatching?
  }

  predicate MayCall(s: State, t: Thread) {
    PhaseOf(s, t).Outside? && (t == LOOP ==> Calling(s.loop))
  }

  predicate LoopFree(s: State) {
    PhaseOf(s, LOOP).Outside?
  }

  function SetPhase(s: State, t: Thread, p: Phase): State
  {
    s.(threads := s.threads[t := p])
  }

  predicate InFlight(s: State, t: Thread, h: int) {
    t in s.threads && s.threads[t].BeforePoller? && s.threads[t].change.handle == h
  }

  predicate AnyInFlight(s: State, h: int) {
    exists t :: t in s.threads && InFlight(s, t, h)
  }

  // ----- The steps --------------------------------------------------------------------

  function BeginChange(s: State, t: Thread, c: Change): State
  {
    if c.Update? && c.handle !in s.tables.watches then s
    else
      var raced := if AnyInFlight(s, c.handle) then s.past.raced + {c.handle} else s.past.raced;
      SetPhase(s.(tables := s.tables.(watches := ChangeWatches(s.tables.watches, c)), past := s.past.(raced := raced)),
               t, BeforePoller(c))
  }

  function BeginCall(s: State, t: Thread, call: Call): State
  {
    if !MayCall(s, t) then s
    else
      match call
      case Defer(fn) =>
        SetPhase(s.(work := s.work.(deferred := s.work.deferred + [fn]),
                    past := s.past.(deferrals := s.past.deferrals + [fn])), t, BeforePoke)
      case SetTimeout(delay) =>
        SetPhase(s.(work := s.work.(timers := s.work.timers + [Timer(s.work.nextTimer, s.now + delay)],
                                    nextTimer := s.work.nextTimer + 1)), t, BeforePoke)
      case ClearTimeout(id) =>
        s.(work := s.work.(timers := WithoutId(s.work.timers, id)),
           past := s.past.(timers := s.past.timers.(cleared := s.past.timers.cleared + WithId(s.work.timers, id))))
      case ChangeWatch(c) => BeginChange(s, t, c)
      case Quit => SetPhase(s.(quitting := true), t, BeforePoke)
  }

  /** The rest of a call: the poller's table under the poller's lock, then the poke. */
  function ProceedCall(s: State, t: Thread): State
  {
    match PhaseOf(s, t)
    case Outside => s
    case BeforePoller(c) => SetPhase(s.(tables := s.tables.(fds := ChangeFds(s.tables.fds, c))), t, BeforePoke)
    case BeforePoke => SetPhase(s.(wake := s.wake + 1), t, Outside)
  }

  /** The timeout that next_timeout computes in this state. */
  function ChoiceIn(s: State): Choice
  {
    var w := s.work;
    Choice(NextTimeout(w.deferred == [], w.timers, s.now), if w.timers == [] then None else Some(Soonest(w.timers)))
  }

  function AwaitStep(s: State, w: Waiter): State
  {
    match w
    case TestQuitting => if s.loop.Top? && !s.quitting then s.(loop := Tested) else s
    case Choose => if s.loop.Tested? then s.(loop := Chosen(ChoiceIn(s))) else s
    case Snapshot => if s.loop.Chosen? then s.(loop := Waiting(s.loop.choice, s.tables.fds)) else s
    case PollReturns(ready) =>
      if !s.loop.Waiting? then s
      else s.(loop := Returned(s.wake > 0), ready := ready,
              past := s.past.(events := s.past.events.(reported := s.past.events.reported + ready)))
    // EINTR: the wait counts as zero events, and the events of the previous wait stay in place
    case PollInterrupted =>
      if !s.loop.Waiting? then s
      else s.(loop := Awake, past := s.past.(events := s.past.events.(leftOver := s.past.events.leftOver + s.ready)))
    case PollFails => if s.loop.Waiting? then s.(loop := Top) else s
    case DrainWake =>
      if s.loop.Returned? then s.(loop := Awake, wake := if s.loop.woke then 0 else s.wake) else s
  }

  function FiredNow(p: TimerPast, t: Timer, now: nat): TimerPast
  {
    p.(fired := p.fired + [t], firedAt := p.firedAt + [now])
  }

  /** The turn of an event comes. */
  function Turned(p: EventPast, h: int, watched: bool): EventPast
  {
    if watched then p.(dispatched := p.dispatched + [h]) else p.(skipped := p.skipped + [h])
  }

  /** A callback ends before the next one starts. */
  function ServeStep(s: State, v: Server): State
  {
    if !LoopFree(s) then s
    else
      match v
      case Swap =>
        if s.loop.Awake? then s.(loop := RunningDeferred(s.work.deferred), work := s.work.(deferred := [])) else s
      case RunDeferred =>
        if !s.loop.RunningDeferred? || s.loop.batch == [] then s
        else s.(loop := RunningDeferred(s.loop.batch[1..]),
                past := s.past.(executed := s.past.executed + [s.loop.batch[0]]))
      case Harvest =>
        if !s.loop.RunningDeferred? || s.loop.batch != [] then s
        else s.(loop := RunningTimers(Due(s.work.timers, s.now)),
                work := s.work.(timers := NotDue(s.work.timers, s.now)))
      case FireTimer =>
        if !s.loop.RunningTimers? || s.loop.due == [] then s
        else s.(loop := RunningTimers(s.loop.due[1..]),
                past := s.past.(timers := FiredNow(s.past.timers, s.loop.due[0], s.now)))
      case BeginDispatch =>
        if s.loop.RunningTimers? && s.loop.due == [] then s.(loop := Dispatching(s.ready)) else s
      case DispatchNext =>
        if !s.loop.Dispatching? then s
        else if s.loop.rest == [] || s.quitting then
          s.(loop := Top, past := s.past.(events := s.past.events.(dropped := s.past.events.dropped + s.loop.rest)))
        else
          var h := s.loop.rest[0];
          s.(loop := Dispatching(s.loop.rest[1..]),
             past := s.past.(events := Turned(s.past.events, h, h in s.tables.watches)))
  }

  /** A step that is not enabled changes nothing. */
  function Next(s: State, step: Step): State
  {
    match step
    case Tick(elapsed) => s.(now := s.now + elapsed)
    case Restart => s.(quitting := false)
    case Begin(t, call) => BeginCall(s, t, call)
    case Proceed(t) => ProceedCall(s, t)
    case Await(w) => AwaitStep(s, w)
    case Serve(v) => ServeStep(s, v)
  }

  function Run(s: State, steps: seq<Step>): State
    decreases |steps|
  {
    if steps == [] then s else Next(Run(s, steps[..|steps| - 1]), steps[|steps| - 1])
  }

  /** A new loop; timer ids start at 1. */
  const START := State(0, Work([], [], 1), Tables(map[], map[]), false, 0, [], map[], Top,
                       Past([], [], {}, TimerPast([], [], []), EventPast([], [], [], [], [])))
}
