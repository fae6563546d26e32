/** The calls made in a run, read off its steps, and what becomes of each of them. */
module LoopCalls {
  import opened Timers
  import opened LoopModel
  import opened LoopProofs

  /** The thread is in no call; the loop's own thread calls from a callback. */
  predicate Free(s: State, t: Thread) {
    && (t !in s.threads || s.threads[t] == Outside)
    && (t == LOOP ==> s.loop.RunningDeferred? || s.loop.RunningTimers? || s.loop.Dispatching?)
  }

  // ----- What was called --------------------------------------------------------------------------

  /** Functions deferred, in the order of the calls. */
  function DefersOf(s: State, steps: seq<Step>): (r: seq<Fn>)
    decreases |steps|
  {
    if steps == [] then []
    else
      var before, last := steps[..|steps| - 1], steps[|steps| - 1];
      DefersOf(s, before) +
      if last.Begin? && last.call.Defer? && Free(Run(s, before), last.t) then [last.call.fn] else []
  }

  /** Deadlines of the timers set, in the order of the calls. */
  function DeadlinesOf(s: State, steps: seq<Step>): (r: seq<int>)
    decreases |steps|
  {
    if steps == [] then []
    else
      var before, last := steps[..|steps| - 1], steps[|steps| - 1];
      DeadlinesOf(s, before) +
      if last.Begin? && last.call.SetTimeout? && Free(Run(s, before), last.t)
      then [Run(s, before).now + last.call.delay] else []
  }

  /** Events reported by the waits that returned. */
  function ReportsOf(s: State, steps: seq<Step>): (r: seq<int>)
    decreases |steps|
  {
    if steps == [] then []
    else
      var before, last := steps[..|steps| - 1], steps[|steps| - 1];
      ReportsOf(s, before) +
      if last.Await? && last.w.PollReturns? && Run(s, before).loop.Waiting? then last.w.ready else []
  }

  function Elapsed(steps: seq<Step>): (r: nat)
  {
    if steps == [] then 0
    else Elapsed(steps[..|steps| - 1]) + if steps[|steps| - 1].Tick? then steps[|steps| - 1].elapsed else 0
  }

  /** Pokes since the last drain of the wake channel that found one. */
  function PokesOf(s: State, steps: seq<Step>): (r: nat)
    decreases |steps|
  {
    if steps == [] then 0
    else
      var before, last := steps[..|steps| - 1], steps[|steps| - 1];
      var r := Run(s, before);
      if last == Await(DrainWake) && r.loop == Returned(true) then 0
      else PokesOf(s, before) + if last.Proceed? && last.t in r.threads && r.threads[last.t] == BeforePoke then 1 else 0
  }

  // ----- The lists of the loop hold what was called ----------------------------------------------------

  lemma NextDefers(s: State, step: Step)
    ensures Next(s, step).past.deferrals
         == s.past.deferrals + if step.Begin? && step.call.Defer? && Free(s, step.t) then [step.call.fn] else []
  {
    hide AnyInFlight;
  }

  lemma NextReports(s: State, step: Step)
    ensures Next(s, step).past.events.reported
         == s.past.events.reported + if step.Await? && step.w.PollReturns? && s.loop.Waiting? then step.w.ready else []
  {
    hide AnyInFlight;
  }

  lemma NextNow(s: State, step: Step)
    ensures Next(s, step).now == s.now + if step.Tick? then step.elapsed else 0
  {
    hide AnyInFlight;
  }

  lemma NextWake(s: State, step: Step)
    ensures Next(s, step).wake ==
      if step == Await(DrainWake) && s.loop == Returned(true) then 0
      else s.wake + if step.Proceed? && step.t in s.threads && s.threads[step.t] == BeforePoke then 1 else 0
  {
    hide AnyInFlight;
  }

  /** A wait that returns has seen the pokes that arrived; one that fails starts the iteration over. */
  lemma WaitOutcomes(s: State, ready: seq<int>)
    requires s.loop.Waiting?
    ensures Next(s, Await(PollReturns(ready))).loop == Returned(s.wake > 0)
    ensures var r := Next(s, Await(PollFails)); r.loop == Top && r.past == s.past && r.ready == s.ready
  {
  }

  /** What the loop recorded is what was called, reported and poked, in every run. */
  lemma {:induction false} RecordsAreCalls(steps: seq<Step>)
    ensures var s := Run(START, steps);
      && s.past.deferrals == DefersOf(START, steps)
      && s.past.events.reported == ReportsOf(START, steps)
      && s.now == Elapsed(steps) && s.wake == PokesOf(START, steps)
    decreases |steps|
  {
    hide Next;
    if steps != [] {
      var before, last := steps[..|steps| - 1], steps[|steps| - 1];
      RecordsAreCalls(before);
      NextDefers(Run(START, before), last);
      NextReports(Run(START, before), last);
      NextNow(Run(START, before), last);
      NextWake(Run(START, before), last);
    }
  }

  /** Every function deferred has run, in order, or is in the batch in progress or in the queue, in order. */
  lemma EveryDeferRuns(steps: seq<Step>)
    ensures var s := Run(START, steps);
      DefersOf(START, steps) == s.past.executed + Batch(s.loop) + s.work.deferred
  {
    RecordsAreCalls(steps);
    RunKeepsDefer(steps);
  }

  // ----- A pass takes all there is -----------------------------------------------------------------------

  /** Once the batch taken by a swap has been run, everything that was queued at the swap has run. */
  lemma PassRunsAllDeferred(s: State, steps: seq<Step>)
    requires s.loop.Awake? && LoopFree(s) && WithinPass(steps)
    ensures var r := Run(Next(s, Serve(Swap)), steps);
      && (!r.loop.RunningDeferred? || r.loop.batch == [] ==> r.past.executed == s.past.executed + s.work.deferred)
      && Next(s, Serve(Swap)).work.deferred == []
  {
    PassIsClosed(Next(s, Serve(Swap)), steps);
    var r := Run(Next(s, Serve(Swap)), steps);
    assert r.past.executed + [] == r.past.executed;
  }

  /** Once the timers taken by a harvest have fired, every timer due at the harvest has, in order, and no other. */
  lemma PassFiresAllDue(s: State, steps: seq<Step>)
    requires s.loop == RunningDeferred([]) && LoopFree(s) && WithinPass(steps)
    ensures var h := Next(s, Serve(Harvest));
      var r := Run(h, steps);
      && (!r.loop.RunningTimers? || r.loop.due == [] ==>
            r.past.timers.fired == s.past.timers.fired + Due(s.work.timers, s.now))
      && (forall x :: x in Due(s.work.timers, s.now) <==> x in s.work.timers && x.when <= s.now)
      && (forall x :: x in h.work.timers <==> x in s.work.timers && x.when > s.now)
  {
    var h := Next(s, Serve(Harvest));
    var r := Run(h, steps);
    PassIsClosed(h, steps);
    SelectFrom(s.work.timers, (t: Timer) => t.when <= s.now);
    SelectFrom(s.work.timers, (t: Timer) => t.when > s.now);
    assert r.past.timers.fired + [] == r.past.timers.fired;
  }

  // ----- Deadlines ---------------------------------------------------------------------------------------

  /** The timer has the deadline that its call gave it; ids count the calls from 1. */
  predicate Given(x: Timer, deadlines: seq<int>) {
    1 <= x.id <= |deadlines| && x.when == deadlines[x.id - 1]
  }

  predicate AllGiven(timers: seq<Timer>, deadlines: seq<int>) {
    forall i :: 0 <= i < |timers| ==> Given(timers[i], deadlines)
  }

  predicate DeadlineInv(s: State, deadlines: seq<int>) {
    && s.work.nextTimer == |deadlines| + 1
    && AllGiven(s.work.timers, deadlines) && AllGiven(DueBatch(s.loop), deadlines)
    && AllGiven(s.past.timers.cleared, deadlines) && AllGiven(s.past.timers.fired, deadlines)
  }

  lemma GivenGrows(timers: seq<Timer>, deadlines: seq<int>, more: seq<int>)
    requires AllGiven(timers, deadlines)
    ensures AllGiven(timers, deadlines + more)
  {
  }

  lemma GivenSelected(timers: seq<Timer>, keep: Timer -> bool, deadlines: seq<int>)
    requires AllGiven(timers, deadlines)
    ensures AllGiven(Select(timers, keep), deadlines)
  {
    SelectFrom(timers, keep);
    var kept := Select(timers, keep);
    forall i | 0 <= i < |kept| ensures Given(kept[i], deadlines) {
      assert kept[i] in kept;
    }
  }

  lemma SetTimeoutGives(s: State, t: Thread, delay: int, deadlines: seq<int>)
    requires DeadlineInv(s, deadlines)
    ensures DeadlineInv(Next(s, Begin(t, SetTimeout(delay))), deadlines + if Free(s, t) then [s.now + delay] else [])
  {
    hide AllGiven;
    if Free(s, t) {
      var more := [s.now + delay];
      GivenGrows(s.work.timers, deadlines, more);
      GivenGrows(DueBatch(s.loop), deadlines, more);
      GivenGrows(s.past.timers.cleared, deadlines, more);
      GivenGrows(s.past.timers.fired, deadlines, more);
      GivenSnoc(s.work.timers, Timer(s.work.nextTimer, s.now + delay), deadlines + more);
    } else {
      assert deadlines + [] == deadlines;
    }
  }

  lemma GivenSnoc(timers: seq<Timer>, x: Timer, deadlines: seq<int>)
    requires AllGiven(timers, deadlines) && Given(x, deadlines)
    ensures AllGiven(timers + [x], deadlines)
  {
  }

  lemma GivenJoined(a: seq<Timer>, b: seq<Timer>, deadlines: seq<int>)
    requires AllGiven(a, deadlines) && AllGiven(b, deadlines)
    ensures AllGiven(a + b, deadlines)
  {
  }

  lemma ClearTimeoutGives(s: State, t: Thread, id: nat, deadlines: seq<int>)
    requires DeadlineInv(s, deadlines)
    ensures DeadlineInv(Next(s, Begin(t, ClearTimeout(id))), deadlines)
  {
    hide AllGiven;
    GivenSelected(s.work.timers, (t: Timer) => t.id != id, deadlines);
    GivenSelected(s.work.timers, (t: Timer) => t.id == id, deadlines);
    GivenJoined(s.past.timers.cleared, WithId(s.work.timers, id), deadlines);
  }

  lemma HarvestGives(s: State, deadlines: seq<int>)
    requires DeadlineInv(s, deadlines)
    ensures DeadlineInv(Next(s, Serve(Harvest)), deadlines)
  {
    hide AllGiven;
    GivenSelected(s.work.timers, (t: Timer) => t.when <= s.now, deadlines);
    GivenSelected(s.work.timers, (t: Timer) => t.when > s.now, deadlines);
  }

  lemma FireGives(s: State, deadlines: seq<int>)
    requires DeadlineInv(s, deadlines)
    ensures DeadlineInv(Next(s, Serve(FireTimer)), deadlines)
  {
    if s.loop.RunningTimers? && s.loop.due != [] {
      var d := s.loop.due;
      assert Given(d[0], deadlines);
      GivenSnoc(s.past.timers.fired, d[0], deadlines);
      assert AllGiven(d[1..], deadlines);
    }
  }

  lemma NextGives(s: State, step: Step, deadlines: seq<int>)
    requires DeadlineInv(s, deadlines)
    ensures DeadlineInv(Next(s, step), deadlines +
      if step.Begin? && step.call.SetTimeout? && Free(s, step.t) then [s.now + step.call.delay] else [])
  {
    hide Next, AllGiven;
    assert deadlines + [] == deadlines;
    if step.Begin? && step.call.SetTimeout? {
      SetTimeoutGives(s, step.t, step.call.delay, deadlines);
    } else if step.Begin? && step.call.ClearTimeout? {
      ClearTimeoutGives(s, step.t, step.call.id, deadlines);
    } else if step == Serve(Harvest) {
      HarvestGives(s, deadlines);
    } else if step == Serve(FireTimer) {
      FireGives(s, deadlines);
    } else {
      OtherStepsFrame(s, step);
    }
  }

  lemma {:induction false} RunGives(steps: seq<Step>)
    ensures DeadlineInv(Run(START, steps), DeadlinesOf(START, steps))
    decreases |steps|
  {
    if steps != [] {
      hide DeadlineInv, Next;
      RunGives(steps[..|steps| - 1]);
      NextGives(Run(START, steps[..|steps| - 1]), steps[|steps| - 1], DeadlinesOf(START, steps[..|steps| - 1]));
    }
  }

  /** The timer that fires is one that was set, by its id, and not before the time of the call plus the delay. */
  lemma FiresWhenAsked(steps: seq<Step>, i: nat)
    requires i < |Run(START, steps).past.timers.fired|
    ensures var p := Run(START, steps).past.timers;
      var deadlines := DeadlinesOf(START, steps);
      && 1 <= p.fired[i].id <= |deadlines| && |p.firedAt| == |p.fired|
      && deadlines[p.fired[i].id - 1] <= p.firedAt[i]
  {
    hide Placed, Next, Run, DeadlinesOf;
    RunGives(steps);
    RunKeepsTimers(steps);
    assert Given(Run(START, steps).past.timers.fired[i], DeadlinesOf(START, steps));
  }

  // ----- Clearing and quitting ------------------------------------------------------------------------------

  lemma {:induction false} ClearedStays(s: State, steps: seq<Step>)
    ensures s.past.timers.cleared <= Run(s, steps).past.timers.cleared
    decreases |steps|
  {
    if steps != [] {
      ClearedStays(s, steps[..|steps| - 1]);
      ClearedGrows(Run(s, steps[..|steps| - 1]), steps[|steps| - 1]);
    }
  }

  lemma ClearedGrows(s: State, step: Step)
    ensures s.past.timers.cleared <= Next(s, step).past.timers.cleared
  {
    if !TouchesTimers(step) {
      hide Next;
      OtherStepsFrame(s, step);
    }
  }

  lemma IdIn(timers: seq<Timer>, id: nat) returns (i: nat)
    requires id in Ids(timers)
    ensures i < |timers| && timers[i].id == id
  {
    i :| 0 <= i < |IdList(timers)| && IdList(timers)[i] == id;
  }

  lemma WithoutIt(timers: seq<Timer>, id: nat)
    ensures id !in Ids(WithoutId(timers, id))
  {
    if id in Ids(WithoutId(timers, id)) {
      var i := IdIn(WithoutId(timers, id), id);
    }
  }

  /** A timer that is cleared before it was harvested never fires. */
  lemma ClearedNeverFires(steps: seq<Step>, t: Thread, id: nat, more: seq<Step>)
    requires var s := Run(START, steps);
      && Free(s, t) && 1 <= id < s.work.nextTimer
      && id !in Ids(DueBatch(s.loop)) && id !in Ids(s.past.timers.fired)
    ensures id !in Ids(Run(START, steps + [Begin(t, ClearTimeout(id))] + more).past.timers.fired)
  {
    hide Whereabouts, Next;
    var s := Run(START, steps);
    var clear := Begin(t, ClearTimeout(id));
    var c := Next(s, clear);
    var all := steps + [clear] + more;
    var r := Run(START, all);
    RunAppend(START, steps, [clear]);
    RunOne(s, clear);
    RunAppend(START, steps + [clear], more);
    RunKeepsTimers(steps + [clear]);
    RunKeepsTimers(all);
    ClearedIsRecorded(s, t, id);
    ClearedStays(c, more);
    var i := IdIn(c.past.timers.cleared, id);
    assert r.past.timers.cleared[i] == c.past.timers.cleared[i];
    InIds(r.past.timers.cleared, i);
    OnePlaceOnly(r, id);
  }

  lemma ClearedIsRecorded(s: State, t: Thread, id: nat)
    requires Free(s, t) && 1 <= id < s.work.nextTimer
    requires Placed(Next(s, Begin(t, ClearTimeout(id))))
    requires id !in Ids(DueBatch(s.loop)) && id !in Ids(s.past.timers.fired)
    ensures id in Ids(Next(s, Begin(t, ClearTimeout(id))).past.timers.cleared)
  {
    hide Ids, AnyInFlight;
    var c := Next(s, Begin(t, ClearTimeout(id)));
    WithoutIt(s.work.timers, id);
    assert Whereabouts(c)[id] == 1;
  }

  lemma OnePlaceOnly(r: State, id: nat)
    requires Placed(r) && id in Ids(r.past.timers.cleared)
    ensures id !in Ids(r.past.timers.fired)
  {
    hide Ids;
    assert Whereabouts(r)[id] <= 1;
  }

  lemma QuittingStays(s: State, step: Step)
    requires s.quitting && step != Restart
    ensures Next(s, step).quitting && (s.loop.Top? ==> Next(s, step).loop.Top?)
  {
    hide AnyInFlight;
  }

  /** After a quit, and until the loop is started again, a loop at the top of its iteration stays there. */
  lemma {:induction false} QuitStops(s: State, t: Thread, more: seq<Step>)
    requires Free(s, t) && forall i :: 0 <= i < |more| ==> more[i] != Restart
    ensures var r := Run(Next(s, Begin(t, Quit)), more); r.quitting && (s.loop.Top? ==> r.loop.Top?)
    decreases |more|
  {
    if more != [] {
      QuitStops(s, t, more[..|more| - 1]);
      QuittingStays(Run(Next(s, Begin(t, Quit)), more[..|more| - 1]), more[|more| - 1]);
    }
  }
}
