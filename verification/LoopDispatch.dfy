/** What the loop dispatches: as often as reported, and what an interrupted wait makes of old events. */
module LoopDispatch {
  import opened LoopTables
  import opened Timers
  import opened LoopModel
  import opened LoopProofs

  // ----- As often as reported -----------------------------------------------------------------

  /** Events that this iteration has still to dispatch. */
  function Undispatched(s: State): seq<int>
  {
    if s.loop.Returned? || s.loop.Awake? || s.loop.RunningDeferred? || s.loop.RunningTimers? then s.ready
    else if s.loop.Dispatching? then s.loop.rest
    else []
  }

  /** Every event reported or left over is dispatched, skipped, dropped or still to come, and no other is. */
  predicate Covered(p: EventPast, undispatched: seq<int>) {
    multiset(p.dispatched) + multiset(p.skipped) + multiset(p.dropped) + multiset(undispatched)
    == multiset(p.reported) + multiset(p.leftOver)
  }

  predicate DispatchInv(s: State) {
    Covered(s.past.events, Undispatched(s))
  }

  lemma CoveredMore(p: EventPast, ready: seq<int>)
    requires Covered(p, [])
    ensures Covered(p.(reported := p.reported + ready), ready)
    ensures Covered(p.(leftOver := p.leftOver + ready), ready)
  {
    var r, l, x := multiset(p.reported), multiset(p.leftOver), multiset(ready);
    var d := multiset(p.dispatched) + multiset(p.skipped) + multiset(p.dropped);
    assert multiset(p.reported + ready) == r + x && multiset(p.leftOver + ready) == l + x;
    assert d + multiset([]) == d;
    assert (r + x) + l == (r + l) + x && r + (l + x) == (r + l) + x;
  }

  /** The turn of the first event, and the end of the loop. */
  lemma CoveredLess(p: EventPast, undispatched: seq<int>, watched: bool)
    requires Covered(p, undispatched)
    ensures Covered(p.(dropped := p.dropped + undispatched), [])
    ensures undispatched != [] ==> Covered(Turned(p, undispatched[0], watched), undispatched[1..])
  {
    var d, k, o, u := multiset(p.dispatched), multiset(p.skipped), multiset(p.dropped), multiset(undispatched);
    assert multiset(p.dropped + undispatched) == o + u;
    assert d + k + (o + u) + multiset([]) == d + k + o + u;
    if undispatched != [] {
      var h, rest := undispatched[0], undispatched[1..];
      assert undispatched == [h] + rest;
      assert u == multiset{h} + multiset(rest);
      assert multiset(p.dispatched + [h]) == d + multiset{h} && multiset(p.skipped + [h]) == k + multiset{h};
      assert (d + multiset{h}) + k + o + multiset(rest) == d + k + o + (multiset{h} + multiset(rest));
      assert d + (k + multiset{h}) + o + multiset(rest) == d + k + o + (multiset{h} + multiset(rest));
    }
  }

  lemma CallsKeepEvents(s: State, step: Step)
    requires !step.Await? && !step.Serve?
    ensures Next(s, step).past.events == s.past.events && Undispatched(Next(s, step)) == Undispatched(s)
  {
  }

  lemma AwaitKeepsDispatch(s: State, w: Waiter)
    requires DispatchInv(s)
    ensures DispatchInv(AwaitStep(s, w))
  {
    hide Covered;
    if s.loop.Waiting? {
      CoveredMore(s.past.events, if w.PollReturns? then w.ready else s.ready);
    }
  }

  lemma ServeKeepsDispatch(s: State, v: Server)
    requires DispatchInv(s)
    ensures DispatchInv(ServeStep(s, v))
  {
    hide Covered;
    if s.loop.Dispatching? {
      CoveredLess(s.past.events, s.loop.rest, s.loop.rest != [] && s.loop.rest[0] in s.tables.watches);
    }
  }

  lemma NextKeepsDispatch(s: State, step: Step)
    requires DispatchInv(s)
    ensures DispatchInv(Next(s, step))
  {
    match step
    case Await(w) => AwaitKeepsDispatch(s, w);
    case Serve(v) => ServeKeepsDispatch(s, v);
    case _ =>
      hide Next;
      CallsKeepEvents(s, step);
  }

  lemma {:induction false} RunKeepsDispatch(steps: seq<Step>)
    ensures DispatchInv(Run(START, steps))
    decreases |steps|
  {
    if steps != [] {
      RunKeepsDispatch(steps[..|steps| - 1]);
      NextKeepsDispatch(Run(START, steps[..|steps| - 1]), steps[|steps| - 1]);
    }
  }

  /**
   * Events are conserved in every run: each one reported, or found left over at an interrupted wait,
   * is dispatched, skipped because its handle was not watched at its turn, dropped because of
   * quitting, or still to come; and nothing else is dispatched.
   */
  lemma DispatchedAsReported(steps: seq<Step>)
    ensures var s := Run(START, steps);
      var p := s.past.events;
      multiset(p.reported) + multiset(p.leftOver)
      == multiset(p.dispatched) + multiset(p.skipped) + multiset(p.dropped) + multiset(Undispatched(s))
  {
    RunKeepsDispatch(steps);
  }

  predicate NeverInterrupted(steps: seq<Step>) {
    forall i :: 0 <= i < |steps| ==> steps[i] != Await(PollInterrupted)
  }

  lemma {:induction false} NothingLeftOver(steps: seq<Step>)
    requires NeverInterrupted(steps)
    ensures Run(START, steps).past.events.leftOver == []
    decreases |steps|
  {
    if steps != [] {
      NothingLeftOver(steps[..|steps| - 1]);
      LeftOverOnlyByInterrupt(Run(START, steps[..|steps| - 1]), steps[|steps| - 1]);
    }
  }

  lemma LeftOverOnlyByInterrupt(s: State, step: Step)
    requires step != Await(PollInterrupted)
    ensures Next(s, step).past.events.leftOver == s.past.events.leftOver
  {
  }

  /** In a loop whose waits are never interrupted these are the reported events, each once. */
  lemma UninterruptedDispatch(steps: seq<Step>)
    requires NeverInterrupted(steps)
    ensures var s := Run(START, steps);
      var p := s.past.events;
      multiset(p.reported)
      == multiset(p.dispatched) + multiset(p.skipped) + multiset(p.dropped) + multiset(Undispatched(s))
  {
    NothingLeftOver(steps);
    DispatchedAsReported(steps);
    var p := Run(START, steps).past.events;
    assert multiset(p.reported) + multiset(p.leftOver) == multiset(p.reported);
  }

  // ----- A pass over the events ---------------------------------------------------------------------

  /** A turn: the event, and whether its handle was watched then. */
  datatype Turn = Turn(h: int, watched: bool)

  /** The turn that the step gives to an event. */
  function TurnOf(s: State, step: Step): seq<Turn>
  {
    if step == Serve(DispatchNext) && LoopFree(s) && s.loop.Dispatching? && s.loop.rest != [] && !s.quitting
    then [Turn(s.loop.rest[0], s.loop.rest[0] in s.tables.watches)] else []
  }

  function Turns(s: State, steps: seq<Step>): (r: seq<Turn>)
    decreases |steps|
  {
    if steps == [] then []
    else
      var before := steps[..|steps| - 1];
      Turns(s, before) + TurnOf(Run(s, before), steps[|steps| - 1])
  }

  function Handles(turns: seq<Turn>): (r: seq<int>)
    ensures |r| == |turns|
  {
    if turns == [] then [] else Handles(turns[..|turns| - 1]) + [turns[|turns| - 1].h]
  }

  function Watched(turns: seq<Turn>): (r: seq<int>)
  {
    if turns == [] then []
    else Watched(turns[..|turns| - 1]) + if turns[|turns| - 1].watched then [turns[|turns| - 1].h] else []
  }

  lemma TurnsSnoc(turns: seq<Turn>, more: seq<Turn>)
    requires |more| <= 1
    ensures Handles(turns + more) == Handles(turns) + if more == [] then [] else [more[0].h]
    ensures Watched(turns + more) == Watched(turns) + if more != [] && more[0].watched then [more[0].h] else []
  {
    if more == [] {
      assert turns + more == turns && Handles(turns) + [] == Handles(turns) && Watched(turns) + [] == Watched(turns);
    } else {
      assert (turns + more)[..|turns|] == turns;
    }
  }

  predicate SamePass(steps: seq<Step>) {
    forall i :: 0 <= i < |steps| ==> steps[i] != Serve(BeginDispatch)
  }

  /** Where the pass is: its turns so far are the front of its list, and the watched ones were dispatched. */
  predicate Passing(s: State, r: State, turns: seq<Turn>) {
    && s.loop.Dispatching?
    && r.past.events.dispatched == s.past.events.dispatched + Watched(turns)
    && s.past.events.dropped <= r.past.events.dropped
    && (r.loop.Dispatching? ==>
          Handles(turns) + r.loop.rest == s.loop.rest && r.past.events.dropped == s.past.events.dropped)
    && (!r.loop.Dispatching? ==>
          && Handles(turns) + r.past.events.dropped[|s.past.events.dropped|..] == s.loop.rest)
  }

  lemma OthersKeepPass(r: State, step: Step)
    requires step != Serve(DispatchNext) && step != Serve(BeginDispatch)
    ensures var r' := Next(r, step);
      && r'.past.events.dispatched == r.past.events.dispatched && r'.past.events.dropped == r.past.events.dropped
      && (r'.loop.Dispatching? <==> r.loop.Dispatching?) && (r.loop.Dispatching? ==> r'.loop == r.loop)
      && TurnOf(r, step) == []
  {
    match step
    case Begin(t, call) => CallsKeepLoop(r, t, call);
    case Serve(v) => hide BeginCall, AwaitStep;
    case _ => hide BeginCall, ServeStep;
  }

  lemma CallsKeepLoop(s: State, t: Thread, call: Call)
    ensures var r := BeginCall(s, t, call); r.loop == s.loop && r.past.events == s.past.events
  {
    hide AnyInFlight, WithId, WithoutId;
  }

  lemma StepPasses(s: State, r: State, turns: seq<Turn>, step: Step)
    requires Passing(s, r, turns) && step != Serve(BeginDispatch)
    ensures Passing(s, Next(r, step), turns + TurnOf(r, step))
  {
    hide Handles, Watched;
    TurnsSnoc(turns, TurnOf(r, step));
    if step == Serve(DispatchNext) {
      DispatchPasses(s, r, turns);
    } else {
      hide Next;
      OthersKeepPass(r, step);
      assert turns + [] == turns;
    }
  }

  lemma DispatchPasses(s: State, r: State, turns: seq<Turn>)
    requires Passing(s, r, turns)
    ensures Passing(s, Next(r, Serve(DispatchNext)), turns + TurnOf(r, Serve(DispatchNext)))
  {
    hide Handles, Watched, BeginCall, AwaitStep;
    TurnsSnoc(turns, TurnOf(r, Serve(DispatchNext)));
    if r.loop.Dispatching? && LoopFree(r) {
      if r.loop.rest == [] || r.quitting {
        assert turns + [] == turns;
        assert (r.past.events.dropped + r.loop.rest)[|s.past.events.dropped|..] == r.loop.rest;
      } else {
        var h, rest := r.loop.rest[0], r.loop.rest[1..];
        assert r.loop.rest == [h] + rest;
        assert (Handles(turns) + [h]) + rest == Handles(turns) + ([h] + rest);
        assert r.past.events.dispatched + [h] == s.past.events.dispatched + (Watched(turns) + [h]);
      }
    } else {
      assert turns + [] == turns;
    }
  }

  lemma {:induction false} RunKeepsPass(s: State, steps: seq<Step>)
    requires s.loop.Dispatching? && SamePass(steps)
    ensures Passing(s, Run(s, steps), Turns(s, steps))
    decreases |steps|
  {
    if steps == [] {
      assert [] + s.loop.rest == s.loop.rest;
      assert s.past.events.dispatched + [] == s.past.events.dispatched;
    } else {
      hide Passing;
      var before := steps[..|steps| - 1];
      RunKeepsPass(s, before);
      StepPasses(s, Run(s, before), Turns(s, before), steps[|steps| - 1]);
    }
  }

  /**
   * A pass, whatever threads and callbacks do meanwhile: it gives the events of its list their turns in
   * order, dispatches exactly those whose handle is watched then, and, unless it stops for quitting,
   * leaves none out.
   */
  lemma PassDispatchesAll(s: State, steps: seq<Step>)
    requires s.loop.Dispatching? && SamePass(steps)
    ensures var r := Run(s, steps);
      var turns := Turns(s, steps);
      && r.past.events.dispatched == s.past.events.dispatched + Watched(turns)
      && (r.loop.Dispatching? ==> Handles(turns) + r.loop.rest == s.loop.rest)
    ensures var r := Run(s, steps);
      r.loop.Dispatching? && LoopFree(r) && !r.quitting && Next(r, Serve(DispatchNext)).loop.Top? ==>
        Handles(Turns(s, steps)) == s.loop.rest
  {
    RunKeepsPass(s, steps);
    hide Handles;
    var r := Run(s, steps);
    if r.loop.Dispatching? && LoopFree(r) && !r.quitting && Next(r, Serve(DispatchNext)).loop.Top? {
      assert r.loop.rest == [];
    }
  }

  // ----- After an interrupted wait ---------------------------------------------------------------

  predicate NoAwait(steps: seq<Step>) {
    forall i :: 0 <= i < |steps| ==> !steps[i].Await?
  }

  /** The rest of the iteration, with the steps of any threads, dispatches an event. */
  ghost predicate MayDispatch(s: State) {
    exists rest :: NoAwait(rest) && Run(s, rest).past.events.dispatched != s.past.events.dispatched
  }

  /** Nothing is left to dispatch before the next wait. */
  predicate Exhausted(s: State) {
    s.ready == [] && Undispatched(s) == []
  }

  lemma ServeKeepsExhausted(s: State, v: Server)
    requires Exhausted(s)
    ensures Exhausted(ServeStep(s, v)) && ServeStep(s, v).past.events == s.past.events
  {
  }

  lemma CallsKeepExhausted(s: State, step: Step)
    requires Exhausted(s) && !step.Await? && !step.Serve?
    ensures Exhausted(Next(s, step)) && Next(s, step).past.events == s.past.events
  {
    CallsKeepEvents(s, step);
  }

  lemma {:induction false} ExhaustedDispatchesNothing(s: State, rest: seq<Step>)
    requires Exhausted(s) && NoAwait(rest)
    ensures Exhausted(Run(s, rest)) && Run(s, rest).past.events == s.past.events
    decreases |rest|
  {
    hide Exhausted;
    if rest != [] {
      ExhaustedDispatchesNothing(s, rest[..|rest| - 1]);
      var before, step := Run(s, rest[..|rest| - 1]), rest[|rest| - 1];
      if step.Serve? {
        ServeKeepsExhausted(before, step.v);
      } else {
        CallsKeepExhausted(before, step);
      }
    }
  }

  /** The loop thread is between callbacks, with the same events as in `s`. */
  predicate Carried(s: State, r: State) {
    LoopFree(r) && r.ready == s.ready && r.past.events == s.past.events
  }

  lemma NoAwaitAppend(a: seq<Step>, b: seq<Step>)
    requires NoAwait(a) && NoAwait(b)
    ensures NoAwait(a + b)
  {
  }

  /** The batch of deferred functions runs to its end. */
  lemma {:induction false} RunBatch(s: State) returns (rest: seq<Step>)
    requires LoopFree(s) && s.loop.RunningDeferred?
    ensures NoAwait(rest) && Carried(s, Run(s, rest)) && Run(s, rest).loop == RunningDeferred([])
    decreases |Batch(s.loop)|
  {
    if s.loop.batch == [] {
      rest := [];
    } else {
      var more := RunBatch(Next(s, Serve(RunDeferred)));
      rest := [Serve(RunDeferred)] + more;
      RunFirst(s, rest);
      assert rest[1..] == more;
    }
  }

  /** The due timers fire to the last. */
  lemma {:induction false} FireBatch(s: State) returns (rest: seq<Step>)
    requires LoopFree(s) && s.loop.RunningTimers?
    ensures NoAwait(rest) && Carried(s, Run(s, rest)) && Run(s, rest).loop == RunningTimers([])
    decreases |DueBatch(s.loop)|
  {
    if s.loop.due == [] {
      rest := [];
    } else {
      var more := FireBatch(Next(s, Serve(FireTimer)));
      rest := [Serve(FireTimer)] + more;
      RunFirst(s, rest);
      assert rest[1..] == more;
    }
  }

  /** From the end of the wait to the dispatch loop. */
  lemma ReachDispatch(s: State) returns (rest: seq<Step>)
    requires LoopFree(s) && s.loop.Awake?
    ensures NoAwait(rest) && Carried(s, Run(s, rest)) && Run(s, rest).loop == Dispatching(s.ready)
  {
    var swapped := Next(s, Serve(Swap));
    var batch := RunBatch(swapped);
    var harvested := Next(Run(swapped, batch), Serve(Harvest));
    var fire := FireBatch(harvested);
    var fired := Run(harvested, fire);
    var first, second := [Serve(Swap)] + batch + [Serve(Harvest)], fire + [Serve(BeginDispatch)];
    rest := first + second;
    assert fired.loop == RunningTimers([]);
    assert Next(fired, Serve(BeginDispatch)).loop == Dispatching(fired.ready);
    assert Carried(s, Next(fired, Serve(BeginDispatch)));
    hide Next, Carried;
    RunOne(s, Serve(Swap));
    RunAppend(s, [Serve(Swap)], batch);
    RunOne(Run(swapped, batch), Serve(Harvest));
    RunAppend(s, [Serve(Swap)] + batch, [Serve(Harvest)]);
    RunOne(fired, Serve(BeginDispatch));
    RunAppend(harvested, fire, [Serve(BeginDispatch)]);
    RunAppend(s, first, second);
  }

  /** Some thread that is in no call. */
  lemma IdleThread(s: State) returns (t: Thread)
    ensures t !in s.threads && t != LOOP
  {
    t := Above(s.threads.Keys);
  }

  lemma {:induction false} Above(threads: set<Thread>) returns (t: Thread)
    ensures t != LOOP && forall u :: u in threads ==> u < t
    decreases |threads|
  {
    if threads == {} {
      t := 1;
    } else {
      var u :| u in threads;
      var below := Above(threads - {u});
      t := if u >= below then u + 1 else below;
      forall v | v in threads ensures v < t {
        assert v != u ==> v in threads - {u};
      }
    }
  }

  /** A thread that is in no call watches the handle. */
  lemma AnotherWatches(s: State, t: Thread, h: int)
    requires LoopFree(s) && t !in s.threads && t != LOOP
    ensures var r := Run(s, [Begin(t, ChangeWatch(Add(h, READ))), Proceed(t), Proceed(t)]);
      LoopFree(r) && r.loop == s.loop && h in r.tables.watches && r.past.events == s.past.events
  {
    hide AnyInFlight, AwaitStep, ServeStep;
    RunThree(s, [Begin(t, ChangeWatch(Add(h, READ))), Proceed(t), Proceed(t)]);
  }

  /** The loop is started again if it was quitting, and the first event is dispatched. */
  lemma RestartDispatches(s: State)
    requires LoopFree(s) && s.loop.Dispatching? && s.loop.rest != [] && s.loop.rest[0] in s.tables.watches
    ensures Run(s, [Restart, Serve(DispatchNext)]).past.events == Turned(s.past.events, s.loop.rest[0], true)
  {
    RunFirst(s, [Restart, Serve(DispatchNext)]);
    RunOne(Next(s, Restart), Serve(DispatchNext));
  }

  /** A loop thread that comes back from a wait with an event in its list can dispatch it. */
  lemma AwakeMayDispatch(s: State)
    requires LoopFree(s) && s.loop.Awake? && s.ready != []
    ensures MayDispatch(s)
  {
    hide Next;
    var reach := ReachDispatch(s);
    var r := Run(s, reach);
    var h := s.ready[0];
    var t := IdleThread(r);
    var watch := [Begin(t, ChangeWatch(Add(h, READ))), Proceed(t), Proceed(t)];
    var last := [Restart, Serve(DispatchNext)];
    AnotherWatches(r, t, h);
    RestartDispatches(Run(r, watch));
    RunAppend(s, reach, watch);
    RunAppend(s, reach + watch, last);
    NoAwaitAppend(reach, watch);
    NoAwaitAppend(reach + watch, last);
  }

  /**
   * Over every run: after an interrupted wait, which reports nothing, the iteration can dispatch an
   * event exactly when the list of an earlier wait was not empty.
   */
  lemma InterruptedWaitExact(steps: seq<Step>)
    requires Run(START, steps).loop.Waiting?
    ensures var s := Run(START, steps); MayDispatch(Next(s, Await(PollInterrupted))) <==> s.ready != []
    ensures var s := Run(START, steps); Next(s, Await(PollInterrupted)).past.events.reported == s.past.events.reported
  {
    var s := Run(START, steps);
    var woken := Next(s, Await(PollInterrupted));
    RunKeepsWake(steps);
    if s.ready != [] {
      AwakeMayDispatch(woken);
    } else {
      forall rest | NoAwait(rest) ensures Run(woken, rest).past.events == woken.past.events {
        ExhaustedDispatchesNothing(woken, rest);
      }
    }
  }

  // ----- A run that dispatches an event twice -----------------------------------------------------

  /** Descriptor 5 is watched, and there is nothing else to do. */
  predicate OnlyFive(s: State) {
    LoopFree(s) && !s.quitting && s.work.deferred == [] && s.work.timers == [] && 5 in s.tables.watches
  }

  const TO_WAIT: seq<Step> := [Await(TestQuitting), Await(Choose), Await(Snapshot)]
  const TO_DISPATCH: seq<Step> := [Serve(Swap), Serve(Harvest), Serve(BeginDispatch)]

  lemma WatchFive()
    ensures var s := Run(START, [Begin(1, ChangeWatch(Add(5, READ))), Proceed(1), Proceed(1)]);
      OnlyFive(s) && s.loop.Top? && s.past.events == EventPast([], [], [], [], [])
  {
    RunThree(START, [Begin(1, ChangeWatch(Add(5, READ))), Proceed(1), Proceed(1)]);
  }

  lemma ToWait(s: State)
    requires OnlyFive(s) && s.loop.Top?
    ensures var r := Run(s, TO_WAIT);
      OnlyFive(r) && r.loop.Waiting? && r.ready == s.ready && r.past.events == s.past.events
  {
    RunThree(s, TO_WAIT);
  }

  lemma ToDispatch(s: State)
    requires OnlyFive(s) && s.loop.Awake?
    ensures var r := Run(s, TO_DISPATCH);
      OnlyFive(r) && r.loop == Dispatching(s.ready) && r.ready == s.ready && r.past.events == s.past.events
  {
    RunThree(s, TO_DISPATCH);
  }

  lemma DispatchFive(s: State)
    requires OnlyFive(s) && s.loop == Dispatching([5])
    ensures var r := Run(s, [Serve(DispatchNext), Serve(DispatchNext)]);
      && OnlyFive(r) && r.loop.Top? && r.ready == s.ready
      && r.past.events == Turned(s.past.events, 5, true)
  {
    RunFirst(s, [Serve(DispatchNext), Serve(DispatchNext)]);
    RunOne(Next(s, Serve(DispatchNext)), Serve(DispatchNext));
  }

  /** From the end of a wait with the one event in the list to the next wait. */
  lemma ServeFive(s: State)
    requires OnlyFive(s) && s.loop.Awake? && s.ready == [5]
    ensures var r := Run(s, TO_DISPATCH + [Serve(DispatchNext), Serve(DispatchNext)] + TO_WAIT);
      && OnlyFive(r) && r.loop.Waiting? && r.ready == [5]
      && r.past.events == Turned(s.past.events, 5, true)
  {
    hide Next;
    var next := [Serve(DispatchNext), Serve(DispatchNext)];
    ToDispatch(s);
    DispatchFive(Run(s, TO_DISPATCH));
    RunAppend(s, TO_DISPATCH, next);
    ToWait(Run(s, TO_DISPATCH + next));
    RunAppend(s, TO_DISPATCH + next, TO_WAIT);
  }

  /** The poller reports an event once; the next wait is interrupted; the event is dispatched twice. */
  lemma DispatchedTwice() returns (steps: seq<Step>)
    ensures Run(START, steps).past.events.reported == [5] && Run(START, steps).past.events.dispatched == [5, 5]
  {
    var watch := [Begin(1, ChangeWatch(Add(5, READ))), Proceed(1), Proceed(1)];
    var serve := TO_DISPATCH + [Serve(DispatchNext), Serve(DispatchNext)] + TO_WAIT;
    var report := [Await(PollReturns([5])), Await(DrainWake)];
    WatchFive();
    var s1 := Run(START, watch);
    ToWait(s1);
    var s2 := Run(s1, TO_WAIT);
    var s3 := Next(Next(s2, report[0]), report[1]);
    assert OnlyFive(s3) && s3.loop.Awake? && s3.ready == [5] && s3.past.events == EventPast([5], [], [], [], []);
    ServeFive(s3);
    var s4 := Run(s3, serve);
    var s5 := Next(s4, Await(PollInterrupted));
    assert OnlyFive(s5) && s5.loop.Awake? && s5.ready == [5];
    ServeFive(s5);
    var s6 := Run(s5, serve);
    assert s6.past.events.dispatched == [5, 5];
    hide Next;
    steps := watch + TO_WAIT + report + serve + [Await(PollInterrupted)] + serve;
    RunAppend(START, watch, TO_WAIT);
    RunFirst(s2, report);
    RunOne(Next(s2, report[0]), report[1]);
    RunAppend(START, watch + TO_WAIT, report);
    RunAppend(START, watch + TO_WAIT + report, serve);
    RunOne(s4, Await(PollInterrupted));
    RunAppend(START, watch + TO_WAIT + report + serve, [Await(PollInterrupted)]);
    RunAppend(START, watch + TO_WAIT + report + serve + [Await(PollInterrupted)], serve);
  }
}
