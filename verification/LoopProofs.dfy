/** What every interleaving of the event loop with any threads keeps. */
module LoopProofs {
  import opened Wire
  import opened LoopTables
  import opened Timers
  import opened LoopModel

  lemma {:induction false} RunAppend(s: State, a: seq<Step>, b: seq<Step>)
    ensures Run(s, a + b) == Run(Run(s, a), b)
    decreases |b|
  {
    hide Next;
    if b == [] {
      assert a + b == a;
    } else {
      RunAppend(s, a, b[..|b| - 1]);
      assert (a + b)[..|a + b| - 1] == a + b[..|b| - 1];
    }
  }

  lemma RunOne(s: State, step: Step)
    ensures Run(s, [step]) == Next(s, step)
  {
    assert [step][..0] == [];
  }

  /** The first step, then the others. */
  lemma RunFirst(s: State, steps: seq<Step>)
    requires steps != []
    ensures Run(s, steps) == Run(Next(s, steps[0]), steps[1..])
  {
    hide Next;
    assert steps == [steps[0]] + steps[1..];
    RunAppend(s, [steps[0]], steps[1..]);
    RunOne(s, steps[0]);
  }

  lemma RunThree(s: State, steps: seq<Step>)
    requires |steps| == 3
    ensures Run(s, steps) == Next(Next(Next(s, steps[0]), steps[1]), steps[2])
  {
    hide Next;
    RunFirst(s, steps);
    RunFirst(Next(s, steps[0]), steps[1..]);
    RunOne(Next(Next(s, steps[0]), steps[1]), steps[2]);
    assert steps[1..][1..] == [steps[2]];
  }

  lemma RunSix(s: State, steps: seq<Step>)
    requires |steps| == 6
    ensures Run(s, steps)
         == Next(Next(Next(Next(Next(Next(s, steps[0]), steps[1]), steps[2]), steps[3]), steps[4]), steps[5])
  {
    hide Next;
    RunThree(s, steps[..3]);
    RunThree(Run(s, steps[..3]), steps[3..]);
    RunAppend(s, steps[..3], steps[3..]);
    assert steps[..3] + steps[3..] == steps;
  }

  // ----- No lost wake-up ----------------------------------------------------------------

  /** A thread other than the loop's is between its change and its poke. */
  ghost predicate MidCall(s: State) {
    exists t :: t in s.threads && t != LOOP && !s.threads[t].Outside?
  }

  /** The next wait, or the one in progress, will not block: a poke has arrived or is on its way. */
  ghost predicate Signalled(s: State) {
    s.wake > 0 || MidCall(s)
  }

  predicate Quiet(s: State) {
    !Calling(s.loop) ==> LoopFree(s)
  }

  /** No timer is due before the deadlines that the timeout was computed from. */
  predicate NoneEarlier(timers: seq<Timer>, c: Choice) {
    forall i :: 0 <= i < |timers| ==> c.soonest.Some? && c.soonest.value <= timers[i].when
  }

  ghost predicate ChoiceHolds(s: State, c: Choice) {
    && (c.ms.None? ==> c.soonest.None?)
    && (Signalled(s) || c.ms == Some(0) || s.work.deferred == [])
    && (Signalled(s) || NoneEarlier(s.work.timers, c))
  }

  ghost predicate WakeInv(s: State) {
    && Quiet(s)
    && (s.loop.Tested? || s.loop.Chosen? || s.loop.Waiting? ==> s.quitting ==> Signalled(s))
    && (s.loop.Chosen? || s.loop.Waiting? ==> ChoiceHolds(s, s.loop.choice))
    && (s.loop.Waiting? ==> s.loop.snapshot == s.tables.fds || Signalled(s))
  }

  lemma MidCallBy(s: State, t: Thread)
    requires t in s.threads && t != LOOP && !s.threads[t].Outside?
    ensures Signalled(s)
  {
  }

  lemma BeginKeepsWake(s: State, t: Thread, call: Call)
    requires WakeInv(s)
    ensures WakeInv(BeginCall(s, t, call))
  {
    var s' := BeginCall(s, t, call);
    if MayCall(s, t) && !Calling(s.loop) {
      if call.ClearTimeout? {
        SelectFrom(s.work.timers, (t: Timer) => t.id != call.id);
        assert forall t :: t in s'.work.timers ==> t in s.work.timers;
        assert Signalled(s) ==> Signalled(s');
      } else if s' != s {
        MidCallBy(s', t);
      }
    }
  }

  lemma ProceedKeepsWake(s: State, t: Thread)
    requires WakeInv(s)
    ensures WakeInv(ProceedCall(s, t))
  {
    if PhaseOf(s, t).BeforePoller? && !Calling(s.loop) {
      MidCallBy(ProceedCall(s, t), t);
    }
  }

  lemma SameSignals(s: State, s': State)
    requires s'.threads == s.threads && s'.wake == s.wake
    ensures Signalled(s') == Signalled(s)
  {
    assert MidCall(s') == MidCall(s);
  }

  lemma ChoiceMadeHolds(s: State)
    ensures ChoiceHolds(s, ChoiceIn(s))
  {
    var timers := s.work.timers;
    if timers != [] {
      assert forall i :: 0 <= i < |timers| ==> Soonest(timers) <= timers[i].when;
    }
  }

  lemma SameWorkKeepsChoice(s: State, s': State, c: Choice)
    requires ChoiceHolds(s, c) && s'.threads == s.threads && s'.wake == s.wake && s'.work == s.work
    ensures ChoiceHolds(s', c)
  {
    SameSignals(s, s');
    hide Signalled;
  }

  lemma AwaitKeepsWake(s: State, w: Waiter)
    requires WakeInv(s)
    ensures WakeInv(AwaitStep(s, w))
  {
    var s' := AwaitStep(s, w);
    hide ChoiceHolds, Signalled, Soonest;
    if s'.loop.Tested? || s'.loop.Chosen? || s'.loop.Waiting? {
      SameSignals(s, s');
      if w.Choose? {
        ChoiceMadeHolds(s);
        SameWorkKeepsChoice(s, s', ChoiceIn(s));
      }
      if s.loop.Chosen? || s.loop.Waiting? {
        SameWorkKeepsChoice(s, s', s.loop.choice);
      }
    }
  }

  lemma IdleStepKeepsWake(s: State, step: Step)
    requires WakeInv(s) && (step.Tick? || step.Restart?)
    ensures WakeInv(Next(s, step))
  {
    var s' := Next(s, step);
    SameSignals(s, s');
    hide ChoiceHolds, Signalled;
    if s.loop.Chosen? || s.loop.Waiting? {
      SameWorkKeepsChoice(s, s', s.loop.choice);
    }
  }

  lemma NextKeepsWake(s: State, step: Step)
    requires WakeInv(s)
    ensures WakeInv(Next(s, step))
  {
    match step
    case Begin(t, call) => BeginKeepsWake(s, t, call);
    case Proceed(t) => ProceedKeepsWake(s, t);
    case Await(w) => AwaitKeepsWake(s, w);
    case Serve(v) =>
    case _ => IdleStepKeepsWake(s, step);
  }

  lemma {:induction false} RunKeepsWake(steps: seq<Step>)
    ensures WakeInv(Run(START, steps))
    decreases |steps|
  {
    if steps != [] {
      RunKeepsWake(steps[..|steps| - 1]);
      NextKeepsWake(Run(START, steps[..|steps| - 1]), steps[|steps| - 1]);
    }
  }

  // ----- The two tables ---------------------------------------------------------------------

  predicate AgreeAt(t: Tables, h: int) {
    && (h in t.watches <==> h in t.fds)
    && (h in t.watches ==> t.watches[h] == t.fds[h])
  }

  /** The poller's step will make the tables agree at the handle of the change. */
  predicate WillAgree(t: Tables, c: Change) {
    match c
    case Add(h, i) => h in t.watches && t.watches[h] == i
    case Update(h, i) => h in t.watches && t.watches[h] == i && h in t.fds
    case Drop(h) => h !in t.watches
  }

  ghost predicate TableInv(s: State) {
    && (forall h :: h !in s.past.raced && !AnyInFlight(s, h) ==> AgreeAt(s.tables, h))
    && (forall t :: t in s.threads && s.threads[t].BeforePoller? && s.threads[t].change.handle !in s.past.raced ==>
          WillAgree(s.tables, s.threads[t].change))
    && (forall t, u, h :: t != u && InFlight(s, t, h) && InFlight(s, u, h) ==> h in s.past.raced)
  }

  lemma BeginChangeKeepsTables(s: State, t: Thread, c: Change)
    requires TableInv(s) && PhaseOf(s, t).Outside?
    ensures TableInv(BeginChange(s, t, c))
  {
    var s' := BeginChange(s, t, c);
    if s' == s {
      return;
    }
    assert InFlight(s', t, c.handle);
    forall h | h !in s'.past.raced && !AnyInFlight(s', h) ensures AgreeAt(s'.tables, h) {
      assert h != c.handle;
      assert !AnyInFlight(s, h) by {
        forall u | u in s.threads ensures !InFlight(s, u, h) {
          assert !InFlight(s', u, h);
        }
      }
      assert AgreeAt(s.tables, h);
    }
    assert c.handle !in s'.past.raced ==> AgreeAt(s.tables, c.handle);
    forall u, v, h | u != v && InFlight(s', u, h) && InFlight(s', v, h) ensures h in s'.past.raced {
      assert u != t ==> InFlight(s, u, h);
      assert v != t ==> InFlight(s, v, h);
    }
  }

  lemma ChangePollerKeepsTables(s: State, t: Thread)
    requires TableInv(s) && t in s.threads && s.threads[t].BeforePoller?
    ensures TableInv(ProceedCall(s, t))
  {
    var s' := ProceedCall(s, t);
    var c := s.threads[t].change;
    assert forall u, h :: InFlight(s', u, h) ==> InFlight(s, u, h);
    forall h | h !in s'.past.raced && !AnyInFlight(s', h) ensures AgreeAt(s'.tables, h) {
      if h == c.handle {
        assert WillAgree(s.tables, c);
      } else {
        assert !AnyInFlight(s, h) by {
          forall u | u in s.threads ensures !InFlight(s, u, h) {
            assert !InFlight(s', u, h);
          }
        }
        assert AgreeAt(s.tables, h);
      }
    }
  }

  lemma SamePhasesKeepTables(s: State, s': State)
    requires TableInv(s)
    requires s'.tables == s.tables && s'.past.raced == s.past.raced
    requires forall t, h :: InFlight(s', t, h) <==> InFlight(s, t, h)
    requires forall t :: t in s'.threads && s'.threads[t].BeforePoller? ==>
      t in s.threads && s.threads[t] == s'.threads[t]
    ensures TableInv(s')
  {
    forall h | !AnyInFlight(s', h) ensures !AnyInFlight(s, h) {
      forall u | u in s.threads ensures !InFlight(s, u, h) {
        assert !InFlight(s', u, h);
      }
    }
  }

  lemma NextKeepsTables(s: State, step: Step)
    requires TableInv(s)
    ensures TableInv(Next(s, step))
  {
    hide TableInv;
    if step.Begin? && step.call.ChangeWatch? && MayCall(s, step.t) {
      BeginChangeKeepsTables(s, step.t, step.call.change);
    } else if step.Proceed? && PhaseOf(s, step.t).BeforePoller? {
      ChangePollerKeepsTables(s, step.t);
    } else {
      SamePhasesKeepTables(s, Next(s, step));
    }
  }

  lemma {:induction false} RunKeepsTables(steps: seq<Step>)
    ensures TableInv(Run(START, steps))
    decreases |steps|
  {
    if steps != [] {
      RunKeepsTables(steps[..|steps| - 1]);
      NextKeepsTables(Run(START, steps[..|steps| - 1]), steps[|steps| - 1]);
    }
  }

  /** A handle never changed by two threads at a time has equal entries, or none, when no call is under way. */
  lemma TablesAgree(steps: seq<Step>, h: int)
    ensures var s := Run(START, steps);
      h !in s.past.raced && !AnyInFlight(s, h) ==> AgreeAt(s.tables, h)
  {
    RunKeepsTables(steps);
  }

  /** Work for which the timeout of the wait in progress does not account. */
  ghost predicate Unaccounted(s: State)
    requires s.loop.Waiting?
  {
    || s.work.deferred != []
    || (exists i :: 0 <= i < |s.work.timers| && EarlierThan(s.work.timers[i], s.loop.choice))
    || s.tables.fds != s.loop.snapshot
    || (s.past.raced == {} && s.tables.watches != s.loop.snapshot)
    || s.quitting
  }

  /** The timer is due before every deadline that the timeout was computed from. */
  predicate EarlierThan(t: Timer, c: Choice) {
    c.soonest.None? || t.when < c.soonest.value
  }

  lemma IdleTablesAgree(s: State)
    requires TableInv(s) && Quiet(s) && !Calling(s.loop) && s.past.raced == {} && !MidCall(s)
    ensures s.tables.watches == s.tables.fds
  {
    forall h ensures AgreeAt(s.tables, h) {
      assert forall t :: t in s.threads ==> !InFlight(s, t, h);
      assert !AnyInFlight(s, h);
    }
    var w, f := s.tables.watches, s.tables.fds;
    forall h ensures (h in w <==> h in f) && (h in w ==> w[h] == f[h]) {
      assert AgreeAt(s.tables, h);
    }
  }

  /**
   * No lost wake-up. A loop that waits with a timeout other than zero, while there is work that its
   * timeout does not account for, will be woken: the wake counter is positive, or a thread is
   * still on its way to the poke.
   */
  lemma NoLostWakeup(steps: seq<Step>)
    ensures var s := Run(START, steps);
      s.loop.Waiting? && s.loop.choice.ms != Some(0) && Unaccounted(s) ==> s.wake > 0 || MidCall(s)
  {
    var s := Run(START, steps);
    RunKeepsWake(steps);
    RunKeepsTables(steps);
    if s.loop.Waiting? && s.past.raced == {} && !MidCall(s) {
      IdleTablesAgree(s);
    }
  }

  // ----- Scheduling: deferred functions -----------------------------------------------------------

  function Batch(loop: Loop): seq<Fn>
  {
    if loop.RunningDeferred? then loop.batch else []
  }

  /** Run so far, taken for this pass, still queued: together the functions in the order of defer. */
  predicate DeferInv(s: State) {
    s.past.deferrals == s.past.executed + Batch(s.loop) + s.work.deferred
  }

  lemma BeginKeepsDefer(s: State, t: Thread, call: Call)
    requires DeferInv(s)
    ensures DeferInv(BeginCall(s, t, call))
  {
    var s' := BeginCall(s, t, call);
    assert s'.loop == s.loop && s'.past.executed == s.past.executed;
  }

  lemma ServeKeepsDefer(s: State, v: Server)
    requires DeferInv(s)
    ensures DeferInv(ServeStep(s, v))
  {
    if v.RunDeferred? {
      RunDeferredMoves(s);
    }
  }

  lemma NextKeepsDefer(s: State, step: Step)
    requires DeferInv(s)
    ensures DeferInv(Next(s, step))
  {
    match step
    case Begin(t, call) => BeginKeepsDefer(s, t, call);
    case Serve(v) => ServeKeepsDefer(s, v);
    case _ =>
      var s' := Next(s, step);
      assert s'.past.deferrals == s.past.deferrals && s'.past.executed == s.past.executed;
      assert Batch(s'.loop) == Batch(s.loop) && s'.work.deferred == s.work.deferred;
  }

  lemma RunDeferredMoves(s: State)
    ensures var s' := ServeStep(s, RunDeferred);
      s'.past.executed + Batch(s'.loop) == s.past.executed + Batch(s.loop)
  {
    if s.loop.RunningDeferred? && s.loop.batch != [] {
      var x, b := s.past.executed, s.loop.batch;
      assert x + b == (x + [b[0]]) + b[1..];
    }
  }

  lemma FireTimerMoves(s: State)
    ensures var s' := ServeStep(s, FireTimer);
      s'.past.timers.fired + DueBatch(s'.loop) == s.past.timers.fired + DueBatch(s.loop)
  {
    if s.loop.RunningTimers? && s.loop.due != [] {
      var x, d := s.past.timers.fired, s.loop.due;
      assert x + d == (x + [d[0]]) + d[1..];
    }
  }

  lemma {:induction false} RunKeepsDefer(steps: seq<Step>)
    ensures DeferInv(Run(START, steps))
    decreases |steps|
  {
    if steps != [] {
      RunKeepsDefer(steps[..|steps| - 1]);
      NextKeepsDefer(Run(START, steps[..|steps| - 1]), steps[|steps| - 1]);
    }
  }

  /** Deferred functions run in the order of defer, each once, none skipped. */
  lemma DeferredInOrder(steps: seq<Step>)
    ensures var s := Run(START, steps); s.past.executed <= s.past.deferrals
    ensures var s := Run(START, steps);
      s.work.deferred == [] && !s.loop.RunningDeferred? ==> s.past.executed == s.past.deferrals
  {
    RunKeepsDefer(steps);
  }

  // ----- Scheduling: timers --------------------------------------------------------------------------

  function DueBatch(loop: Loop): seq<Timer>
  {
    if loop.RunningTimers? then loop.due else []
  }

  /** Every place where a timer can be: armed, harvested, cleared or fired. */
  function Whereabouts(s: State): multiset<nat>
  {
    Ids(s.work.timers) + Ids(DueBatch(s.loop)) + Ids(s.past.timers.cleared) + Ids(s.past.timers.fired)
  }

  /** Each id below `next` occurs exactly once; no other id occurs. Ids start at 1. */
  ghost predicate Exactly(ids: multiset<nat>, next: nat) {
    forall id: nat :: ids[id] == if 1 <= id < next then 1 else 0
  }

  lemma ExactlyGrows(ids: multiset<nat>, next: nat)
    requires next >= 1 && Exactly(ids, next)
    ensures Exactly(ids + multiset{next}, next + 1)
  {
  }

  ghost predicate Placed(s: State) {
    s.work.nextTimer >= 1 && Exactly(Whereabouts(s), s.work.nextTimer)
  }

  /** Harvested timers are due, and fired ones were. */
  predicate Timely(s: State) {
    && (forall i :: 0 <= i < |DueBatch(s.loop)| ==> DueBatch(s.loop)[i].when <= s.now)
    && |s.past.timers.fired| == |s.past.timers.firedAt|
    && (forall i :: 0 <= i < |s.past.timers.fired| ==> s.past.timers.fired[i].when <= s.past.timers.firedAt[i])
  }

  lemma NoIds()
    ensures Ids([]) == multiset{}
  {
  }

  lemma WithOne(a: multiset<nat>, d: multiset<nat>, c: multiset<nat>, f: multiset<nat>, x: multiset<nat>)
    ensures (a + x) + d + c + f == (a + d + c + f) + x
  {
  }

  lemma SetTimeoutMoves(s: State, t: Thread, delay: int)
    requires MayCall(s, t)
    ensures Whereabouts(BeginCall(s, t, SetTimeout(delay))) == Whereabouts(s) + multiset{s.work.nextTimer}
  {
    hide Ids, DueBatch, MayCall;
    var timer := Timer(s.work.nextTimer, s.now + delay);
    var s' := BeginCall(s, t, SetTimeout(delay));
    assert s'.work.timers == s.work.timers + [timer] && s'.loop == s.loop && s'.past == s.past;
    IdsAppend(s.work.timers, [timer]);
    IdsOne(timer);
    WithOne(Ids(s.work.timers), Ids(DueBatch(s.loop)), Ids(s.past.timers.cleared), Ids(s.past.timers.fired),
            multiset{timer.id});
  }

  lemma ClearTimeoutMoves(s: State, t: Thread, id: nat)
    ensures Whereabouts(BeginCall(s, t, ClearTimeout(id))) == Whereabouts(s)
  {
    Partition(s.work.timers, (t: Timer) => t.id == id, (t: Timer) => t.id != id);
    IdsAppend(s.past.timers.cleared, WithId(s.work.timers, id));
    hide Ids;
  }

  lemma Swapped(a: multiset<nat>, b: multiset<nat>)
    ensures a + b == b + a && a + multiset{} == a
  {
  }

  lemma HarvestMoves(s: State)
    ensures Whereabouts(ServeStep(s, Harvest)) == Whereabouts(s)
  {
    hide Ids, AwaitStep, BeginCall;
    Partition(s.work.timers, (t: Timer) => t.when <= s.now, (t: Timer) => t.when > s.now);
    NoIds();
    Swapped(Ids(NotDue(s.work.timers, s.now)), Ids(Due(s.work.timers, s.now)));
  }

  lemma FireMoves(s: State)
    ensures Whereabouts(ServeStep(s, FireTimer)) == Whereabouts(s)
  {
    var s' := ServeStep(s, FireTimer);
    FireTimerMoves(s);
    IdsAppend(s.past.timers.fired, DueBatch(s.loop));
    IdsAppend(s'.past.timers.fired, DueBatch(s'.loop));
    hide Ids, DueBatch;
    assert s'.work.timers == s.work.timers && s'.past.timers.cleared == s.past.timers.cleared;
    var rest := Ids(s.work.timers) + Ids(s.past.timers.cleared);
    assert Whereabouts(s) == rest + Ids(s.past.timers.fired + DueBatch(s.loop));
    assert Whereabouts(s') == rest + Ids(s'.past.timers.fired + DueBatch(s'.loop));
  }

  /** The steps that touch the timers or the harvested batch. */
  predicate TouchesTimers(step: Step) {
    || (step.Begin? && (step.call.SetTimeout? || step.call.ClearTimeout?))
    || step == Serve(Harvest)
    || step == Serve(FireTimer)
  }

  lemma OtherStepsFrame(s: State, step: Step)
    requires !TouchesTimers(step)
    ensures var s' := Next(s, step);
      && s'.work.timers == s.work.timers && s'.work.nextTimer == s.work.nextTimer
      && DueBatch(s'.loop) == DueBatch(s.loop) && s'.now >= s.now
      && s'.past.timers == s.past.timers
  {
    match step
    case Begin(t, call) => CallsFrameTimers(s, t, call);
    case Serve(v) => ServeFramesTimers(s, v);
    case _ =>
  }

  lemma CallsFrameTimers(s: State, t: Thread, call: Call)
    requires !call.SetTimeout? && !call.ClearTimeout?
    ensures var s' := BeginCall(s, t, call);
      && s'.work.timers == s.work.timers && s'.work.nextTimer == s.work.nextTimer
      && s'.loop == s.loop && s'.now == s.now && s'.past.timers == s.past.timers
  {
  }

  lemma ServeFramesTimers(s: State, v: Server)
    requires !v.Harvest? && !v.FireTimer?
    ensures var s' := ServeStep(s, v);
      && s'.work.timers == s.work.timers && s'.work.nextTimer == s.work.nextTimer
      && DueBatch(s'.loop) == DueBatch(s.loop) && s'.now == s.now && s'.past.timers == s.past.timers
  {
  }

  lemma NextPlaces(s: State, step: Step)
    requires Placed(s)
    ensures Placed(Next(s, step))
  {
    hide Exactly, Whereabouts;
    if step.Begin? && step.call.SetTimeout? && MayCall(s, step.t) {
      SetTimeoutMoves(s, step.t, step.call.delay);
      ExactlyGrows(Whereabouts(s), s.work.nextTimer);
    } else {
      SameWhereabouts(s, step);
    }
  }

  lemma SameWhereabouts(s: State, step: Step)
    requires !(step.Begin? && step.call.SetTimeout? && MayCall(s, step.t))
    ensures Whereabouts(Next(s, step)) == Whereabouts(s) && Next(s, step).work.nextTimer == s.work.nextTimer
  {
    if !TouchesTimers(step) {
      hide Next, Ids;
      OtherStepsFrame(s, step);
    } else {
      hide Whereabouts, Ids, Due, NotDue, WithId, WithoutId;
      if step.Begin? {
        hide ServeStep;
        if step.call.ClearTimeout? {
          ClearTimeoutMoves(s, step.t, step.call.id);
        }
      } else {
        hide BeginCall;
        HarvestMoves(s);
        FireMoves(s);
      }
    }
  }

  lemma FireTimely(s: State)
    requires Timely(s) && LoopFree(s) && s.loop.RunningTimers? && s.loop.due != []
    ensures Timely(ServeStep(s, FireTimer))
  {
    var s' := ServeStep(s, FireTimer);
    assert forall i :: 0 <= i < |s'.loop.due| ==> s'.loop.due[i] == s.loop.due[i + 1];
    assert s.loop.due[0] == DueBatch(s.loop)[0];
    forall i | 0 <= i < |s'.past.timers.fired| ensures s'.past.timers.fired[i].when <= s'.past.timers.firedAt[i] {
      if i < |s.past.timers.fired| {
        assert s'.past.timers.fired[i] == s.past.timers.fired[i];
        assert s'.past.timers.firedAt[i] == s.past.timers.firedAt[i];
      }
    }
  }

  lemma NextTimely(s: State, step: Step)
    requires Timely(s)
    ensures Timely(Next(s, step))
  {
    if !TouchesTimers(step) {
      hide Next;
      OtherStepsFrame(s, step);
    } else if step == Serve(FireTimer) && LoopFree(s) && s.loop.RunningTimers? && s.loop.due != [] {
      FireTimely(s);
    }
  }

  lemma {:induction false} RunKeepsTimers(steps: seq<Step>)
    ensures Placed(Run(START, steps)) && Timely(Run(START, steps))
    decreases |steps|
  {
    if steps == [] {
      NoIds();
    } else {
      RunKeepsTimers(steps[..|steps| - 1]);
      NextPlaces(Run(START, steps[..|steps| - 1]), steps[|steps| - 1]);
      NextTimely(Run(START, steps[..|steps| - 1]), steps[|steps| - 1]);
    }
  }

  lemma InIds(timers: seq<Timer>, i: nat)
    requires i < |timers|
    ensures timers[i].id in Ids(timers)
  {
    assert IdList(timers)[i] in multiset(IdList(timers));
  }

  lemma TwiceInIds(timers: seq<Timer>, i: nat, j: nat)
    requires i < j < |timers| && timers[i].id == timers[j].id
    ensures Ids(timers)[timers[i].id] >= 2
  {
    var list := IdList(timers);
    assert list == list[..j] + [list[j]] + list[j + 1..];
    assert list[i] == list[..j][i];
    assert list[i] in multiset(list[..j]);
  }

  /** Each timer fires at most once, never before its deadline, and never once it was cleared before harvest. */
  lemma TimersFireOnce(steps: seq<Step>, i: nat)
    requires i < |Run(START, steps).past.timers.fired|
    ensures var p := Run(START, steps).past.timers;
      && |p.firedAt| == |p.fired| && p.fired[i].when <= p.firedAt[i]
      && (forall j :: 0 <= j < |p.fired| && j != i ==> p.fired[j].id != p.fired[i].id)
      && (forall j :: 0 <= j < |p.cleared| ==> p.cleared[j].id != p.fired[i].id)
  {
    var s := Run(START, steps);
    var p := s.past.timers;
    RunKeepsTimers(steps);
    InIds(p.fired, i);
    assert Whereabouts(s)[p.fired[i].id] <= 1;
    forall j | 0 <= j < |p.fired| && j != i ensures p.fired[j].id != p.fired[i].id {
      if p.fired[j].id == p.fired[i].id {
        TwiceInIds(p.fired, if i < j then i else j, if i < j then j else i);
      }
    }
    forall j | 0 <= j < |p.cleared| ensures p.cleared[j].id != p.fired[i].id {
      InIds(p.cleared, j);
    }
  }

  // ----- Scheduling: a pass is closed -------------------------------------------------------------------

  /** Steps of one pass: no new batch is taken. */
  predicate WithinPass(steps: seq<Step>) {
    forall i :: 0 <= i < |steps| ==> steps[i] != Serve(Swap) && steps[i] != Serve(Harvest)
  }

  lemma {:induction false} PassIsClosed(s: State, steps: seq<Step>)
    requires WithinPass(steps)
    ensures var s' := Run(s, steps);
      && s'.past.executed + Batch(s'.loop) == s.past.executed + Batch(s.loop)
      && s'.past.timers.fired + DueBatch(s'.loop) == s.past.timers.fired + DueBatch(s.loop)
    decreases |steps|
  {
    if steps != [] {
      var before := Run(s, steps[..|steps| - 1]);
      var step := steps[|steps| - 1];
      PassIsClosed(s, steps[..|steps| - 1]);
      PassStep(before, step);
    }
  }

  lemma PassStep(s: State, step: Step)
    requires step != Serve(Swap) && step != Serve(Harvest)
    ensures var s' := Next(s, step);
      && s'.past.executed + Batch(s'.loop) == s.past.executed + Batch(s.loop)
      && s'.past.timers.fired + DueBatch(s'.loop) == s.past.timers.fired + DueBatch(s.loop)
  {
    if step == Serve(RunDeferred) {
      RunDeferredMoves(s);
    } else if step == Serve(FireTimer) {
      FireTimerMoves(s);
    } else {
      var s' := Next(s, step);
      assert s'.past.executed == s.past.executed && Batch(s'.loop) == Batch(s.loop);
      assert s'.past.timers.fired == s.past.timers.fired && DueBatch(s'.loop) == DueBatch(s.loop);
    }
  }

  /** What is deferred or armed during a pass waits for a later one: the pass runs only what it took at its start. */
  lemma NewWorkWaits(s: State, steps: seq<Step>)
    requires WithinPass(steps)
    ensures Run(s, steps).past.executed <= s.past.executed + Batch(s.loop)
    ensures Run(s, steps).past.timers.fired <= s.past.timers.fired + DueBatch(s.loop)
  {
    PassIsClosed(s, steps);
  }
}
