/** Exactly when threads that change the watch of one descriptor leave the loop's two tables different. */
module LoopRaces {
  import opened Wire
  import opened LoopTables
  import opened LoopModel
  import opened LoopProofs

  // ----- One handle ---------------------------------------------------------------------

  function Entry(table: map<int, Interest>, h: int): (e: Option<Interest>)
  {
    if h in table then Some(table[h]) else None
  }

  /** What a change to its handle makes of the entry in the poller's table. */
  function EntryAfter(e: Option<Interest>, c: Change): Option<Interest>
  {
    match c
    case Add(_, i) => Some(i)
    case Update(_, i) => if e.Some? then Some(i) else None
    case Drop(_) => None
  }

  /** What the caller wants to be there. */
  function Wanted(c: Change): Option<Interest>
  {
    if c.Drop? then None else Some(c.interest)
  }

  lemma FdsEntry(fds: map<int, Interest>, c: Change, h: int)
    ensures Entry(ChangeFds(fds, c), h) == if c.handle == h then EntryAfter(Entry(fds, h), c) else Entry(fds, h)
  {
  }

  lemma AgreementIsEqualEntries(t: Tables, h: int)
    ensures AgreeAt(t, h) <==> Entry(t.watches, h) == Entry(t.fds, h)
  {
  }

  // ----- Two threads in flight --------------------------------------------------------------

  /** Two calls on one handle: `first` changed the loop's table before `second` did. */
  datatype Race = Race(handle: int, first: Thread, c: Change, second: Thread, d: Change)

  function ChangeOf(r: Race, t: Thread): Change
  {
    if t == r.first then r.c else r.d
  }

  /**
   * The change that is overtaken in the poller's table does no harm: both drop, or an update comes
   * after a drop, or both register the same interest.
   */
  predicate Harmless(c: Change, d: Change) {
    || (!c.Add? && d.Drop?)
    || (!c.Drop? && !d.Drop? && c.interest == d.interest)
  }

  /** Only `t` is in flight on `h`, and its poller step will make the tables agree there. */
  ghost predicate Settling(s: State, t: Thread, h: int) {
    && InFlight(s, t, h)
    && (forall x :: InFlight(s, x, h) ==> x == t)
    && WillAgree(s.tables, s.threads[t].change)
  }

  /** Exactly the two threads are in flight on the handle. */
  ghost predicate Racing(s: State, r: Race) {
    && r.first != r.second && r.c.handle == r.d.handle == r.handle
    && Stage(s, r, [], Entry(s.tables.fds, r.handle))
    && (r.c.Update? ==> r.handle in s.tables.fds)
    && (r.d.Update? ==> !r.c.Drop?)
  }

  /** The threads of the race whose poller step is done, in that order. */
  function OrderStep(done: seq<Thread>, r: Race, step: Step): seq<Thread>
  {
    if (step == Proceed(r.first) || step == Proceed(r.second)) && step.t !in done then done + [step.t] else done
  }

  function Order(r: Race, steps: seq<Step>): (o: seq<Thread>)
    decreases |steps|
  {
    if steps == [] then [] else OrderStep(Order(r, steps[..|steps| - 1]), r, steps[|steps| - 1])
  }

  /** The poller's entry after the poller steps done so far. */
  function Polled(e: Option<Interest>, r: Race, done: seq<Thread>): Option<Interest>
  {
    if done == [] then e else EntryAfter(Polled(e, r, done[..|done| - 1]), ChangeOf(r, done[|done| - 1]))
  }

  predicate Still(s: State, r: Race, done: seq<Thread>, t: Thread) {
    t !in done ==> t in s.threads && s.threads[t] == BeforePoller(ChangeOf(r, t))
  }

  /** The race with the poller steps `done`; the poller's entry was `polled` at the start. */
  ghost predicate Stage(s: State, r: Race, done: seq<Thread>, polled: Option<Interest>) {
    && Still(s, r, done, r.first) && Still(s, r, done, r.second)
    && (forall t :: InFlight(s, t, r.handle) ==> (t == r.first || t == r.second) && t !in done)
    && Entry(s.tables.watches, r.handle) == Wanted(r.d)
    && Entry(s.tables.fds, r.handle) == Polled(polled, r, done)
  }

  /** Nobody else starts a change of the handle. */
  predicate LeavesAlone(step: Step, h: int) {
    !(step.Begin? && step.call.ChangeWatch? && step.call.change.handle == h)
  }

  predicate Undisturbed(steps: seq<Step>, h: int) {
    forall i :: 0 <= i < |steps| ==> LeavesAlone(steps[i], h)
  }

  lemma PolledSnoc(e: Option<Interest>, r: Race, done: seq<Thread>, t: Thread)
    ensures Polled(e, r, done + [t]) == EntryAfter(Polled(e, r, done), ChangeOf(r, t))
  {
    assert (done + [t])[..|done|] == done;
  }

  /** Steps that leave the entry and the phases of the race alone. */
  lemma FrameStage(s: State, s': State, r: Race, done: seq<Thread>, polled: Option<Interest>)
    requires Stage(s, r, done, polled)
    requires Entry(s'.tables.watches, r.handle) == Entry(s.tables.watches, r.handle)
    requires Entry(s'.tables.fds, r.handle) == Entry(s.tables.fds, r.handle)
    requires forall t :: InFlight(s', t, r.handle) ==> InFlight(s, t, r.handle)
    requires forall t :: t in s.threads && s.threads[t].BeforePoller? && s.threads[t].change.handle == r.handle ==>
      t in s'.threads && s'.threads[t] == s.threads[t]
    requires r.c.handle == r.d.handle == r.handle
    ensures Stage(s', r, done, polled)
  {
  }

  lemma BeginKeepsStage(s: State, t: Thread, call: Call, r: Race, done: seq<Thread>, polled: Option<Interest>)
    requires Stage(s, r, done, polled) && r.c.handle == r.d.handle == r.handle
    requires LeavesAlone(Begin(t, call), r.handle)
    ensures Stage(BeginCall(s, t, call), r, done, polled)
  {
    FrameStage(s, BeginCall(s, t, call), r, done, polled);
  }

  lemma ProceedKeepsStage(s: State, t: Thread, r: Race, done: seq<Thread>, polled: Option<Interest>)
    requires Stage(s, r, done, polled) && r.c.handle == r.d.handle == r.handle
    ensures Stage(ProceedCall(s, t), r, OrderStep(done, r, Proceed(t)), polled)
  {
    var s' := ProceedCall(s, t);
    if PhaseOf(s, t).BeforePoller? {
      FdsEntry(s.tables.fds, s.threads[t].change, r.handle);
    }
    if (t == r.first || t == r.second) && t !in done {
      PolledSnoc(polled, r, done, t);
      forall x | InFlight(s', x, r.handle) ensures (x == r.first || x == r.second) && x !in done + [t] {
        assert InFlight(s, x, r.handle) && x != t;
      }
    } else {
      assert !InFlight(s, t, r.handle);
      FrameStage(s, s', r, done, polled);
    }
  }

  lemma NextKeepsStage(s: State, step: Step, r: Race, done: seq<Thread>, polled: Option<Interest>)
    requires Stage(s, r, done, polled) && r.c.handle == r.d.handle == r.handle
    requires LeavesAlone(step, r.handle)
    ensures Stage(Next(s, step), r, OrderStep(done, r, step), polled)
  {
    hide Stage;
    match step
    case Begin(t, call) => BeginKeepsStage(s, t, call, r, done, polled);
    case Proceed(t) => ProceedKeepsStage(s, t, r, done, polled);
    case _ => FrameStage(s, Next(s, step), r, done, polled);
  }

  lemma {:induction false} RunKeepsStage(s: State, steps: seq<Step>, r: Race)
    requires Racing(s, r) && Undisturbed(steps, r.handle)
    ensures Stage(Run(s, steps), r, Order(r, steps), Entry(s.tables.fds, r.handle))
    decreases |steps|
  {
    if steps != [] {
      var before := steps[..|steps| - 1];
      RunKeepsStage(s, before, r);
      NextKeepsStage(Run(s, before), steps[|steps| - 1], r, Order(r, before), Entry(s.tables.fds, r.handle));
    }
  }

  lemma {:induction false} OrderShape(r: Race, steps: seq<Step>)
    requires r.first != r.second
    ensures var o := Order(r, steps);
      || o == [] || o == [r.first] || o == [r.second] || o == [r.first, r.second] || o == [r.second, r.first]
    decreases |steps|
  {
    if steps != [] {
      OrderShape(r, steps[..|steps| - 1]);
    }
  }

  lemma PolledTwice(e: Option<Interest>, r: Race, a: Thread, b: Thread)
    ensures Polled(e, r, [a, b]) == EntryAfter(EntryAfter(e, ChangeOf(r, a)), ChangeOf(r, b))
  {
    PolledSnoc(e, r, [], a);
    PolledSnoc(e, r, [a], b);
    assert [] + [a] == [a] && [a] + [b] == [a, b];
  }

  /**
   * The race decided: whatever any thread does meanwhile, once both calls have reached the poller
   * the tables agree at the handle exactly when the poller saw the changes in the order of the
   * loop's table, or the overtaken change does no harm.
   */
  lemma RaceDecided(s: State, r: Race, steps: seq<Step>)
    requires Racing(s, r) && Undisturbed(steps, r.handle) && !AnyInFlight(Run(s, steps), r.handle)
    ensures Order(r, steps) == [r.first, r.second] || Order(r, steps) == [r.second, r.first]
    ensures AgreeAt(Run(s, steps).tables, r.handle)
       <==> Order(r, steps) == [r.first, r.second] || Harmless(r.c, r.d)
  {
    var e := Run(s, steps);
    RunKeepsStage(s, steps, r);
    OrderShape(r, steps);
    assert r.first in Order(r, steps) by {
      assert !InFlight(e, r.first, r.handle);
    }
    assert r.second in Order(r, steps) by {
      assert !InFlight(e, r.second, r.handle);
    }
    PolledTwice(Entry(s.tables.fds, r.handle), r, r.first, r.second);
    PolledTwice(Entry(s.tables.fds, r.handle), r, r.second, r.first);
    AgreementIsEqualEntries(e.tables, r.handle);
  }

  // ----- How a race begins -----------------------------------------------------------------------

  /** A call on a handle where the tables agree, with nobody in flight there, will make them agree again. */
  lemma AloneSettles(s: State, t: Thread, c: Change)
    requires MayCall(s, t) && AgreeAt(s.tables, c.handle) && (forall x :: !InFlight(s, x, c.handle))
    requires c.Update? ==> c.handle in s.tables.watches
    ensures Settling(Next(s, Begin(t, ChangeWatch(c))), t, c.handle)
  {
    var s' := Next(s, Begin(t, ChangeWatch(c)));
    forall x | InFlight(s', x, c.handle) ensures x == t {
      assert x != t ==> InFlight(s, x, c.handle);
    }
  }

  /** A second call before the first has reached the poller starts a race. */
  lemma SecondCallRaces(s: State, t: Thread, u: Thread, d: Change)
    requires Settling(s, t, d.handle) && MayCall(s, u)
    requires d.Update? ==> d.handle in s.tables.watches
    ensures Racing(Next(s, Begin(u, ChangeWatch(d))), Race(d.handle, t, s.threads[t].change, u, d))
  {
    var s' := Next(s, Begin(u, ChangeWatch(d)));
    forall x | InFlight(s', x, d.handle) ensures x == t || x == u {
      assert x != u ==> InFlight(s, x, d.handle);
    }
  }

  /** In every run from the start, a handle not raced before and in flight in one thread is settling. */
  lemma UnracedSettles(steps: seq<Step>, t: Thread, h: int)
    requires InFlight(Run(START, steps), t, h) && h !in Run(START, steps).past.raced
    ensures Settling(Run(START, steps), t, h)
  {
    RunKeepsTables(steps);
  }

  /**
   * Over every run: the first race on a handle leaves the tables different exactly when the poller
   * saw the two changes the other way round and the overtaken one does harm.
   */
  lemma FirstRaceDecided(steps: seq<Step>, t: Thread, u: Thread, d: Change, more: seq<Step>)
    requires var s := Run(START, steps);
      && InFlight(s, t, d.handle) && d.handle !in s.past.raced && MayCall(s, u)
      && (d.Update? ==> d.handle in s.tables.watches)
    requires Undisturbed(more, d.handle)
    requires !AnyInFlight(Run(START, steps + [Begin(u, ChangeWatch(d))] + more), d.handle)
    ensures var r := Race(d.handle, t, Run(START, steps).threads[t].change, u, d);
      AgreeAt(Run(START, steps + [Begin(u, ChangeWatch(d))] + more).tables, d.handle)
      <==> Order(r, more) == [t, u] || Harmless(r.c, d)
  {
    hide Next;
    var s := Run(START, steps);
    var begin := Begin(u, ChangeWatch(d));
    UnracedSettles(steps, t, d.handle);
    SecondCallRaces(s, t, u, d);
    RunAppend(START, steps, [begin]);
    RunOne(s, begin);
    RunAppend(START, steps + [begin], more);
    RaceDecided(Next(s, begin), Race(d.handle, t, s.threads[t].change, u, d), more);
  }

  /** Such a run: two threads watch one handle, and the poller sees the second call first. */
  lemma RacedTables() returns (steps: seq<Step>)
    ensures var s := Run(START, steps);
      (forall t :: t in s.threads ==> s.threads[t].Outside?) && !AgreeAt(s.tables, 5)
  {
    steps := [Begin(1, ChangeWatch(Add(5, READ))), Begin(2, ChangeWatch(Add(5, WRITE))),
              Proceed(2), Proceed(1), Proceed(1), Proceed(2)];
    var s1 := Next(START, steps[0]);
    var s2 := Next(s1, steps[1]);
    var s3 := Next(s2, steps[2]);
    var s4 := Next(s3, steps[3]);
    var s5 := Next(s4, steps[4]);
    var s6 := Next(s5, steps[5]);
    assert s6.tables.watches[5] == WRITE && s6.tables.fds[5] == READ;
    assert forall t :: t in s6.threads ==> s6.threads[t].Outside?;
    RunSix(START, steps);
  }

  // ----- Any number of threads ---------------------------------------------------------------------

  /** A change and the thread that makes it. */
  datatype Move = Move(t: Thread, change: Change)

  /** The change of the handle that the step makes in the loop's table. */
  function Begun(s: State, step: Step, h: int): seq<Move>
  {
    if step.Begin? && step.call.ChangeWatch? && step.call.change.handle == h && MayCall(s, step.t)
       && !(step.call.change.Update? && h !in s.tables.watches)
    then [Move(step.t, step.call.change)] else []
  }

  /** The change of the handle that the step makes in the poller's table. */
  function Reached(s: State, step: Step, h: int): seq<Move>
  {
    if step.Proceed? && InFlight(s, step.t, h) then [Move(step.t, s.threads[step.t].change)] else []
  }

  function LoopOrder(s: State, steps: seq<Step>, h: int): (r: seq<Move>)
    decreases |steps|
  {
    if steps == [] then []
    else
      var before := steps[..|steps| - 1];
      LoopOrder(s, before, h) + Begun(Run(s, before), steps[|steps| - 1], h)
  }

  function PollerOrder(s: State, steps: seq<Step>, h: int): (r: seq<Move>)
    decreases |steps|
  {
    if steps == [] then []
    else
      var before := steps[..|steps| - 1];
      PollerOrder(s, before, h) + Reached(Run(s, before), steps[|steps| - 1], h)
  }

  /** What the changes make of an entry of the poller's table, one after the other. */
  function Folded(e: Option<Interest>, moves: seq<Move>): (r: Option<Interest>)
  {
    if moves == [] then e else EntryAfter(Folded(e, moves[..|moves| - 1]), moves[|moves| - 1].change)
  }

  function LastWanted(e: Option<Interest>, moves: seq<Move>): (r: Option<Interest>)
  {
    if moves == [] then e else Wanted(moves[|moves| - 1].change)
  }

  lemma FoldedAppend(e: Option<Interest>, moves: seq<Move>, more: seq<Move>)
    requires |more| <= 1
    ensures Folded(e, moves + more)
         == if more == [] then Folded(e, moves) else EntryAfter(Folded(e, moves), more[0].change)
  {
    if more == [] {
      assert moves + more == moves;
    } else {
      assert (moves + more)[..|moves|] == moves;
    }
  }

  lemma NextWatches(s: State, step: Step, h: int)
    ensures Entry(Next(s, step).tables.watches, h) == LastWanted(Entry(s.tables.watches, h), Begun(s, step, h))
  {
    hide AwaitStep, ServeStep, AnyInFlight;
    if !step.Begin? && !step.Proceed? {
      hide Next;
      OthersKeepTables(s, step);
    }
  }

  lemma OthersKeepTables(s: State, step: Step)
    requires !step.Begin? && !step.Proceed?
    ensures Next(s, step).tables == s.tables && Next(s, step).threads == s.threads
  {
  }

  lemma NextFds(s: State, step: Step, h: int)
    ensures Entry(Next(s, step).tables.fds, h) == Folded(Entry(s.tables.fds, h), Reached(s, step, h))
  {
    hide Folded;
    FoldedAppend(Entry(s.tables.fds, h), [], Reached(s, step, h));
    assert [] + Reached(s, step, h) == Reached(s, step, h);
    FoldedNothing(Entry(s.tables.fds, h));
    if step.Proceed? && PhaseOf(s, step.t).BeforePoller? {
      FdsEntry(s.tables.fds, s.threads[step.t].change, h);
    }
  }

  lemma FoldedNothing(e: Option<Interest>)
    ensures Folded(e, []) == e
  {
  }

  lemma FoldedTogether(e: Option<Interest>, a: seq<Move>, b: seq<Move>)
    requires |b| <= 1
    ensures Folded(Folded(e, a), b) == Folded(e, a + b)
  {
    FoldedAppend(e, a, b);
    FoldedAppend(Folded(e, a), [], b);
    assert [] + b == b;
  }

  /** Over every run the loop's entry is the last change begun, the poller's what the changes that reached it make. */
  lemma {:induction false} EntriesFollowOrders(s: State, steps: seq<Step>, h: int)
    ensures var r := Run(s, steps);
      && Entry(r.tables.watches, h) == LastWanted(Entry(s.tables.watches, h), LoopOrder(s, steps, h))
      && Entry(r.tables.fds, h) == Folded(Entry(s.tables.fds, h), PollerOrder(s, steps, h))
    decreases |steps|
  {
    hide Next, Entry, Folded, Begun, Reached;
    if steps == [] {
      FoldedNothing(Entry(s.tables.fds, h));
    } else {
      var before, step := steps[..|steps| - 1], steps[|steps| - 1];
      var r := Run(s, before);
      EntriesFollowOrders(s, before, h);
      NextWatches(r, step, h);
      NextFds(r, step, h);
      AtMostOne(r, step, h);
      FoldedTogether(Entry(s.tables.fds, h), PollerOrder(s, before, h), Reached(r, step, h));
    }
  }

  lemma AtMostOne(s: State, step: Step, h: int)
    ensures |Begun(s, step, h)| <= 1 && |Reached(s, step, h)| <= 1
  {
  }

  /**
   * Any number of threads, in every run from the start: the tables agree at a handle exactly when the
   * changes that reached the poller, folded in the order of the poller, give what the last change of
   * the loop's table wants.
   */
  lemma RacesDecided(steps: seq<Step>, h: int)
    ensures AgreeAt(Run(START, steps).tables, h)
       <==> Folded(None, PollerOrder(START, steps, h)) == LastWanted(None, LoopOrder(START, steps, h))
  {
    EntriesFollowOrders(START, steps, h);
    AgreementIsEqualEntries(Run(START, steps).tables, h);
  }

  // ----- Every change reaches the poller, once ------------------------------------------------------

  /** The changes of one thread, in their order. */
  function Of(moves: seq<Move>, t: Thread): (r: seq<Change>)
  {
    if moves == [] then []
    else Of(moves[..|moves| - 1], t) + if moves[|moves| - 1].t == t then [moves[|moves| - 1].change] else []
  }

  /** The change that the thread has begun and that has not reached the poller. */
  function Carrying(s: State, t: Thread, h: int): (r: seq<Change>)
  {
    if InFlight(s, t, h) then [s.threads[t].change] else []
  }

  lemma OfAppend(moves: seq<Move>, more: seq<Move>, t: Thread)
    requires |more| <= 1
    ensures Of(moves + more, t) == Of(moves, t) + Of(more, t)
  {
    if more == [] {
      assert moves + more == moves && Of(moves, t) + [] == Of(moves, t);
    } else {
      assert (moves + more)[..|moves|] == moves && more[..0] == [];
    }
  }

  lemma NextCarries(s: State, step: Step, h: int, t: Thread)
    ensures Carrying(s, t, h) + Of(Begun(s, step, h), t) == Of(Reached(s, step, h), t) + Carrying(Next(s, step), t, h)
  {
    hide Of, Next;
    OfOne(Begun(s, step, h), t);
    OfOne(Reached(s, step, h), t);
    match step
    case Begin(u, call) => BeginCarries(s, u, call, h, t);
    case Proceed(u) => ProceedCarries(s, u, h, t);
    case _ => OthersKeepTables(s, step);
  }

  lemma BeginCarries(s: State, u: Thread, call: Call, h: int, t: Thread)
    ensures var s' := Next(s, Begin(u, call));
      Carrying(s', t, h) == if u == t && Begun(s, Begin(u, call), h) != [] then [call.change] else Carrying(s, t, h)
    ensures u == t && Begun(s, Begin(u, call), h) != [] ==> Carrying(s, t, h) == []
  {
    hide AnyInFlight;
  }

  lemma ProceedCarries(s: State, u: Thread, h: int, t: Thread)
    ensures var s' := Next(s, Proceed(u)); Carrying(s', t, h) == if u == t then [] else Carrying(s, t, h)
  {
  }

  lemma OfOne(moves: seq<Move>, t: Thread)
    requires |moves| <= 1
    ensures Of(moves, t) == if moves != [] && moves[0].t == t then [moves[0].change] else []
  {
    if moves != [] {
      assert moves[..0] == [];
    }
  }

  lemma Regroup(p: seq<Change>, c: seq<Change>, b: seq<Change>, r: seq<Change>, c': seq<Change>, l: seq<Change>)
    requires l == p + c && c + b == r + c'
    ensures l + b == (p + r) + c'
  {
    assert (p + c) + b == p + (c + b);
    assert (p + r) + c' == p + (r + c');
  }

  /** Over every run from the start, the changes of a thread reach the poller in its order, each once. */
  lemma {:induction false} EachReachesPoller(steps: seq<Step>, h: int, t: Thread)
    ensures Of(LoopOrder(START, steps, h), t)
         == Of(PollerOrder(START, steps, h), t) + Carrying(Run(START, steps), t, h)
    decreases |steps|
  {
    hide Next, Of, Begun, Reached, Carrying;
    if steps == [] {
      OfOne([], t);
      assert Carrying(START, t, h) == [] by {
        NothingCarried(t, h);
      }
    } else {
      var before, step := steps[..|steps| - 1], steps[|steps| - 1];
      var s := Run(START, before);
      EachReachesPoller(before, h, t);
      AtMostOne(s, step, h);
      OfAppend(LoopOrder(START, before, h), Begun(s, step, h), t);
      OfAppend(PollerOrder(START, before, h), Reached(s, step, h), t);
      NextCarries(s, step, h, t);
      Regroup(Of(PollerOrder(START, before, h), t), Carrying(s, t, h), Of(Begun(s, step, h), t),
              Of(Reached(s, step, h), t), Carrying(Next(s, step), t, h), Of(LoopOrder(START, before, h), t));
    }
  }

  lemma NothingCarried(t: Thread, h: int)
    ensures Carrying(START, t, h) == []
  {
  }

  // ----- Three threads ---------------------------------------------------------------------------------

  const WATCH_FIRST: seq<Step> := [Begin(1, ChangeWatch(Add(5, READ))), Proceed(1), Proceed(1)]
  const BEGIN_THREE: seq<Step> :=
    [Begin(1, ChangeWatch(Drop(5))), Begin(2, ChangeWatch(Add(5, READ))), Begin(3, ChangeWatch(Update(5, WRITE)))]
  const REACH_THREE: seq<Step> := [Proceed(2), Proceed(1), Proceed(3)]

  /**
   * A drop, an add and an update. The poller sees the add before the drop, and the last change last,
   * yet it loses the handle.
   */
  lemma LastChangeLastIsNotEnough()
    ensures var s := Run(START, WATCH_FIRST + BEGIN_THREE + REACH_THREE + REACH_THREE);
      && (forall t :: t in s.threads ==> s.threads[t].Outside?)
      && Entry(s.tables.watches, 5) == Some(WRITE) && Entry(s.tables.fds, 5) == None
  {
    hide Next, Run;
    WatchedFirst();
    var s1 := Run(START, WATCH_FIRST);
    var s2 := Run(s1, BEGIN_THREE);
    ThreeBegin(s1);
    ThreeReach(s2);
    ThreePoke(Run(s2, REACH_THREE));
    RunAppend(START, WATCH_FIRST, BEGIN_THREE);
    RunAppend(START, WATCH_FIRST + BEGIN_THREE, REACH_THREE);
    RunAppend(START, WATCH_FIRST + BEGIN_THREE + REACH_THREE, REACH_THREE);
  }

  lemma WatchedFirst()
    ensures var r := Run(START, WATCH_FIRST);
      r.tables == Tables(map[5 := READ], map[5 := READ]) && r.threads == map[1 := Outside]
  {
    hide AwaitStep, ServeStep, AnyInFlight;
    RunThree(START, WATCH_FIRST);
  }

  lemma BeginMoves(s: State, t: Thread, c: Change)
    requires PhaseOf(s, t).Outside? && t != LOOP && (c.Update? ==> c.handle in s.tables.watches)
    ensures var r := Next(s, Begin(t, ChangeWatch(c)));
      && r.tables == s.tables.(watches := ChangeWatches(s.tables.watches, c))
      && r.threads == s.threads[t := BeforePoller(c)]
  {
  }

  lemma ThreeBegin(s: State)
    requires s.threads == map[1 := Outside] && s.tables == Tables(map[5 := READ], map[5 := READ])
    ensures var r := Run(s, BEGIN_THREE);
      && r.tables == Tables(map[5 := WRITE], map[5 := READ])
      && r.threads
         == map[1 := BeforePoller(Drop(5)), 2 := BeforePoller(Add(5, READ)), 3 := BeforePoller(Update(5, WRITE))]
  {
    hide Next;
    RunThree(s, BEGIN_THREE);
    var s1 := Next(s, BEGIN_THREE[0]);
    var s2 := Next(s1, BEGIN_THREE[1]);
    BeginMoves(s, 1, Drop(5));
    BeginMoves(s1, 2, Add(5, READ));
    BeginMoves(s2, 3, Update(5, WRITE));
  }

  lemma ReachMoves(s: State, t: Thread)
    requires PhaseOf(s, t).BeforePoller?
    ensures var r := Next(s, Proceed(t));
      && r.tables == s.tables.(fds := ChangeFds(s.tables.fds, PhaseOf(s, t).change))
      && r.threads == s.threads[t := BeforePoke]
  {
  }

  lemma ThreeReach(s: State)
    requires s.tables == Tables(map[5 := WRITE], map[5 := READ])
    requires s.threads
          == map[1 := BeforePoller(Drop(5)), 2 := BeforePoller(Add(5, READ)), 3 := BeforePoller(Update(5, WRITE))]
    ensures var r := Run(s, REACH_THREE);
      r.tables == Tables(map[5 := WRITE], map[]) && r.threads == map[1 := BeforePoke, 2 := BeforePoke, 3 := BeforePoke]
  {
    hide Next;
    RunThree(s, REACH_THREE);
    var s1 := Next(s, REACH_THREE[0]);
    var s2 := Next(s1, REACH_THREE[1]);
    ReachMoves(s, 2);
    ReachMoves(s1, 1);
    ReachMoves(s2, 3);
  }

  lemma PokeMoves(s: State, t: Thread)
    requires PhaseOf(s, t).BeforePoke?
    ensures var r := Next(s, Proceed(t)); r.tables == s.tables && r.threads == s.threads[t := Outside]
  {
  }

  lemma ThreePoke(s: State)
    requires s.threads == map[1 := BeforePoke, 2 := BeforePoke, 3 := BeforePoke]
    ensures var r := Run(s, REACH_THREE);
      r.tables == s.tables && r.threads == map[1 := Outside, 2 := Outside, 3 := Outside]
  {
    hide Next;
    RunThree(s, REACH_THREE);
    var s1 := Next(s, REACH_THREE[0]);
    var s2 := Next(s1, REACH_THREE[1]);
    PokeMoves(s, 2);
    PokeMoves(s1, 1);
    PokeMoves(s2, 3);
  }
}
