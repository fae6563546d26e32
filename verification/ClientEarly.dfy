/** Exactly when a pending query of a dns::client can be answered without an answer before its deadline. */
module ClientEarly {
  import opened Wire
  import opened Messages
  import opened Timers
  import opened ClientModel
  import opened ClientProofs
  import opened ClientTimers
  import opened ClientDeadlines

  // ----- The condition -------------------------------------------------------------------------

  /** Time passes and timers run; nothing is asked, nothing arrives, and handlers do nothing. */
  predicate Calm(step: Step) {
    step.Tick? || step.Harvest? || step == Fire([])
  }

  predicate AllCalm(steps: seq<Step>) {
    forall i :: 0 <= i < |steps| ==> Calm(steps[i])
  }

  predicate Early(s: State, a: Answer, q: nat) {
    a.query == q && q < |s.past.deadlines| && a.at < s.past.deadlines[q]
  }

  predicate AnsweredEarly(s: State, q: nat) {
    exists i :: 0 <= i < |s.past.answers| && Early(s, s.past.answers[i], q)
  }

  /** Left alone, the query may be answered before its deadline. */
  ghost predicate MayTimeOutEarly(s: State, q: nat) {
    exists steps :: AllCalm(steps) && AnsweredEarly(Run(s, steps), q)
  }

  predicate DeadlineAhead(s: State, id: U16) {
    && id in s.pending && s.pending[id].query < |s.past.deadlines|
    && s.clock.now < s.past.deadlines[s.pending[id].query]
  }

  /** A timer for the id, not that of the pending query, that is due before the deadline of that query. */
  predicate Behind(s: State, id: U16, x: Timer) {
    && id in s.pending && s.pending[id].query < |s.past.deadlines|
    && Listed(s.clock, x) && x.id in s.clock.expires && s.clock.expires[x.id] == id
    && x.id != s.pending[id].timer && x.when < s.past.deadlines[s.pending[id].query]
  }

  // ----- A calm step ------------------------------------------------------------------------------

  /** Handlers that do nothing. */
  lemma PlainResolve(s: State, id: U16, result: Option<Message>)
    requires s.acts == [] && id in s.pending
    ensures Resolve(s, id, result) == Answered(Removed(s, id), s.pending[id].query, result)
  {
    var a := Answered(Removed(s, id), s.pending[id].query, result);
    assert Listen(a) == a;
    assert Handle(Removed(s, id), s.pending[id].query, result) == a;
  }

  /** The timer at the front fires and answers the query that is pending under its id, if any. */
  function Fired(s: State): State
    requires s.clock.due != []
  {
    var t := s.clock.due[0].id;
    var rest := s.(acts := [], clock := s.clock.(due := s.clock.due[1..]));
    if t in s.clock.expires && s.clock.expires[t] in s.pending then
      var id := s.clock.expires[t];
      Answered(Removed(rest, id), s.pending[id].query, None)
    else rest
  }

  lemma CalmFire(s: State)
    requires s.clock.due != []
    ensures Next(s, Fire([])) == Fired(s)
  {
    var t := s.clock.due[0].id;
    var rest := s.(acts := [], clock := s.clock.(due := s.clock.due[1..]));
    if t in s.clock.expires && s.clock.expires[t] in s.pending {
      PlainResolve(rest, s.clock.expires[t], None);
    }
  }

  lemma FiredListed(s: State)
    requires s.clock.due != []
    ensures forall x :: Listed(Fired(s).clock, x) ==> Listed(s.clock, x)
  {
    var t := s.clock.due[0].id;
    if t in s.clock.expires && s.clock.expires[t] in s.pending {
      SelectFrom(s.clock.armed, (y: Timer) => y.id != s.pending[s.clock.expires[t]].timer);
    }
  }

  lemma HarvestListed(s: State)
    ensures forall x :: Listed(Next(s, Harvest).clock, x) <==> Listed(s.clock, x)
  {
    SelectFrom(s.clock.armed, (t: Timer) => t.when <= s.clock.now);
    SelectFrom(s.clock.armed, (t: Timer) => t.when > s.clock.now);
  }

  // ----- Without such a timer no query is early -----------------------------------------------------

  /** The query has not been answered early, and while it is pending no timer is behind it. */
  ghost predicate Guarded(s: State, id: U16, q: nat) {
    && q < |s.past.asks| && s.past.asks[q].id == id && Dated(s) && DueNow(s.clock)
    && !AnsweredEarly(s, q)
    && (id in s.pending && s.pending[id].query == q ==> forall x :: !Behind(s, id, x))
  }

  lemma SameAnswersNotEarly(s: State, r: State, q: nat)
    requires !AnsweredEarly(s, q) && r.past.answers == s.past.answers && r.past.deadlines == s.past.deadlines
    ensures !AnsweredEarly(r, q)
  {
    forall i | 0 <= i < |r.past.answers| ensures !Early(r, r.past.answers[i], q) {
      assert !Early(s, s.past.answers[i], q);
    }
  }

  lemma AnsweredNotEarly(s: State, query: nat, q: nat)
    requires !AnsweredEarly(s, q) && !Early(s, Answer(query, None, s.clock.now), q)
    ensures !AnsweredEarly(Answered(s, query, None), q)
  {
    var r := Answered(s, query, None);
    forall i | 0 <= i < |r.past.answers| ensures !Early(r, r.past.answers[i], q) {
      if i < |s.past.answers| {
        assert !Early(s, s.past.answers[i], q);
      }
    }
  }

  /** The answer that a firing timer gives to the query is not early. */
  lemma FiringNotEarly(s: State, id: U16, q: nat)
    requires Guarded(s, id, q) && s.clock.due != []
    ensures !AnsweredEarly(Fired(s), q)
  {
    hide AnsweredEarly;
    var x := s.clock.due[0];
    var rest := s.(acts := [], clock := s.clock.(due := s.clock.due[1..]));
    SameAnswersNotEarly(s, rest, q);
    if x.id in s.clock.expires && s.clock.expires[x.id] in s.pending {
      var k := s.clock.expires[x.id];
      var removed := Removed(rest, k);
      SameAnswersNotEarly(rest, removed, q);
      if s.pending[k].query == q {
        assert Listed(s.clock, x) && !Behind(s, id, x);
        assert DatedAt(s, id, x);
        assert x.when <= s.clock.now;
      }
      AnsweredNotEarly(removed, s.pending[k].query, q);
    }
  }

  lemma CalmKeepsGuard(s: State, step: Step, id: U16, q: nat)
    requires Guarded(s, id, q) && Calm(step)
    ensures Guarded(Next(s, step), id, q)
  {
    var r := Next(s, step);
    NextKeepsDated(s, step);
    NextKeepsDue(s, step);
    if step.Fire? && s.clock.due != [] {
      CalmFire(s);
      FiredListed(s);
      FiringNotEarly(s, id, q);
    } else {
      HarvestListed(s);
      SameAnswersNotEarly(s, r, q);
    }
    hide AnsweredEarly, Dated, DueNow;
    if id in r.pending && r.pending[id].query == q {
      forall x ensures !Behind(r, id, x) {
        assert !Behind(s, id, x);
      }
    }
  }

  lemma {:induction false} CalmRunKeepsGuard(s: State, steps: seq<Step>, id: U16, q: nat)
    requires Guarded(s, id, q) && AllCalm(steps)
    ensures Guarded(Run(s, steps), id, q)
    decreases |steps|
  {
    hide Guarded;
    if steps != [] {
      CalmRunKeepsGuard(s, steps[..|steps| - 1], id, q);
      CalmKeepsGuard(Run(s, steps[..|steps| - 1]), steps[|steps| - 1], id, q);
    }
  }

  // ----- With such a timer the query may be early ----------------------------------------------------

  ghost predicate Exposed(s: State, id: U16, x: Timer) {
    TimersInv(s, None) && DeadlineAhead(s, id) && Behind(s, id, x)
  }

  lemma AnsweredNow(s: State, q: nat)
    requires q < |s.past.deadlines| && s.clock.now < s.past.deadlines[q]
    ensures AnsweredEarly(Answered(s, q, None), q)
  {
    var r := Answered(s, q, None);
    assert Early(r, r.past.answers[|s.past.answers|], q);
  }

  /** A firing timer answers the query, or leaves it exposed. */
  lemma FireExposes(s: State, id: U16, x: Timer)
    requires Exposed(s, id, x) && s.clock.due != []
    ensures var r := Next(s, Fire([]));
      || AnsweredEarly(r, s.pending[id].query)
      || (x != s.clock.due[0] && Exposed(r, id, x) && r.pending[id] == s.pending[id]
          && r.clock.due == s.clock.due[1..] && r.clock.now == s.clock.now
          && (x in s.clock.armed ==> x in r.clock.armed))
  {
    hide TimersInv, Next, AnsweredEarly;
    var t := s.clock.due[0].id;
    NextKeepsTimers(s, Fire([]));
    CalmFire(s);
    var rest := s.(acts := [], clock := s.clock.(due := s.clock.due[1..]));
    if t in s.clock.expires && s.clock.expires[t] == id {
      AnsweredNow(Removed(rest, id), s.pending[id].query);
    } else {
      StaysListed(s, id, x);
    }
  }

  /** Clearing the timer of another query leaves the timer where it is. */
  lemma StaysListed(s: State, id: U16, x: Timer)
    requires Exposed(s, id, x) && s.clock.due != []
    requires !(s.clock.due[0].id in s.clock.expires && s.clock.expires[s.clock.due[0].id] == id)
    ensures Listed(Fired(s).clock, x) && x != s.clock.due[0] && (x in s.clock.armed ==> x in Fired(s).clock.armed)
  {
    var t := s.clock.due[0].id;
    if t in s.clock.expires && s.clock.expires[t] in s.pending {
      var k := s.clock.expires[t];
      assert s.clock.expires[s.pending[k].timer] == k;
      SelectFrom(s.clock.armed, (y: Timer) => y.id != s.pending[k].timer);
    }
  }

  /** The harvested timers fire until the query is answered. */
  lemma {:induction false} FireUntil(s: State, id: U16, x: Timer) returns (steps: seq<Step>)
    requires Exposed(s, id, x) && x in s.clock.due
    ensures AllCalm(steps) && AnsweredEarly(Run(s, steps), s.pending[id].query)
    decreases |s.clock.due|
  {
    hide Exposed, AnsweredEarly, Next;
    var r := Next(s, Fire([]));
    var q := EntryQuery(s, id, x);
    FireExposes(s, id, x);
    var more: seq<Step> := [];
    if !AnsweredEarly(r, q) {
      more := FireUntil(r, id, x);
    }
    steps := [Fire([])] + more;
    RunFirst(s, steps);
    assert steps[1..] == more;
  }

  lemma EntryQuery(s: State, id: U16, x: Timer) returns (q: nat)
    requires Exposed(s, id, x)
    ensures id in s.pending && q == s.pending[id].query
  {
    q := s.pending[id].query;
  }

  /** The harvested timers fire to the last: the query is answered, or the timer is still armed. */
  lemma {:induction false} FireRest(s: State, id: U16, x: Timer) returns (steps: seq<Step>)
    requires Exposed(s, id, x) && x in s.clock.armed
    ensures AllCalm(steps)
    ensures var r := Run(s, steps);
      || AnsweredEarly(r, s.pending[id].query)
      || (Exposed(r, id, x) && r.pending[id] == s.pending[id] && x in r.clock.armed && r.clock.due == []
          && r.clock.now == s.clock.now)
    decreases |s.clock.due|
  {
    hide Exposed, AnsweredEarly, Next;
    var q := EntryQuery(s, id, x);
    if s.clock.due == [] {
      steps := [];
    } else {
      var r := Next(s, Fire([]));
      FireExposes(s, id, x);
      var more: seq<Step> := [];
      if !AnsweredEarly(r, q) {
        more := FireRest(r, id, x);
      }
      steps := [Fire([])] + more;
      RunFirst(s, steps);
      assert steps[1..] == more;
    }
  }

  lemma TickExposes(s: State, id: U16, x: Timer, elapsed: nat)
    requires Exposed(s, id, x) && s.clock.now + elapsed < s.past.deadlines[s.pending[id].query]
    ensures Exposed(Next(s, Tick(elapsed)), id, x)
  {
    hide TimersInv;
    NextKeepsTimers(s, Tick(elapsed));
  }

  lemma HarvestExposes(s: State, id: U16, x: Timer)
    requires Exposed(s, id, x) && x in s.clock.armed && s.clock.due == [] && x.when <= s.clock.now
    ensures var r := Next(s, Harvest); Exposed(r, id, x) && x in r.clock.due && r.pending == s.pending
  {
    hide TimersInv;
    NextKeepsTimers(s, Harvest);
    HarvestListed(s);
    SelectFrom(s.clock.armed, (t: Timer) => t.when <= s.clock.now);
  }

  /** Once nothing is harvested, time passes up to the timer, which is harvested and fires. */
  lemma WaitAndFire(s: State, id: U16, x: Timer) returns (steps: seq<Step>)
    requires Exposed(s, id, x) && x in s.clock.armed && s.clock.due == []
    ensures AllCalm(steps) && AnsweredEarly(Run(s, steps), s.pending[id].query)
  {
    hide TimersInv, AnsweredEarly;
    var elapsed := if x.when > s.clock.now then x.when - s.clock.now else 0;
    var ticked := Next(s, Tick(elapsed));
    var harvested := Next(ticked, Harvest);
    TickExposes(s, id, x, elapsed);
    HarvestExposes(ticked, id, x);
    var more := FireUntil(harvested, id, x);
    steps := [Tick(elapsed), Harvest] + more;
    RunFirst(s, steps);
    RunFirst(ticked, steps[1..]);
    assert steps[1..][1..] == more;
  }

  lemma {:induction false} RunAppend(s: State, a: seq<Step>, b: seq<Step>)
    ensures Run(s, a + b) == Run(Run(s, a), b)
    decreases |b|
  {
    hide Next;
    if b == [] {
      assert a + b == a;
    } else {
      RunAppend(s, a, b[..|b| - 1]);
      assert (a + b)[..|a + b| - 1] == a + b[..|b| - 1];
    }
  }

  lemma ExposedMayBeEarly(s: State, id: U16, x: Timer)
    requires Exposed(s, id, x)
    ensures MayTimeOutEarly(s, s.pending[id].query)
  {
    var q := s.pending[id].query;
    if x in s.clock.due {
      var steps := FireUntil(s, id, x);
    } else {
      var first := FireRest(s, id, x);
      var r := Run(s, first);
      if !AnsweredEarly(r, q) {
        var last := WaitAndFire(r, id, x);
        RunAppend(s, first, last);
        assert AllCalm(first + last);
      }
    }
  }

  /**
   * Over every run, clashes or not: a pending query whose deadline lies ahead may be answered before
   * it, with time and timers alone, exactly when another timer for its id is due before it.
   */
  lemma EarlyTimeoutExact(steps: seq<Step>, id: U16)
    requires DeadlineAhead(Run(START, steps), id)
    ensures var s := Run(START, steps);
      MayTimeOutEarly(s, s.pending[id].query) <==> exists x :: Behind(s, id, x)
  {
    var s := Run(START, steps);
    var q := s.pending[id].query;
    RunKeepsTimers(steps);
    if x :| Behind(s, id, x) {
      ExposedMayBeEarly(s, id, x);
    } else {
      RunKeepsDated(steps);
      RunExcused(steps);
      NotAnsweredYet(steps, id);
      assert Guarded(s, id, q);
      forall more | AllCalm(more) ensures !AnsweredEarly(Run(s, more), q) {
        CalmRunKeepsGuard(s, more, id, q);
      }
    }
  }

  lemma NotAnsweredYet(steps: seq<Step>, id: U16)
    requires id in Run(START, steps).pending
    ensures var s := Run(START, steps);
      !AnsweredEarly(s, s.pending[id].query) && !IsAnswered(s, s.pending[id].query)
  {
    var s := Run(START, steps);
    RunKeepsOnce(steps);
    assert EntryFits(s, id);
  }

  // ----- A failed send ---------------------------------------------------------------------------------

  lemma PlainRefusal(s: State, ask: Ask)
    requires s.acts == [] && Serialize(Request(ask)).None?
    ensures Query(s, ask) == Answered(Asked(s, ask), |s.past.asks|, None)
  {
    hide Serialize;
    var a := Asked(s, ask);
    var r := Answered(a, |s.past.asks|, None);
    assert Listen(a) == a && Listen(r) == r;
    assert Handle(a, |s.past.asks|, None) == r;
  }

  lemma PlainFailure(s: State, ask: Ask)
    requires s.acts == [] && Serialize(Request(ask)).Some? && !ask.sent
    ensures var g := Registered(s, ask);
      ask.id in g.pending && Query(s, ask) == Answered(Removed(g, ask.id), g.pending[ask.id].query, None)
  {
    hide Serialize;
    var g := Registered(s, ask);
    assert Listen(g) == g;
    PlainResolve(g, ask.id, None);
  }

  lemma SameAnswersSameAnswered(s: State, r: State, q: nat)
    requires r.past.answers == s.past.answers
    ensures IsAnswered(r, q) == IsAnswered(s, q)
  {
  }

  /** A new query answers a pending one at once exactly when it has the same id and cannot be sent. */
  lemma FailedSendExact(steps: seq<Step>, id: U16, ask: Ask)
    requires id in Run(START, steps).pending
    ensures var s := Run(START, steps);
      IsAnswered(Next(s, UserQuery(ask, [])), s.pending[id].query)
      <==> Serialize(Request(ask)).Some? && !ask.sent && ask.id == id
  {
    hide Serialize, IsAnswered;
    var s := Run(START, steps);
    var t, q := s.(acts := []), s.pending[id].query;
    RunKeepsOnce(steps);
    NotAnsweredYet(steps, id);
    assert EntryFits(s, id);
    if Serialize(Request(ask)).None? {
      PlainRefusal(t, ask);
      AnsweredGrows(Asked(t, ask), |s.past.asks|, None);
      SameAnswersSameAnswered(s, Asked(t, ask), q);
    } else if ask.sent {
      SameAnswersSameAnswered(s, Registered(t, ask), q);
    } else {
      var g := Registered(t, ask);
      PlainFailure(t, ask);
      AnsweredGrows(Removed(g, ask.id), g.pending[ask.id].query, None);
      SameAnswersSameAnswered(s, Removed(g, ask.id), q);
      assert ask.id in s.pending ==> EntryFits(s, ask.id);
    }
  }

  /** Two queries with one id, the second of which cannot be sent: the first is answered at once. */
  lemma FailedSendAnswersAnother() returns (steps: seq<Step>)
    ensures var p := Run(START, steps).past;
      |p.asks| == 2 && p.asks[0].sent && p.clashed == {1} && AnsweredEarly(Run(START, steps), 0)
  {
    var failing := ROOT.(sent := false);
    steps := [UserQuery(ROOT, []), UserQuery(failing, [])];
    RootSerializes();
    PlainQuery(START);
    assert Request(failing) == Request(ROOT);
    hide Serialize, AnsweredEarly;
    var s1 := Next(START, UserQuery(ROOT, []));
    var g := Registered(s1.(acts := []), failing);
    assert g.pending == s1.pending == map[ROOT.id := Pending(0, 1)];
    PlainFailure(s1.(acts := []), failing);
    AnsweredNow(Removed(g, ROOT.id), 0);
    RunFirst(START, steps);
    RunFirst(s1, steps[1..]);
    assert steps[1..][1..] == [];
  }

  // ----- The timer of a lost query ------------------------------------------------------------------------

  const TIMEOUT: nat := 5000 * NS_PER_MS

  lemma SelectTwo(a: Timer, b: Timer, keep: Timer -> bool)
    ensures Select([a, b], keep) == (if keep(a) then [a] else []) + (if keep(b) then [b] else [])
  {
    assert [a, b] == [a] + [b] && [a][1..] == [] && [b][1..] == [];
    SelectAppend([a], [b], keep);
    assert Select([a], keep) == if keep(a) then [a] else [];
    assert Select([b], keep) == if keep(b) then [b] else [];
  }

  lemma PlainQuery(s: State)
    ensures Next(s, UserQuery(ROOT, [])) == Registered(s.(acts := []), ROOT)
  {
    RootSerializes();
    hide Serialize;
  }

  /** An answered query, a lost one, and the timer of the lost one. */
  predicate Orphaned(s: State) {
    && s.pending == map[] && s.timeout == TIMEOUT
    && s.clock == Clock(0, [Timer(2, TIMEOUT)], [], 3, map[1 := ROOT.id, 2 := ROOT.id])
    && s.past.clashed == {1} && |s.past.asks| == |s.past.deadlines| == 2 && |s.past.answers| == 1
  }

  /** Two queries with one id: the timer of the second, which is lost, stays armed when the first is answered. */
  lemma OrphanStays(reply: seq<Byte>)
    requires Parse(reply).Some? && Parse(reply).value.header.id == ROOT.id
    ensures Orphaned(Next(Next(Next(START, UserQuery(ROOT, [])), UserQuery(ROOT, [])), Datagram(reply, [])))
  {
    hide Parse;
    var s1 := Next(START, UserQuery(ROOT, []));
    var s2 := Next(s1, UserQuery(ROOT, []));
    PlainQuery(START);
    PlainQuery(s1);
    assert s1.pending == s2.pending == map[ROOT.id := Pending(0, 1)];
    assert s2.clock.armed == [Timer(1, TIMEOUT), Timer(2, TIMEOUT)];
    SelectTwo(Timer(1, TIMEOUT), Timer(2, TIMEOUT), (t: Timer) => t.id != 1);
    assert s2.pending - {ROOT.id} == map[];
    PlainResolve(s2.(acts := []), ROOT.id, Parse(reply));
  }

  /** A later query with the id is in the table, behind that timer. */
  lemma OrphanIsFirst(s: State)
    requires Orphaned(s)
    ensures var r := Next(Next(Next(Next(s, Tick(1)), UserQuery(ROOT, [])), Tick(TIMEOUT - 1)), Harvest);
      && r.pending == map[ROOT.id := Pending(2, 3)] && r.clock.due == [Timer(2, TIMEOUT)] && r.clock.now == TIMEOUT
      && 2 in r.clock.expires && r.clock.expires[2] == ROOT.id && |r.past.answers| == 1
      && |r.past.deadlines| == 3 && r.past.deadlines[2] == TIMEOUT + 1 && r.past.clashed == {1}
  {
    var ticked := Next(s, Tick(1));
    PlainQuery(ticked);
    var later := Next(Next(ticked, UserQuery(ROOT, [])), Tick(TIMEOUT - 1));
    assert later.clock.armed == [Timer(2, TIMEOUT), Timer(3, TIMEOUT + 1)];
    SelectTwo(Timer(2, TIMEOUT), Timer(3, TIMEOUT + 1), (t: Timer) => t.when <= TIMEOUT);
    assert Due(later.clock.armed, TIMEOUT) == [Timer(2, TIMEOUT)];
  }

  /** That timer answers it, before its own deadline. */
  lemma OrphanFires(s: State)
    requires Orphaned(s)
    ensures var h := Next(Next(Next(Next(s, Tick(1)), UserQuery(ROOT, [])), Tick(TIMEOUT - 1)), Harvest);
      var r := Next(h, Fire([]));
      && |r.past.answers| == 2 && r.past.answers[1] == Answer(2, None, TIMEOUT)
      && |r.past.deadlines| == 3 && r.past.deadlines[2] == TIMEOUT + 1 && r.past.clashed == {1}
  {
    OrphanIsFirst(s);
    var h := Next(Next(Next(Next(s, Tick(1)), UserQuery(ROOT, [])), Tick(TIMEOUT - 1)), Harvest);
    FireExpires(h);
  }

  lemma FireExpires(h: State)
    requires h.clock.due != [] && h.clock.due[0].id in h.clock.expires
    requires h.clock.expires[h.clock.due[0].id] in h.pending
    ensures var id := h.clock.expires[h.clock.due[0].id];
      Next(h, Fire([])).past == Answered(h, h.pending[id].query, None).past
  {
    var rest := h.(acts := [], clock := h.clock.(due := h.clock.due[1..]));
    PlainResolve(rest, h.clock.expires[h.clock.due[0].id], None);
  }

  /** Such a run from the start: query 2 did not clash, was sent, and times out before its deadline. */
  lemma ClashTimesOutAnother() returns (steps: seq<Step>)
    ensures var p := Run(START, steps).past;
      && |p.answers| == 2 && |p.deadlines| == 3 && 2 !in p.clashed
      && p.answers[1].query == 2 && p.answers[1].result.None? && p.answers[1].at < p.deadlines[2]
  {
    RootSerializes();
    RequestReadsBack(ROOT);
    var reply := Serialize(Request(ROOT)).value;
    OrphanStays(reply);
    var s3 := Next(Next(Next(START, UserQuery(ROOT, [])), UserQuery(ROOT, [])), Datagram(reply, []));
    OrphanFires(s3);
    hide Next, Serialize, Parse;
    var last := [Tick(1), UserQuery(ROOT, []), Tick(TIMEOUT - 1), Harvest, Fire([])];
    steps := [UserQuery(ROOT, []), UserQuery(ROOT, []), Datagram(reply, [])] + last;
    RunFirst(START, steps);
    RunFirst(Next(START, steps[0]), steps[1..]);
    RunFirst(Next(Next(START, steps[0]), steps[1]), steps[1..][1..]);
    assert steps[1..][1..][1..] == last;
    RunLast(s3, last);
  }

  lemma RunLast(s: State, steps: seq<Step>)
    requires |steps| == 5
    ensures Run(s, steps) == Next(Next(Next(Next(Next(s, steps[0]), steps[1]), steps[2]), steps[3]), steps[4])
  {
    hide Next;
    var s1 := Next(s, steps[0]);
    var s2 := Next(s1, steps[1]);
    var s3 := Next(s2, steps[2]);
    var s4 := Next(s3, steps[3]);
    RunFirst(s, steps);
    RunFirst(s1, steps[1..]);
    RunFirst(s2, steps[2..]);
    RunFirst(s3, steps[3..]);
    RunFirst(s4, steps[4..]);
    assert steps[1..][1..] == steps[2..] && steps[2..][1..] == steps[3..];
    assert steps[3..][1..] == steps[4..] && steps[4..][1..] == [];
  }
}
