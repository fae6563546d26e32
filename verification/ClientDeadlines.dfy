/** When the handlers of a dns::client run without an answer: not late, and not early. */
module ClientDeadlines {
  import opened Wire
  import opened Messages
  import opened Timers
  import opened ClientModel
  import opened ClientTimers

  // ----- Not late ------------------------------------------------------------------------------

  predicate Listed(c: Clock, x: Timer) {
    x in c.armed || x in c.due
  }

  /** The timer of a pending query carries the deadline of that query. */
  predicate DatedAt(s: State, id: U16, x: Timer)
    requires id in s.pending
  {
    && s.pending[id].query < |s.past.deadlines| && s.pending[id].timer < s.clock.nextTimer
    && (x.id == s.pending[id].timer ==> x.when == s.past.deadlines[s.pending[id].query])
  }

  ghost predicate Dated(s: State) {
    && |s.past.deadlines| == |s.past.asks|
    && (forall x :: Listed(s.clock, x) ==> x.id < s.clock.nextTimer)
    && (forall id :: id in s.pending ==>
          && s.pending[id].query < |s.past.deadlines| && s.pending[id].timer < s.clock.nextTimer
          && s.past.asks[s.pending[id].query].id == id)
    && (forall id, x :: id in s.pending && Listed(s.clock, x) ==> DatedAt(s, id, x))
  }

  lemma RegisteredKeepsDated(s: State, ask: Ask)
    requires Dated(s)
    ensures Dated(Registered(s, ask))
  {
    var s' := Registered(s, ask);
    var timer := Timer(s.clock.nextTimer, s.clock.now + s.timeout);
    assert forall x :: Listed(s'.clock, x) <==> Listed(s.clock, x) || x == timer;
    forall id, x | id in s'.pending && Listed(s'.clock, x) ensures DatedAt(s', id, x) {
      if id in s.pending {
        assert x != timer ==> DatedAt(s, id, x);
      }
    }
  }

  lemma RemovedKeepsDated(s: State, id: U16)
    requires Dated(s) && id in s.pending
    ensures Dated(Removed(s, id))
  {
    var s' := Removed(s, id);
    SelectFrom(s.clock.armed, (t: Timer) => t.id != s.pending[id].timer);
    assert forall x :: Listed(s'.clock, x) ==> Listed(s.clock, x);
    forall other, x | other in s'.pending && Listed(s'.clock, x) ensures DatedAt(s', other, x) {
      assert DatedAt(s, other, x);
    }
  }

  /** Fewer timers, other handler runs, other ids asked: none of it moves a deadline. */
  lemma SameTableKeepsDated(s: State, s': State)
    requires Dated(s) && s'.pending == s.pending && s'.clock.nextTimer >= s.clock.nextTimer
    requires s.past.deadlines <= s'.past.deadlines && |s'.past.deadlines| == |s'.past.asks|
    requires s.past.asks <= s'.past.asks
    requires forall x :: Listed(s'.clock, x) ==>
      Listed(s.clock, x) || (s.clock.nextTimer <= x.id < s'.clock.nextTimer)
    ensures Dated(s')
  {
    forall id, x | id in s'.pending && Listed(s'.clock, x) ensures DatedAt(s', id, x) {
      assert Listed(s.clock, x) ==> DatedAt(s, id, x);
    }
  }

  lemma {:induction false} QueryKeepsDated(s: State, ask: Ask)
    requires Dated(s)
    ensures Dated(Query(s, ask))
    decreases |s.acts|, 3
  {
    hide Dated;
    if Serialize(Request(ask)).None? {
      var l := Listen(Asked(s, ask));
      var r := Answered(l, |s.past.asks|, None);
      DatedLengths(s);
      SameTableKeepsDated(s, Asked(s, ask));
      ListenKeepsDated(Asked(s, ask));
      DatedLengths(l);
      SameTableKeepsDated(l, r);
      ListenKeepsDated(r);
    } else {
      RegisteredKeepsDated(s, ask);
      if !ask.sent {
        ListenKeepsDated(Registered(s, ask));
        ResolveKeepsDated(Listen(Registered(s, ask)), ask.id, None);
      }
    }
  }

  lemma DatedLengths(s: State)
    requires Dated(s)
    ensures |s.past.deadlines| == |s.past.asks|
  {
  }

  lemma {:induction false} ResolveKeepsDated(s: State, id: U16, result: Option<Message>)
    requires Dated(s)
    ensures Dated(Resolve(s, id, result))
    decreases |s.acts|, 2
  {
    hide Dated;
    if id in s.pending {
      var r := Answered(Removed(s, id), s.pending[id].query, result);
      RemovedKeepsDated(s, id);
      DatedLengths(s);
      SameTableKeepsDated(Removed(s, id), r);
      ListenKeepsDated(r);
    }
  }

  lemma {:induction false} ListenKeepsDated(s: State)
    requires Dated(s)
    ensures Dated(Listen(s))
    decreases |s.acts|, 0
  {
    hide Dated;
    if s.acts != [] {
      DatedLengths(s);
      SameTableKeepsDated(s, ActsLeft(s));
      match s.acts[0]
      case Return =>
      case Issue(ask) =>
        QueryKeepsDated(ActsLeft(s), ask);
        ListenKeepsDated(Query(ActsLeft(s), ask));
    }
  }

  lemma NextKeepsDated(s: State, step: Step)
    requires Dated(s)
    ensures Dated(Next(s, step))
  {
    hide Dated;
    DatedLengths(s);
    match step
    case UserQuery(ask, acts) =>
      SameTableKeepsDated(s, s.(acts := acts));
      QueryKeepsDated(s.(acts := acts), ask);
    case Datagram(datagram, acts) =>
      SameTableKeepsDated(s, s.(acts := acts));
      if Parse(datagram).Some? {
        ResolveKeepsDated(s.(acts := acts), Parse(datagram).value.header.id, Parse(datagram));
      } else {
        ListenKeepsDated(s.(acts := acts));
      }
    case Harvest =>
      SelectFrom(s.clock.armed, (t: Timer) => t.when <= s.clock.now);
      SelectFrom(s.clock.armed, (t: Timer) => t.when > s.clock.now);
      SameTableKeepsDated(s, Next(s, Harvest));
    case Fire(acts) =>
      if s.clock.due != [] {
        var t := s.clock.due[0].id;
        var rest := s.(acts := acts, clock := s.clock.(due := s.clock.due[1..]));
        SameTableKeepsDated(s, rest);
        if t in s.clock.expires {
          ResolveKeepsDated(rest, s.clock.expires[t], None);
        } else {
          ListenKeepsDated(rest);
        }
      }
    case _ => SameTableKeepsDated(s, Next(s, step));
  }

  lemma {:induction false} RunKeepsDated(steps: seq<Step>)
    ensures Dated(Run(START, steps))
    decreases |steps|
  {
    if steps != [] {
      RunKeepsDated(steps[..|steps| - 1]);
      NextKeepsDated(Run(START, steps[..|steps| - 1]), steps[|steps| - 1]);
    }
  }

  lemma ListedById(c: Clock, t: nat) returns (x: Timer)
    requires t in Places(c)
    ensures Listed(c, x) && x.id == t
  {
    if t in Ids(c.armed) {
      var i :| 0 <= i < |c.armed| && IdList(c.armed)[i] == t;
      x := c.armed[i];
    } else {
      var i :| 0 <= i < |c.due| && IdList(c.due)[i] == t;
      x := c.due[i];
    }
  }

  /** No query is forgotten: once a timer pass has run, every query still pending has its deadline ahead. */
  lemma NoneOverdue(steps: seq<Step>, id: U16)
    requires var s := Run(START, steps);
      s.clock.due == [] && Due(s.clock.armed, s.clock.now) == [] && id in s.pending
    ensures var s := Run(START, steps);
      s.pending[id].query < |s.past.deadlines| && s.clock.now < s.past.deadlines[s.pending[id].query]
  {
    var s := Run(START, steps);
    RunKeepsTimers(steps);
    RunKeepsDated(steps);
    var x := ListedById(s.clock, s.pending[id].timer);
    assert DatedAt(s, id, x);
    SelectFrom(s.clock.armed, (t: Timer) => t.when <= s.clock.now);
  }

  // ----- Not early -------------------------------------------------------------------------------

  /** A reason for the handler of a query to run without an answer at a time. */
  predicate Cause(s: State, q: nat, at: nat) {
    && q < |s.past.asks| && q < |s.past.deadlines|
    && (Serialize(Request(s.past.asks[q])).None? || !s.past.asks[q].sent || s.past.deadlines[q] <= at)
  }

  /** The handler got an answer, or had a reason to run without, or a query was lost under its id. */
  predicate Justified(s: State, a: Answer) {
    a.query < |s.past.asks| &&
    (a.result.Some? || s.past.asks[a.query].id in Dirty(s) || Cause(s, a.query, a.at))
  }

  predicate Excused(s: State) {
    forall i :: 0 <= i < |s.past.answers| ==> Justified(s, s.past.answers[i])
  }

  lemma CauseStays(s: State, r: State, q: nat, at: nat)
    requires Cause(s, q, at) && s.past.asks <= r.past.asks && s.past.deadlines <= r.past.deadlines
    ensures Cause(r, q, at)
  {
    hide Serialize;
  }

  lemma JustifiedStays(s: State, r: State, a: Answer)
    requires Justified(s, a) && s.past.clashed <= r.past.clashed
    requires s.past.asks <= r.past.asks && s.past.deadlines <= r.past.deadlines
    ensures Justified(r, a)
  {
    hide Cause, Dirty;
    DirtyGrows(s, r);
    if Cause(s, a.query, a.at) {
      CauseStays(s, r, a.query, a.at);
    }
  }

  lemma SameAnswersExcused(s: State, r: State)
    requires Excused(s) && r.past.answers == s.past.answers && s.past.clashed <= r.past.clashed
    requires s.past.asks <= r.past.asks && s.past.deadlines <= r.past.deadlines
    ensures Excused(r)
  {
    hide Justified;
    forall i | 0 <= i < |r.past.answers| ensures Justified(r, r.past.answers[i]) {
      JustifiedStays(s, r, r.past.answers[i]);
    }
  }

  lemma AnsweredExcused(s: State, query: nat, result: Option<Message>)
    requires Excused(s) && Justified(s, Answer(query, result, s.clock.now))
    ensures Excused(Answered(s, query, result))
  {
    hide Justified;
    var r := Answered(s, query, result);
    forall i | 0 <= i < |r.past.answers| ensures Justified(r, r.past.answers[i]) {
      JustifiedStays(s, r, r.past.answers[i]);
    }
  }

  lemma {:induction false} QueryExcused(s: State, ask: Ask)
    requires Excused(s) && Dated(s)
    ensures Excused(Query(s, ask))
    decreases |s.acts|, 3
  {
    hide Excused, Dated, Serialize, Dirty;
    DatedLengths(s);
    var query := |s.past.asks|;
    if Serialize(Request(ask)).None? {
      var a := Asked(s, ask);
      var l := Listen(a);
      SameTableKeepsDated(s, a);
      SameAnswersExcused(s, a);
      ListenExcused(a);
      ListenKeepsDated(a);
      assert l.past.asks[query] == a.past.asks[query];
      HandleExcused(l, query, None);
    } else {
      var r := Registered(s, ask);
      SameAnswersExcused(s, r);
      RegisteredKeepsDated(s, ask);
      if !ask.sent {
        ListenExcused(r);
        ListenKeepsDated(r);
        OwnEntryFails(s, ask);
        ResolveExcused(Listen(r), ask.id, None);
      }
    }
  }

  /** A datagram that cannot be sent answers its own query, unless a query was lost under the id. */
  lemma OwnEntryFails(s: State, ask: Ask)
    requires |s.past.deadlines| == |s.past.asks| && !ask.sent
    ensures var l := Listen(Registered(s, ask));
      ask.id in l.pending && ask.id !in Dirty(l) ==> Cause(l, l.pending[ask.id].query, l.clock.now)
  {
    hide Serialize, Dirty;
    var r := Registered(s, ask);
    var l := Listen(r);
    RegisteredDirty(s, ask);
    ListenSpares(r);
    DirtyGrows(r, l);
    assert l.past.asks[|s.past.asks|] == r.past.asks[|s.past.asks|] == ask;
  }

  lemma {:induction false} ResolveExcused(s: State, id: U16, result: Option<Message>)
    requires Excused(s) && Dated(s)
    requires result.None? && id in s.pending && id !in Dirty(s) ==> Cause(s, s.pending[id].query, s.clock.now)
    ensures Excused(Resolve(s, id, result))
    decreases |s.acts|, 2
  {
    hide Excused, Serialize, Dirty, Cause;
    if id in s.pending {
      var removed, query := Removed(s, id), s.pending[id].query;
      assert Justified(s, Answer(query, result, s.clock.now));
      hide Dated;
      SameAnswersExcused(s, removed);
      RemovedKeepsDated(s, id);
      JustifiedStays(s, removed, Answer(query, result, s.clock.now));
      HandleExcused(removed, query, result);
    }
  }

  lemma {:induction false} HandleExcused(s: State, query: nat, result: Option<Message>)
    requires Excused(s) && Dated(s) && Justified(s, Answer(query, result, s.clock.now))
    ensures Excused(Handle(s, query, result))
    decreases |s.acts|, 1
  {
    hide Excused, Dated, Justified;
    DatedLengths(s);
    AnsweredExcused(s, query, result);
    SameTableKeepsDated(s, Answered(s, query, result));
    ListenExcused(Answered(s, query, result));
  }

  lemma {:induction false} ListenExcused(s: State)
    requires Excused(s) && Dated(s)
    ensures Excused(Listen(s))
    decreases |s.acts|, 0
  {
    hide Excused, Dated;
    DatedLengths(s);
    if s.acts != [] {
      SameAnswersExcused(s, ActsLeft(s));
      SameTableKeepsDated(s, ActsLeft(s));
      match s.acts[0]
      case Return =>
      case Issue(ask) =>
        QueryExcused(ActsLeft(s), ask);
        QueryKeepsDated(ActsLeft(s), ask);
        ListenExcused(Query(ActsLeft(s), ask));
    }
  }

  /** Harvested timers are due. */
  predicate DueNow(c: Clock) {
    forall i :: 0 <= i < |c.due| ==> c.due[i].when <= c.now
  }

  lemma NextKeepsDue(s: State, step: Step)
    requires DueNow(s.clock)
    ensures DueNow(Next(s, step).clock)
  {
    if step == Harvest && s.clock.due == [] {
      SelectFrom(s.clock.armed, (t: Timer) => t.when <= s.clock.now);
    }
  }

  /** A timer of the client that fires finds a query that is due, unless a query was lost under its id. */
  lemma FiringIsDue(s: State)
    requires TimersInv(s, None) && Dated(s) && DueNow(s.clock)
    requires s.clock.due != [] && s.clock.due[0].id in s.clock.expires
    ensures var id := s.clock.expires[s.clock.due[0].id];
      id !in Dirty(s) ==> id in s.pending && Cause(s, s.pending[id].query, s.clock.now)
  {
    hide TimersInv, Serialize, Dirty;
    var x := s.clock.due[0];
    FirstPopped(s);
    if s.clock.expires[x.id] !in Dirty(s) {
      assert Listed(s.clock, x);
      assert DatedAt(s, s.clock.expires[x.id], x);
    }
  }

  lemma FireExcused(s: State)
    requires Excused(s) && TimersInv(s, None) && Dated(s) && DueNow(s.clock) && s.clock.due != []
    ensures Excused(FireFirst(s))
  {
    hide Excused, TimersInv, Dirty, Dated, Cause;
    DatedLengths(s);
    var t := s.clock.due[0].id;
    var rest := s.(clock := s.clock.(due := s.clock.due[1..]));
    SameAnswersExcused(s, rest);
    SameTableKeepsDated(s, rest);
    SameDirty(s, rest);
    if t in s.clock.expires {
      var id := s.clock.expires[t];
      FiringIsDue(s);
      if id !in Dirty(s) {
        CauseStays(s, rest, s.pending[id].query, s.clock.now);
      }
      ResolveExcused(rest, id, None);
    } else {
      ListenExcused(rest);
    }
  }

  lemma NextExcused(s: State, step: Step)
    requires Excused(s) && TimersInv(s, None) && Dated(s) && DueNow(s.clock)
    ensures Excused(Next(s, step))
  {
    hide Excused, TimersInv, DueNow, Dated;
    DatedLengths(s);
    match step
    case UserQuery(ask, acts) =>
      SameAnswersExcused(s, s.(acts := acts));
      SameTableKeepsDated(s, s.(acts := acts));
      QueryExcused(s.(acts := acts), ask);
    case Datagram(datagram, acts) =>
      SameAnswersExcused(s, s.(acts := acts));
      SameTableKeepsDated(s, s.(acts := acts));
      if Parse(datagram).Some? {
        ResolveExcused(s.(acts := acts), Parse(datagram).value.header.id, Parse(datagram));
      } else {
        ListenExcused(s.(acts := acts));
      }
    case Fire(acts) =>
      if s.clock.due != [] {
        var t := s.(acts := acts);
        SameAnswersExcused(s, t);
        SameClockKeepsTimers(s, t);
        SameTableKeepsDated(s, t);
        assert DueNow(t.clock);
        FireExcused(t);
      }
    case _ => SameAnswersExcused(s, Next(s, step));
  }

  lemma {:induction false} RunExcused(steps: seq<Step>)
    ensures Excused(Run(START, steps)) && DueNow(Run(START, steps).clock)
    decreases |steps|
  {
    if steps != [] {
      var before := steps[..|steps| - 1];
      RunExcused(before);
      RunKeepsTimers(before);
      RunKeepsDated(before);
      NextExcused(Run(START, before), steps[|steps| - 1]);
      NextKeepsDue(Run(START, before), steps[|steps| - 1]);
    }
  }

  /**
   * In every run, a handler of a query under whose id no query was lost runs without an answer only
   * for a refused name, for a datagram that could not be sent, or at or after its deadline.
   */
  lemma NeverEarly(steps: seq<Step>, i: nat)
    requires var s := Run(START, steps);
      && i < |s.past.answers| && s.past.answers[i].result.None?
      && (forall k :: k in s.past.clashed && k < |s.past.asks| && s.past.answers[i].query < |s.past.asks| ==>
            s.past.asks[k].id != s.past.asks[s.past.answers[i].query].id)
    ensures var p := Run(START, steps).past;
      var q := p.answers[i].query;
      && q < |p.asks| && q < |p.deadlines|
      && (Serialize(Request(p.asks[q])).None? || !p.asks[q].sent || p.deadlines[q] <= p.answers[i].at)
  {
    hide Serialize;
    var s := Run(START, steps);
    RunExcused(steps);
    assert Justified(s, s.past.answers[i]);
  }
}
