/** What each input of a dns::client does, read off the run: replies, queries, patience and time. */
module ClientReplies {
  import opened Wire
  import opened Messages
  import opened Timers
  import opened ClientModel
  import opened ClientEarly

  // ----- Replies --------------------------------------------------------------------------------

  /**
   * A reply, at any point of any run at which the timer pass is over. The handler of the query with
   * its id is the next to run, at once, and gets the message as it was parsed. A reply for any other
   * id changes nothing but the script of the handlers.
   */
  lemma ReplyReachesHandler(steps: seq<Step>, datagram: seq<Byte>, acts: seq<Act>)
    requires Run(START, steps).clock.due == [] && Parse(datagram).Some?
    ensures var s := Run(START, steps);
      var r := Next(s, Datagram(datagram, acts));
      var m := Parse(datagram).value;
      && (m.header.id in s.pending ==>
            && s.past.answers <= r.past.answers && |r.past.answers| > |s.past.answers|
            && r.past.answers[|s.past.answers|] == Answer(s.pending[m.header.id].query, Some(m), s.clock.now))
      && (m.header.id !in s.pending ==> r == s.(acts := acts))
  {
    hide Parse;
    var s := Run(START, steps);
    var t := s.(acts := acts);
    var m := Parse(datagram).value;
    if m.header.id in s.pending {
      var a := Answered(Removed(t, m.header.id), s.pending[m.header.id].query, Some(m));
      assert a.past.answers[|s.past.answers|] == Answer(s.pending[m.header.id].query, Some(m), s.clock.now);
      assert Grows(a, Listen(a));
      assert Next(s, Datagram(datagram, acts)) == Resolve(t, m.header.id, Some(m)) == Listen(a) by {
        assert Handle(Removed(t, m.header.id), s.pending[m.header.id].query, Some(m)) == Listen(a);
      }
    }
  }

  /** A handler that does nothing leaves the other entries and their timers; its own entry and timer are gone. */
  lemma ReplySettles(steps: seq<Step>, datagram: seq<Byte>)
    requires var s := Run(START, steps);
      s.clock.due == [] && Parse(datagram).Some? && Parse(datagram).value.header.id in s.pending
    ensures var s := Run(START, steps);
      var r := Next(s, Datagram(datagram, []));
      var id := Parse(datagram).value.header.id;
      && r.pending == s.pending - {id} && |r.past.answers| == |s.past.answers| + 1
      && r.past.asks == s.past.asks && r.clock.due == [] && r.clock.now == s.clock.now
      && (forall x :: x in r.clock.armed <==> x in s.clock.armed && x.id != s.pending[id].timer)
  {
    hide Parse;
    var s := Run(START, steps);
    var id := Parse(datagram).value.header.id;
    PlainResolve(s.(acts := []), id, Parse(datagram));
    SelectFrom(s.clock.armed, (t: Timer) => t.id != s.pending[id].timer);
  }

  /** A datagram that does not parse changes nothing but what error listeners ask; none is heard during a pass. */
  lemma MalformedChangesNothing(steps: seq<Step>, datagram: seq<Byte>, acts: seq<Act>)
    ensures var s := Run(START, steps);
      && (s.clock.due != [] ==> Next(s, Datagram(datagram, acts)) == s)
      && (s.clock.due == [] && Parse(datagram).None? ==> Next(s, Datagram(datagram, [])) == s.(acts := []))
  {
    hide Parse;
  }

  /** Error listeners run on a malformed datagram: a query that they issue is asked. */
  lemma ErrorListenersAsk(steps: seq<Step>, datagram: seq<Byte>, ask: Ask)
    requires Run(START, steps).clock.due == [] && Parse(datagram).None?
    ensures var s := Run(START, steps);
      s.past.asks + [ask] <= Next(s, Datagram(datagram, [Issue(ask), Return])).past.asks
  {
    hide Parse;
    ListenerAsks(Run(START, steps).(acts := [Issue(ask), Return]), ask);
  }

  lemma ListenerAsks(s: State, ask: Ask)
    requires s.acts == [Issue(ask), Return]
    ensures s.past.asks + [ask] <= Listen(s).past.asks
  {
    hide Serialize;
    var rest := ActsLeft(s);
    QueryAsks(rest, ask);
    assert Listen(s) == Listen(Query(rest, ask));
    assert Grows(Query(rest, ask), Listen(Query(rest, ask)));
  }

  /** A timer of somebody else may ask too when it runs. */
  lemma OtherTimersAsk(steps: seq<Step>, ask: Ask)
    requires var c := Run(START, steps).clock; c.due != [] && c.due[0].id !in c.expires
    ensures var s := Run(START, steps);
      s.past.asks + [ask] <= Next(s, Fire([Issue(ask), Return])).past.asks
  {
    var s := Run(START, steps);
    ListenerAsks(s.(acts := [Issue(ask), Return], clock := s.clock.(due := s.clock.due[1..])), ask);
  }

  // ----- Queries ------------------------------------------------------------------------------------

  lemma QueryAsks(s: State, ask: Ask)
    ensures var r := Query(s, ask);
      && s.past.asks + [ask] <= r.past.asks && s.past.deadlines + [s.clock.now + s.timeout] <= r.past.deadlines
  {
    hide Serialize;
    var a := Asked(s, ask);
    if Serialize(Request(ask)).None? {
      assert Grows(a, Listen(a));
    } else if !ask.sent {
      var g := Registered(s, ask);
      assert Grows(g, Listen(g));
    }
  }

  /** How long a query waits: as the last call of set_timeout says, or 5000 ms. */
  function PatienceOf(steps: seq<Step>): (r: int)
  {
    if steps == [] then 5000 * 1_000_000
    else if steps[|steps| - 1].SetPatience? then steps[|steps| - 1].timeout
    else PatienceOf(steps[..|steps| - 1])
  }

  function ElapsedIn(steps: seq<Step>): (r: nat)
  {
    if steps == [] then 0
    else ElapsedIn(steps[..|steps| - 1]) + if steps[|steps| - 1].Tick? then steps[|steps| - 1].elapsed else 0
  }

  lemma {:induction false} ListenKeepsTimeout(s: State)
    ensures Listen(s).timeout == s.timeout
    decreases |s.acts|, 0
  {
    if s.acts != [] && s.acts[0].Issue? {
      QueryKeepsTimeout(ActsLeft(s), s.acts[0].ask);
      ListenKeepsTimeout(Query(ActsLeft(s), s.acts[0].ask));
    }
  }

  lemma {:induction false} ResolveKeepsTimeout(s: State, id: U16, result: Option<Message>)
    ensures Resolve(s, id, result).timeout == s.timeout
    decreases |s.acts|, 2
  {
    if id in s.pending {
      ListenKeepsTimeout(Answered(Removed(s, id), s.pending[id].query, result));
    }
  }

  lemma {:induction false} QueryKeepsTimeout(s: State, ask: Ask)
    ensures Query(s, ask).timeout == s.timeout
    decreases |s.acts|, 3
  {
    hide Serialize;
    if Serialize(Request(ask)).None? {
      ListenKeepsTimeout(Asked(s, ask));
      ListenKeepsTimeout(Answered(Listen(Asked(s, ask)), |s.past.asks|, None));
    } else if !ask.sent {
      ListenKeepsTimeout(Registered(s, ask));
      ResolveKeepsTimeout(Listen(Registered(s, ask)), ask.id, None);
    }
  }

  lemma NextKeepsTimeout(s: State, step: Step)
    ensures Next(s, step).timeout == if step.SetPatience? then step.timeout else s.timeout
    ensures Next(s, step).clock.now == s.clock.now + if step.Tick? then step.elapsed else 0
  {
    hide Parse, Serialize;
    match step
    case UserQuery(ask, acts) => QueryKeepsTimeout(s.(acts := acts), ask);
    case Datagram(datagram, acts) =>
      ListenKeepsTimeout(s.(acts := acts));
      if Parse(datagram).Some? {
        ResolveKeepsTimeout(s.(acts := acts), Parse(datagram).value.header.id, Parse(datagram));
      }
    case Fire(acts) =>
      if s.clock.due != [] {
        var rest := s.(acts := acts, clock := s.clock.(due := s.clock.due[1..]));
        ListenKeepsTimeout(rest);
        if s.clock.due[0].id in s.clock.expires {
          ResolveKeepsTimeout(rest, s.clock.expires[s.clock.due[0].id], None);
        }
      }
    case _ =>
  }

  lemma {:induction false} TimeoutAsSet(steps: seq<Step>)
    ensures Run(START, steps).timeout == PatienceOf(steps) && Run(START, steps).clock.now == ElapsedIn(steps)
    decreases |steps|
  {
    hide Next;
    if steps != [] {
      TimeoutAsSet(steps[..|steps| - 1]);
      NextKeepsTimeout(Run(START, steps[..|steps| - 1]), steps[|steps| - 1]);
    }
  }

  /** Every query is asked, with the deadline that the patience at the call gives it. */
  lemma QueryIsAsked(steps: seq<Step>, ask: Ask, acts: seq<Act>)
    ensures var s := Run(START, steps);
      var r := Next(s, UserQuery(ask, acts));
      && s.past.asks + [ask] <= r.past.asks
      && s.past.deadlines + [ElapsedIn(steps) + PatienceOf(steps)] <= r.past.deadlines
  {
    hide Query;
    TimeoutAsSet(steps);
    QueryAsks(Run(START, steps).(acts := acts), ask);
  }

  /** A query that is accepted and sent under a free id is pending, with a timer for its deadline. */
  lemma SentIsPending(steps: seq<Step>, ask: Ask, acts: seq<Act>)
    requires var s := Run(START, steps); Serialize(Request(ask)).Some? && ask.sent && ask.id !in s.pending
    ensures var s := Run(START, steps);
      var r := Next(s, UserQuery(ask, acts));
      && ask.id in r.pending && r.pending[ask.id].query == |s.past.asks|
      && Timer(r.pending[ask.id].timer, ElapsedIn(steps) + PatienceOf(steps)) in r.clock.armed
      && r.past.answers == s.past.answers
  {
    hide Serialize;
    TimeoutAsSet(steps);
    var s := Run(START, steps);
    var r := Next(s, UserQuery(ask, acts));
    assert r.clock.armed[|s.clock.armed|] == Timer(r.pending[ask.id].timer, s.clock.now + s.timeout);
  }

  /** A refused name answers its own query at once, without an answer, after the error listeners. */
  lemma RefusedIsAnswered(steps: seq<Step>, ask: Ask, other: Ask)
    requires Serialize(Request(ask)).None? && Serialize(Request(other)).Some? && other.sent
    ensures var s := Run(START, steps);
      var plain := Next(s, UserQuery(ask, []));
      && plain.past.answers == s.past.answers + [Answer(|s.past.asks|, None, s.clock.now)]
      && plain.pending == s.pending && plain.clock == s.clock
    // the listener returns, then the handler asks
    ensures var s := Run(START, steps);
      Next(s, UserQuery(ask, [Return, Issue(other)])).past.asks == s.past.asks + [ask, other]
  {
    hide Serialize;
    var s := Run(START, steps);
    PlainRefusal(s.(acts := []), ask);
    var t := s.(acts := [Return, Issue(other)]);
    var a := Asked(t, ask);
    assert Listen(a) == ActsLeft(a);
    var h := Answered(ActsLeft(a), |s.past.asks|, None);
    assert h.acts == [Issue(other)] && ActsLeft(h).acts == [];
    var q := Query(ActsLeft(h), other);
    assert q == Registered(ActsLeft(h), other);
    assert Listen(q) == q;
    assert Listen(h) == q;
    assert Query(t, ask) == Handle(ActsLeft(a), |s.past.asks|, None) == Listen(h);
    assert q.past.asks == s.past.asks + [ask] + [other] == s.past.asks + [ask, other];
  }

  /** A failed send runs the error listeners before the handler of its query. */
  lemma FailedIsAnswered(steps: seq<Step>, ask: Ask, other: Ask)
    requires var s := Run(START, steps);
      && Serialize(Request(ask)).Some? && !ask.sent && ask.id !in s.pending
      && Serialize(Request(other)).Some? && other.sent
    ensures var s := Run(START, steps);
      var plain := Next(s, UserQuery(ask, []));
      plain.past.answers == s.past.answers + [Answer(|s.past.asks|, None, s.clock.now)] && plain.pending == s.pending
    ensures var s := Run(START, steps);
      Next(s, UserQuery(ask, [Return, Issue(other)])).past.asks == s.past.asks + [ask, other]
  {
    hide Serialize;
    var s := Run(START, steps);
    PlainFailure(s.(acts := []), ask);
    assert s.pending[ask.id := Pending(|s.past.asks|, s.clock.nextTimer)] - {ask.id} == s.pending;
    var t := s.(acts := [Return, Issue(other)]);
    var g := Registered(t, ask);
    assert Listen(g) == ActsLeft(g);
    var h := Answered(Removed(ActsLeft(g), ask.id), |s.past.asks|, None);
    assert h.acts == [Issue(other)] && ActsLeft(h).acts == [];
    var q := Query(ActsLeft(h), other);
    assert q == Registered(ActsLeft(h), other);
    assert Listen(q) == q;
    assert Listen(h) == q;
    assert Resolve(ActsLeft(g), ask.id, None) == Handle(Removed(ActsLeft(g), ask.id), |s.past.asks|, None) == Listen(h);
    assert q.past.asks == s.past.asks + [ask] + [other] == s.past.asks + [ask, other];
  }
}
