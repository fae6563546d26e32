/** Every query of a dns::client is answered exactly once or still pending, unless its id clashed. */
module ClientProofs {
  import opened Wire
  import opened NameEncoding
  import opened Messages
  import opened ClientModel

  // ----- Exactly once ------------------------------------------------------------------

  predicate IsPending(s: State, q: nat)
    requires q < |s.past.asks|
  {
    var id := s.past.asks[q].id;
    id in s.pending && s.pending[id].query == q
  }

  predicate IsAnswered(s: State, q: nat) {
    exists i :: 0 <= i < |s.past.answers| && s.past.answers[i].query == q
  }

  /** A handler run belongs to a query that was asked, and a message in it carries the id of that query. */
  predicate AnswerFits(s: State, a: Answer) {
    && a.query < |s.past.asks|
    && (a.result.Some? ==> a.result.value.header.id == s.past.asks[a.query].id)
  }

  predicate AnsweredOnce(s: State) {
    forall i, j :: 0 <= i < j < |s.past.answers| ==> s.past.answers[i].query != s.past.answers[j].query
  }

  /** The entry belongs to a query with that id that has been neither answered nor lost to a clash. */
  predicate EntryFits(s: State, id: U16)
    requires id in s.pending
  {
    var q := s.pending[id].query;
    q < |s.past.asks| && s.past.asks[q].id == id && !IsAnswered(s, q) && q !in s.past.clashed
  }

  /** The query is in no list: its handler will run when the listeners in progress are done. */
  predicate Waits(s: State, q: nat) {
    q < |s.past.asks| && q !in s.past.clashed && !IsAnswered(s, q) && !IsPending(s, q)
  }

  /** `waiting`: queries refused, or removed from the table, whose handlers have still to run. */
  ghost predicate OnceInv(s: State, waiting: set<nat>) {
    && |s.past.deadlines| == |s.past.asks|
    && (forall q :: q in waiting ==> Waits(s, q))
    && (forall id :: id in s.pending ==> EntryFits(s, id))
    && (forall q: nat :: q < |s.past.asks| && q !in waiting ==>
          IsPending(s, q) || IsAnswered(s, q) || q in s.past.clashed)
    && (forall q :: q in s.past.clashed ==> q < |s.past.asks| && !IsAnswered(s, q))
    && (forall i :: 0 <= i < |s.past.answers| ==> AnswerFits(s, s.past.answers[i]))
    && AnsweredOnce(s)
  }

  lemma AnsweredGrows(s: State, query: nat, result: Option<Message>)
    ensures forall q :: IsAnswered(Answered(s, query, result), q) <==> IsAnswered(s, q) || q == query
  {
    var s' := Answered(s, query, result);
    assert s'.past.answers[|s.past.answers|].query == query;
    forall q ensures IsAnswered(s', q) <==> IsAnswered(s, q) || q == query {
      if i :| 0 <= i < |s.past.answers| && s.past.answers[i].query == q {
        assert s'.past.answers[i].query == q;
      }
    }
  }

  lemma AnsweredKeepsOnce(s: State, query: nat, result: Option<Message>, waiting: set<nat>)
    requires OnceInv(s, waiting + {query}) && query !in waiting
    requires result.Some? ==> result.value.header.id == s.past.asks[query].id
    ensures OnceInv(Answered(s, query, result), waiting)
  {
    var s' := Answered(s, query, result);
    AnsweredGrows(s, query, result);
    assert Waits(s, query);
    forall i, j | 0 <= i < j < |s'.past.answers| ensures s'.past.answers[i].query != s'.past.answers[j].query {
      if j == |s.past.answers| {
        assert !IsAnswered(s, query);
        assert s'.past.answers[i] == s.past.answers[i];
      }
    }
    forall q | q in waiting ensures Waits(s', q) {
      assert Waits(s, q);
    }
  }

  lemma AskedKeepsOnce(s: State, ask: Ask, waiting: set<nat>)
    requires OnceInv(s, waiting)
    ensures OnceInv(Asked(s, ask), waiting + {|s.past.asks|}) && |s.past.asks| !in waiting
  {
    var s' := Asked(s, ask);
    var query := |s.past.asks|;
    assert forall q :: IsAnswered(s', q) <==> IsAnswered(s, q);
    assert !IsAnswered(s, query) by {
      assert forall i :: 0 <= i < |s.past.answers| ==> AnswerFits(s, s.past.answers[i]);
    }
    forall q: nat | q < query ensures IsPending(s', q) == IsPending(s, q) {
      assert s'.past.asks[q] == s.past.asks[q];
    }
    forall q | q in waiting ensures Waits(s', q) && q != query {
      assert Waits(s, q);
    }
    assert Waits(s', query) by {
      assert forall id :: id in s.pending ==> EntryFits(s, id);
    }
  }

  lemma RegisteredKeepsOnce(s: State, ask: Ask, waiting: set<nat>)
    requires OnceInv(s, waiting)
    ensures OnceInv(Registered(s, ask), waiting)
  {
    var a := Asked(s, ask);
    var query := |s.past.asks|;
    AskedKeepsOnce(s, ask, waiting);
    EnteredKeepsOnce(Armed(a, ask.id), ask.id, Pending(query, s.clock.nextTimer), waiting, a);
  }

  /** The new query takes its place in the table, or is lost. */
  lemma EnteredKeepsOnce(a: State, id: U16, entry: Pending, waiting: set<nat>, asked: State)
    requires OnceInv(asked, waiting + {entry.query}) && a.past == asked.past && a.pending == asked.pending
    requires entry.query !in waiting && entry.query < |a.past.asks| && a.past.asks[entry.query].id == id
    ensures OnceInv(Entered(a, id, entry), waiting)
  {
    var s' := Entered(a, id, entry);
    assert forall q :: IsAnswered(s', q) <==> IsAnswered(asked, q);
    assert Waits(asked, entry.query);
    forall q: nat | q < |s'.past.asks| && q != entry.query ensures IsPending(s', q) == IsPending(asked, q) {
    }
    forall q | q in waiting ensures Waits(s', q) {
      assert Waits(asked, q);
    }
    forall k | k in s'.pending ensures EntryFits(s', k) {
      assert k in asked.pending ==> EntryFits(asked, k);
    }
  }

  lemma RemovedKeepsOnce(s: State, id: U16, waiting: set<nat>)
    requires OnceInv(s, waiting) && id in s.pending
    ensures OnceInv(Removed(s, id), waiting + {s.pending[id].query}) && s.pending[id].query !in waiting
  {
    var s' := Removed(s, id);
    var query := s.pending[id].query;
    assert EntryFits(s, id);
    assert forall q :: IsAnswered(s', q) <==> IsAnswered(s, q);
    forall q: nat | q < |s'.past.asks| && q != query ensures IsPending(s', q) == IsPending(s, q) {
    }
    forall q | q in waiting ensures Waits(s', q) && q != query {
      assert Waits(s, q);
    }
    forall k | k in s'.pending ensures EntryFits(s', k) {
      assert EntryFits(s, k);
    }
  }

  lemma {:induction false} QueryKeepsOnce(s: State, ask: Ask, waiting: set<nat>)
    requires OnceInv(s, waiting)
    ensures OnceInv(Query(s, ask), waiting)
    decreases |s.acts|, 3
  {
    hide OnceInv;
    if Serialize(Request(ask)).None? {
      var query := |s.past.asks|;
      AskedKeepsOnce(s, ask, waiting);
      ListenKeepsOnce(Asked(s, ask), waiting + {query});
      HandleKeepsOnce(Listen(Asked(s, ask)), query, None, waiting);
    } else {
      RegisteredKeepsOnce(s, ask, waiting);
      if !ask.sent {
        ListenKeepsOnce(Registered(s, ask), waiting);
        ResolveKeepsOnce(Listen(Registered(s, ask)), ask.id, None, waiting);
      }
    }
  }

  lemma {:induction false} ResolveKeepsOnce(s: State, id: U16, result: Option<Message>, waiting: set<nat>)
    requires OnceInv(s, waiting)
    requires result.Some? ==> result.value.header.id == id
    ensures OnceInv(Resolve(s, id, result), waiting)
    decreases |s.acts|, 2
  {
    if id in s.pending {
      assert EntryFits(s, id);
      RemovedKeepsOnce(s, id, waiting);
      HandleKeepsOnce(Removed(s, id), s.pending[id].query, result, waiting);
    }
  }

  lemma {:induction false} HandleKeepsOnce(s: State, query: nat, result: Option<Message>, waiting: set<nat>)
    requires OnceInv(s, waiting + {query}) && query !in waiting
    requires result.Some? ==> query < |s.past.asks| && result.value.header.id == s.past.asks[query].id
    ensures OnceInv(Handle(s, query, result), waiting)
    decreases |s.acts|, 1
  {
    AnsweredKeepsOnce(s, query, result, waiting);
    ListenKeepsOnce(Answered(s, query, result), waiting);
  }

  lemma {:induction false} ListenKeepsOnce(s: State, waiting: set<nat>)
    requires OnceInv(s, waiting)
    ensures OnceInv(Listen(s), waiting)
    decreases |s.acts|, 0
  {
    if s.acts != [] {
      SamePastKeepsOnce(s, ActsLeft(s), waiting);
      hide OnceInv;
      match s.acts[0]
      case Return =>
      case Issue(ask) =>
        QueryKeepsOnce(ActsLeft(s), ask, waiting);
        ListenKeepsOnce(Query(ActsLeft(s), ask), waiting);
    }
  }

  lemma SamePastKeepsOnce(s: State, s': State, waiting: set<nat>)
    requires OnceInv(s, waiting) && s'.past == s.past && s'.pending == s.pending
    ensures OnceInv(s', waiting)
  {
    assert forall q :: IsAnswered(s', q) <==> IsAnswered(s, q);
    assert forall id :: id in s.pending ==> EntryFits(s, id) ==> EntryFits(s', id);
    assert forall q :: q in waiting ==> Waits(s, q) ==> Waits(s', q);
  }

  lemma NextKeepsOnce(s: State, step: Step)
    requires OnceInv(s, {})
    ensures OnceInv(Next(s, step), {})
  {
    hide OnceInv;
    match step
    case UserQuery(ask, acts) =>
      SamePastKeepsOnce(s, s.(acts := acts), {});
      QueryKeepsOnce(s.(acts := acts), ask, {});
    case Datagram(datagram, acts) =>
      SamePastKeepsOnce(s, s.(acts := acts), {});
      if Parse(datagram).Some? {
        ResolveKeepsOnce(s.(acts := acts), Parse(datagram).value.header.id, Parse(datagram), {});
      } else {
        ListenKeepsOnce(s.(acts := acts), {});
      }
    case Fire(acts) =>
      if s.clock.due != [] {
        var t, rest := s.clock.due[0].id, s.(acts := acts, clock := s.clock.(due := s.clock.due[1..]));
        SamePastKeepsOnce(s, rest, {});
        if t in s.clock.expires {
          ResolveKeepsOnce(rest, s.clock.expires[t], None, {});
        } else {
          ListenKeepsOnce(rest, {});
        }
      }
    case _ => SamePastKeepsOnce(s, Next(s, step), {});
  }

  lemma {:induction false} RunKeepsOnce(steps: seq<Step>)
    ensures OnceInv(Run(START, steps), {})
    decreases |steps|
  {
    if steps != [] {
      RunKeepsOnce(steps[..|steps| - 1]);
      NextKeepsOnce(Run(START, steps[..|steps| - 1]), steps[|steps| - 1]);
    }
  }

  function Runs(s: State, q: nat): nat
  {
    RunsIn(s.past.answers, q)
  }

  function RunsIn(answers: seq<Answer>, q: nat): nat
  {
    if answers == [] then 0
    else RunsIn(answers[..|answers| - 1], q) + if answers[|answers| - 1].query == q then 1 else 0
  }

  lemma {:induction false} RunsAtMostOnce(answers: seq<Answer>, q: nat)
    requires forall i, j :: 0 <= i < j < |answers| ==> answers[i].query != answers[j].query
    ensures RunsIn(answers, q) == if exists i :: 0 <= i < |answers| && answers[i].query == q then 1 else 0
  {
    if answers != [] {
      var front := answers[..|answers| - 1];
      RunsAtMostOnce(front, q);
      if i :| 0 <= i < |front| && front[i].query == q {
        assert answers[i].query == q;
      }
    }
  }

  /**
   * Over every run, the handler of a query whose id clashed with an outstanding one never runs; that
   * of any other query has run exactly once, or has not run and the query is pending.
   */
  lemma ExactlyOnce(steps: seq<Step>, q: nat)
    requires q < |Run(START, steps).past.asks|
    ensures var s := Run(START, steps);
      if q in s.past.clashed then Runs(s, q) == 0 && !IsPending(s, q)
      else Runs(s, q) == if IsPending(s, q) then 0 else 1
  {
    var s := Run(START, steps);
    RunKeepsOnce(steps);
    RunsAtMostOnce(s.past.answers, q);
    assert IsPending(s, q) ==> EntryFits(s, s.past.asks[q].id);
  }

  /** A query clashes exactly when its name is accepted and its id is pending at the call. */
  lemma ClashExactly(steps: seq<Step>, ask: Ask, acts: seq<Act>)
    ensures var s := Run(START, steps);
      |s.past.asks| in Next(s, UserQuery(ask, acts)).past.clashed
      <==> Serialize(Request(ask)).Some? && ask.id in s.pending
  {
    hide Serialize;
    var s := Run(START, steps);
    RunKeepsOnce(steps);
    assert |s.past.asks| !in s.past.clashed;
    hide OnceInv;
    var t := s.(acts := acts);
    if Serialize(Request(ask)).None? {
      var l := Listen(Asked(t, ask));
      assert |s.past.asks| !in l.past.clashed;
    } else if !ask.sent {
      var l := Listen(Registered(t, ask));
      assert |s.past.asks| in l.past.clashed <==> ask.id in s.pending;
    }
  }

  /** A message reaches only the handler of the query with the id of that message. */
  lemma AnswersMatchIds(steps: seq<Step>, i: nat)
    requires i < |Run(START, steps).past.answers|
    ensures var s := Run(START, steps);
      var a := s.past.answers[i];
      a.query < |s.past.asks| && (a.result.Some? ==> a.result.value.header.id == s.past.asks[a.query].id)
  {
    RunKeepsOnce(steps);
    var s := Run(START, steps);
    assert AnswerFits(s, s.past.answers[i]);
  }

  /** The first step, then the others. */
  lemma {:induction false} RunFirst(s: State, steps: seq<Step>)
    requires steps != []
    ensures Run(s, steps) == Run(Next(s, steps[0]), steps[1..])
    decreases |steps|
  {
    hide Next;
    var front, last := steps[..|steps| - 1], steps[|steps| - 1];
    if |steps| > 1 {
      RunFirst(s, front);
      assert steps[1..][..|steps| - 2] == front[1..];
    } else {
      assert front == [];
    }
  }

  /** The question for the root, which is always sent. */
  const ROOT := Ask(5, [], 1, true)

  lemma RootSerializes()
    ensures Serialize(Request(ROOT)).Some?
  {
    assert Encode([]).ok;
  }

  /** Two queries that draw the same id: the second is lost, its handler never runs. */
  lemma ClashLosesHandler() returns (steps: seq<Step>)
    ensures var s := Run(START, steps);
      |s.past.asks| == 2 && 1 in s.past.clashed && Runs(s, 1) == 0 && !IsPending(s, 1)
  {
    var ask := UserQuery(ROOT, []);
    steps := [ask, ask];
    RootSerializes();
    RunFirst(START, steps);
    RunFirst(Next(START, ask), [ask]);
    assert steps[1..] == [ask] && [ask][1..] == [];
    hide Serialize;
    var s1 := Next(START, ask);
    assert s1.pending == map[ROOT.id := Pending(0, 1)] && |s1.past.asks| == 1;
    assert 1 in Next(s1, ask).past.clashed;
    ExactlyOnce(steps, 1);
  }

  /**
   * What goes out for a query reads back, at the other end, as a plain recursive query with its id and
   * one question: its name, its type and the Internet class.
   */
  lemma RequestReadsBack(ask: Ask)
    requires Serialize(Request(ask)).Some?
    ensures var m := Parse(Serialize(Request(ask)).value);
      && m.Some?
      && m.value.header == Header(ask.id, false, 0, false, false, true, false, 0, 1, 0, 0, 0)
      && m.value.questions == [Question(Undotted(ask.name), ask.qtype, 1)]
  {
    hide Serialize, ParseAt, HeaderBytes, QuestionsBytes, Encode, Undotted;
    var r := Request(ask);
    SerializeParses(r);
    assert r.questions[..1] == r.questions;
    OneUndotted(r.questions[0]);
  }

  lemma OneUndotted(q: Question)
    ensures UndottedQuestions([q]) == [q.(name := Undotted(q.name))]
  {
  }
}
