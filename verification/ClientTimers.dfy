/**
 * Every pending query owns a timer, and no other timer expires its id unless a query with that id was
 * lost to a clash.
 */
module ClientTimers {
  import opened Wire
  import opened Messages
  import opened Timers
  import opened ClientModel

  /** Timers armed or harvested, by id. */
  function Places(c: Clock): multiset<nat>
  {
    Ids(c.armed) + Ids(c.due)
  }

  /** No id is in two places, and none is there before it was issued. */
  ghost predicate Distinct(c: Clock) {
    && (forall t: nat :: Places(c)[t] <= if t < c.nextTimer then 1 else 0)
    && (forall t :: t in c.expires ==> t < c.nextTimer)
  }

  /** Ids under which a query was lost to a clash. */
  function Dirty(s: State): set<U16>
  {
    set k | k in s.past.clashed && k < |s.past.asks| :: s.past.asks[k].id
  }

  lemma DirtyGrows(s: State, r: State)
    requires s.past.asks <= r.past.asks && s.past.clashed <= r.past.clashed
    ensures Dirty(s) <= Dirty(r)
  {
    forall k | k in s.past.clashed && k < |s.past.asks| ensures s.past.asks[k].id in Dirty(r) {
      assert r.past.asks[k] == s.past.asks[k];
    }
  }

  /**
   * Every pending query owns a timer among `places` that expires its id; under an id that is not
   * dirty there is no other. `popped` is a timer that has just left the harvested batch.
   */
  ghost predicate Matched(pending: map<U16, Pending>, places: multiset<nat>, expires: map<nat, U16>, dirty: set<U16>,
                          popped: Option<nat>)
  {
    && (forall id :: id in pending ==>
          pending[id].timer in expires && expires[pending[id].timer] == id
          && (pending[id].timer in places || Some(pending[id].timer) == popped))
    && (forall t :: t in places && t in expires && expires[t] !in dirty ==>
          expires[t] in pending && pending[expires[t]].timer == t)
    && (popped.Some? ==>
          && popped.value !in places && popped.value in expires
          && (expires[popped.value] !in dirty ==>
                expires[popped.value] in pending && pending[expires[popped.value]].timer == popped.value))
  }

  lemma MatchedAdd(pending: map<U16, Pending>, places: multiset<nat>, expires: map<nat, U16>, dirty: set<U16>,
                   id: U16, entry: Pending)
    requires Matched(pending, places, expires, dirty, None) && id !in pending
    requires entry.timer !in places && entry.timer !in expires
    ensures Matched(pending[id := entry], places + multiset{entry.timer}, expires[entry.timer := id], dirty, None)
  {
  }

  /** A timer without an entry, under an id that is dirty from now on. */
  lemma MatchedOrphan(pending: map<U16, Pending>, places: multiset<nat>, expires: map<nat, U16>, dirty: set<U16>,
                      id: U16, t: nat)
    requires Matched(pending, places, expires, dirty, None) && t !in places && t !in expires && id in dirty
    ensures Matched(pending, places + multiset{t}, expires[t := id], dirty, None)
  {
  }

  lemma MatchedForeign(pending: map<U16, Pending>, places: multiset<nat>, expires: map<nat, U16>, dirty: set<U16>,
                       t: nat)
    requires Matched(pending, places, expires, dirty, None) && t !in expires
    ensures Matched(pending, places + multiset{t}, expires, dirty, None)
  {
  }

  lemma MatchedDirtier(pending: map<U16, Pending>, places: multiset<nat>, expires: map<nat, U16>, dirty: set<U16>,
                       dirty': set<U16>)
    requires Matched(pending, places, expires, dirty, None) && dirty <= dirty'
    ensures Matched(pending, places, expires, dirty', None)
  {
  }

  lemma MatchedRemove(pending: map<U16, Pending>, places: multiset<nat>, places': multiset<nat>, expires: map<nat, U16>,
                      dirty: set<U16>, id: U16, popped: Option<nat>)
    requires Matched(pending, places, expires, dirty, popped) && id in pending
    requires popped.Some? ==> expires[popped.value] == id
    requires forall t: nat :: t != pending[id].timer ==> (t in places' <==> t in places)
    requires id !in dirty ==> pending[id].timer !in places'
    ensures Matched(pending - {id}, places', expires, dirty, None)
  {
  }

  /** The timer that was popped had no entry. */
  lemma MatchedDrop(pending: map<U16, Pending>, places: multiset<nat>, expires: map<nat, U16>, dirty: set<U16>, t: nat)
    requires Matched(pending, places, expires, dirty, Some(t)) && expires[t] !in pending
    ensures Matched(pending, places, expires, dirty, None)
  {
  }

  ghost predicate TimersInv(s: State, popped: Option<nat>) {
    Distinct(s.clock) && Matched(s.pending, Places(s.clock), s.clock.expires, Dirty(s), popped)
  }

  // ----- Ids in lists -------------------------------------------------------------------

  lemma InSelected(timers: seq<Timer>, keep: Timer -> bool, id: nat)
    requires id in Ids(Select(timers, keep))
    ensures exists t :: keep(t) && t.id == id
  {
    var kept := Select(timers, keep);
    assert id in multiset(IdList(kept));
    var i :| 0 <= i < |kept| && IdList(kept)[i] == id;
    assert keep(kept[i]);
  }

  lemma WithoutIds(timers: seq<Timer>, id: nat)
    ensures forall t: nat :: Ids(WithoutId(timers, id))[t] == if t == id then 0 else Ids(timers)[t]
  {
    Partition(timers, (t: Timer) => t.id == id, (t: Timer) => t.id != id);
    forall t: nat ensures Ids(WithoutId(timers, id))[t] == if t == id then 0 else Ids(timers)[t] {
      if t == id && t in Ids(WithoutId(timers, id)) {
        InSelected(timers, (t: Timer) => t.id != id, t);
      }
      if t != id && t in Ids(WithId(timers, id)) {
        InSelected(timers, (t: Timer) => t.id == id, t);
      }
    }
  }

  // ----- The pieces of query and resolve ---------------------------------------------------

  lemma ArmedPlaces(s: State, id: U16)
    ensures Places(Armed(s, id).clock) == Places(s.clock) + multiset{s.clock.nextTimer}
  {
    var timer := Timer(s.clock.nextTimer, s.clock.now + s.timeout);
    IdsAppend(s.clock.armed, [timer]);
    IdsOne(timer);
    hide Ids;
  }

  lemma RemovedPlaces(s: State, id: U16)
    requires id in s.pending
    ensures var places := Places(Removed(s, id).clock); var timer := s.pending[id].timer;
      && (forall t: nat :: places[t] <= Places(s.clock)[t])
      && (forall t: nat :: t != timer ==> places[t] == Places(s.clock)[t])
      && places[timer] == Ids(s.clock.due)[timer]
  {
    WithoutIds(s.clock.armed, s.pending[id].timer);
    hide Ids;
  }

  lemma DistinctGrows(c: Clock, c': Clock)
    requires Distinct(c) && Places(c') == Places(c) + multiset{c.nextTimer} && c'.nextTimer == c.nextTimer + 1
    requires forall t :: t in c'.expires ==> t in c.expires || t == c.nextTimer
    ensures Distinct(c') && c.nextTimer !in Places(c)
  {
    hide Places;
    assert Places(c)[c.nextTimer] == 0;
  }

  lemma RegisteredDirty(s: State, ask: Ask)
    ensures Dirty(s) <= Dirty(Registered(s, ask))
    ensures ask.id in s.pending ==> ask.id in Dirty(Registered(s, ask))
  {
    var s' := Registered(s, ask);
    DirtyGrows(s, s');
    assert s'.past.asks[|s.past.asks|] == ask;
  }

  lemma RegisteredKeepsTimers(s: State, ask: Ask)
    requires TimersInv(s, None)
    ensures TimersInv(Registered(s, ask), None)
    ensures var s' := Registered(s, ask);
      ask.id in s'.pending && (ask.id !in Dirty(s') ==> s'.pending[ask.id].timer !in Ids(s'.clock.due))
  {
    var s' := Registered(s, ask);
    var timer := s.clock.nextTimer;
    ArmedPlaces(Asked(s, ask), ask.id);
    DistinctGrows(s.clock, s'.clock);
    assert timer !in s.clock.expires;
    NotInDue(s.clock, timer);
    RegisteredDirty(s, ask);
    hide Distinct, Places, Matched, Dirty;
    MatchedDirtier(s.pending, Places(s.clock), s.clock.expires, Dirty(s), Dirty(s'));
    if ask.id in s.pending {
      MatchedOrphan(s.pending, Places(s.clock), s.clock.expires, Dirty(s'), ask.id, timer);
    } else {
      MatchedAdd(s.pending, Places(s.clock), s.clock.expires, Dirty(s'), ask.id, Pending(|s.past.asks|, timer));
    }
  }

  lemma NotInDue(c: Clock, t: nat)
    requires t !in Places(c)
    ensures t !in Ids(c.due)
  {
  }

  lemma RemovedKeepsTimers(s: State, id: U16, popped: Option<nat>)
    requires TimersInv(s, popped) && id in s.pending
    requires popped.Some? ==> popped.value in s.clock.expires && s.clock.expires[popped.value] == id
    requires id !in Dirty(s) ==> s.pending[id].timer !in Ids(s.clock.due)
    ensures TimersInv(Removed(s, id), None)
  {
    hide Places, Matched, Dirty;
    var s' := Removed(s, id);
    RemovedPlaces(s, id);
    SameDirty(s, s');
    MatchedRemove(s.pending, Places(s.clock), Places(s'.clock), s.clock.expires, Dirty(s), id, popped);
  }

  lemma SameDirty(s: State, s': State)
    requires s'.past.asks == s.past.asks && s'.past.clashed == s.past.clashed
    ensures Dirty(s') == Dirty(s)
  {
  }

  // ----- Entries outlive the listeners ---------------------------------------------------------

  /** Under an id that is not dirty afterwards a call answers no query but its own: the entry stays. */
  predicate Spared(s: State, r: State) {
    forall id :: id in s.pending && id !in Dirty(r) ==> id in r.pending && r.pending[id] == s.pending[id]
  }

  lemma {:induction false} QuerySpares(s: State, ask: Ask)
    ensures Spared(s, Query(s, ask))
    decreases |s.acts|, 3
  {
    hide Serialize, Dirty;
    if Serialize(Request(ask)).None? {
      var l := Listen(Asked(s, ask));
      ListenSpares(Asked(s, ask));
      ListenSpares(Answered(l, |s.past.asks|, None));
      DirtyGrows(l, Query(s, ask));
    } else {
      var registered := Registered(s, ask);
      RegisteredDirty(s, ask);
      if !ask.sent {
        var l := Listen(registered);
        ListenSpares(registered);
        ResolveSpares(l, ask.id, None);
        DirtyGrows(registered, l);
        DirtyGrows(l, Resolve(l, ask.id, None));
      }
    }
  }

  lemma {:induction false} ResolveSpares(s: State, id: U16, result: Option<Message>)
    ensures var r := Resolve(s, id, result);
      forall k :: k in s.pending && k != id && k !in Dirty(r) ==> k in r.pending && r.pending[k] == s.pending[k]
    decreases |s.acts|, 2
  {
    hide Dirty;
    if id in s.pending {
      ListenSpares(Answered(Removed(s, id), s.pending[id].query, result));
    }
  }

  lemma {:induction false} ListenSpares(s: State)
    ensures Spared(s, Listen(s))
    decreases |s.acts|, 0
  {
    hide Dirty;
    if s.acts != [] && s.acts[0].Issue? {
      var q := Query(ActsLeft(s), s.acts[0].ask);
      QuerySpares(ActsLeft(s), s.acts[0].ask);
      ListenSpares(q);
      DirtyGrows(q, Listen(q));
    }
  }

  // ----- Calls and runs ----------------------------------------------------------------------

  lemma {:induction false} QueryKeepsTimers(s: State, ask: Ask)
    requires TimersInv(s, None)
    ensures TimersInv(Query(s, ask), None)
    decreases |s.acts|, 3
  {
    hide TimersInv, Dirty;
    if Serialize(Request(ask)).None? {
      var l := Listen(Asked(s, ask));
      SameClockKeepsTimers(s, Asked(s, ask));
      ListenKeepsTimers(Asked(s, ask));
      SameClockKeepsTimers(l, Answered(l, |s.past.asks|, None));
      ListenKeepsTimers(Answered(l, |s.past.asks|, None));
    } else {
      RegisteredKeepsTimers(s, ask);
      if !ask.sent {
        var r := Registered(s, ask);
        ListenKeepsTimers(r);
        ListenSpares(r);
        DirtyGrows(r, Listen(r));
        ResolveKeepsTimers(Listen(r), ask.id, None, None);
      }
    }
  }

  lemma {:induction false} ResolveKeepsTimers(s: State, id: U16, result: Option<Message>, popped: Option<nat>)
    requires TimersInv(s, popped)
    requires popped.Some? ==> popped.value in s.clock.expires && s.clock.expires[popped.value] == id
    requires id in s.pending && id !in Dirty(s) ==> s.pending[id].timer !in Ids(s.clock.due)
    ensures TimersInv(Resolve(s, id, result), None)
    decreases |s.acts|, 2
  {
    if id in s.pending {
      hide TimersInv, Dirty;
      RemovedKeepsTimers(s, id, popped);
      var r := Answered(Removed(s, id), s.pending[id].query, result);
      SameClockKeepsTimers(Removed(s, id), r);
      ListenKeepsTimers(r);
    } else if popped.Some? {
      MatchedDrop(s.pending, Places(s.clock), s.clock.expires, Dirty(s), popped.value);
    }
  }

  lemma {:induction false} ListenKeepsTimers(s: State)
    requires TimersInv(s, None)
    ensures TimersInv(Listen(s), None)
    decreases |s.acts|, 0
  {
    hide TimersInv;
    if s.acts != [] {
      SameClockKeepsTimers(s, ActsLeft(s));
      match s.acts[0]
      case Return =>
      case Issue(ask) =>
        QueryKeepsTimers(ActsLeft(s), ask);
        ListenKeepsTimers(Query(ActsLeft(s), ask));
    }
  }

  lemma SameClockKeepsTimers(s: State, s': State)
    requires TimersInv(s, None)
    requires s'.clock.armed == s.clock.armed && s'.clock.due == s.clock.due
    requires s'.clock.nextTimer == s.clock.nextTimer && s'.clock.expires == s.clock.expires
    requires s'.pending == s.pending && s.past.asks <= s'.past.asks && s'.past.clashed == s.past.clashed
    ensures TimersInv(s', None)
  {
    assert Places(s'.clock) == Places(s.clock);
    DirtyGrows(s, s');
    hide Places, Matched, Dirty;
    MatchedDirtier(s.pending, Places(s.clock), s.clock.expires, Dirty(s), Dirty(s'));
  }

  lemma ArmedForeign(c: Clock, timer: Timer)
    ensures Places(c.(armed := c.armed + [timer], nextTimer := timer.id + 1)) == Places(c) + multiset{timer.id}
  {
    IdsAppend(c.armed, [timer]);
    IdsOne(timer);
    hide Ids;
  }

  lemma ForeignKeepsTimers(s: State, delay: int)
    requires TimersInv(s, None)
    ensures TimersInv(Next(s, ForeignTimer(delay)), None)
  {
    var c := s.clock;
    var s' := Next(s, ForeignTimer(delay));
    ArmedForeign(c, Timer(c.nextTimer, c.now + delay));
    DistinctGrows(c, s'.clock);
    assert c.nextTimer !in c.expires;
    hide Places, Matched, Distinct;
    MatchedForeign(s.pending, Places(c), c.expires, Dirty(s), c.nextTimer);
  }

  lemma HarvestPlaces(c: Clock)
    requires c.due == []
    ensures Places(c.(armed := NotDue(c.armed, c.now), due := Due(c.armed, c.now))) == Places(c)
  {
    hide Ids;
    Partition(c.armed, (t: Timer) => t.when <= c.now, (t: Timer) => t.when > c.now);
    NothingDue(c);
  }

  lemma HarvestKeepsTimers(s: State)
    requires TimersInv(s, None)
    ensures TimersInv(Next(s, Harvest), None)
  {
    hide Places, Matched, Dirty;
    if s.clock.due == [] {
      HarvestPlaces(s.clock);
      SameDirty(s, Next(s, Harvest));
    }
  }

  lemma FireMoves(c: Clock)
    requires c.due != []
    ensures Places(c) == Places(c.(due := c.due[1..])) + multiset{c.due[0].id}
  {
    assert c.due == [c.due[0]] + c.due[1..];
    IdsAppend([c.due[0]], c.due[1..]);
    IdsOne(c.due[0]);
    hide Ids;
  }

  lemma FirePlaces(c: Clock)
    requires c.due != [] && Distinct(c)
    ensures var c' := c.(due := c.due[1..]); var t := c.due[0].id;
      && Places(c) == Places(c') + multiset{t} && Distinct(c') && t !in Places(c')
  {
    var c' := c.(due := c.due[1..]);
    var t := c.due[0].id;
    FireMoves(c);
    hide Places;
    assert Places(c)[t] <= 1;
    assert forall u: nat :: Places(c')[u] <= Places(c)[u];
  }

  /** A timer of the client leaves the batch. */
  lemma FirstPopped(s: State)
    requires TimersInv(s, None) && s.clock.due != [] && s.clock.due[0].id in s.clock.expires
    ensures var t := s.clock.due[0].id;
      var id := s.clock.expires[t];
      var rest := s.(clock := s.clock.(due := s.clock.due[1..]));
      && TimersInv(rest, Some(t))
      && (id !in Dirty(s) ==> id in s.pending && s.pending[id].timer == t && t !in Ids(rest.clock.due))
  {
    var t := s.clock.due[0].id;
    var rest := s.(clock := s.clock.(due := s.clock.due[1..]));
    FirePlaces(s.clock);
    NotInDue(rest.clock, t);
    SameDirty(s, rest);
    hide Places, Distinct, Matched, Dirty;
    MatchedFire(s.pending, Places(s.clock), Places(rest.clock), s.clock.expires, Dirty(s), t);
  }

  lemma MatchedFire(pending: map<U16, Pending>, places: multiset<nat>, places': multiset<nat>, expires: map<nat, U16>,
                    dirty: set<U16>, t: nat)
    requires Matched(pending, places, expires, dirty, None) && t in expires
    requires places == places' + multiset{t} && t !in places'
    ensures Matched(pending, places', expires, dirty, Some(t))
    ensures expires[t] !in dirty ==> expires[t] in pending && pending[expires[t]].timer == t
  {
    assert t in places;
    forall id | id in pending && pending[id].timer != t ensures pending[id].timer in places' {
      assert pending[id].timer in places;
    }
  }

  lemma FireKeepsTimers(s: State)
    requires TimersInv(s, None) && s.clock.due != []
    ensures TimersInv(FireFirst(s), None)
  {
    var t := s.clock.due[0].id;
    var rest := s.(clock := s.clock.(due := s.clock.due[1..]));
    SameDirty(s, rest);
    if t in s.clock.expires {
      hide TimersInv, Dirty;
      FirstPopped(s);
      ResolveKeepsTimers(rest, s.clock.expires[t], None, Some(t));
    } else {
      FirePlaces(s.clock);
      hide Places, Dirty;
      ForeignPopped(s.pending, Places(s.clock), Places(rest.clock), s.clock.expires, Dirty(s), t);
      assert TimersInv(rest, None);
      ListenKeepsTimers(rest);
    }
  }

  lemma ForeignPopped(pending: map<U16, Pending>, places: multiset<nat>, places': multiset<nat>, expires: map<nat, U16>,
                      dirty: set<U16>, t: nat)
    requires Matched(pending, places, expires, dirty, None) && t !in expires && places == places' + multiset{t}
    ensures Matched(pending, places', expires, dirty, None)
  {
    forall id | id in pending ensures pending[id].timer in places' {
      assert pending[id].timer in places && pending[id].timer != t;
    }
  }

  lemma NothingDue(c: Clock)
    requires c.due == []
    ensures Ids(c.due) == multiset{}
  {
    assert IdList(c.due) == [];
  }

  lemma NextKeepsTimers(s: State, step: Step)
    requires TimersInv(s, None)
    ensures TimersInv(Next(s, step), None)
  {
    hide TimersInv;
    match step
    case UserQuery(ask, acts) =>
      SameClockKeepsTimers(s, s.(acts := acts));
      QueryKeepsTimers(s.(acts := acts), ask);
    case Datagram(datagram, acts) =>
      if s.clock.due == [] {
        SameClockKeepsTimers(s, s.(acts := acts));
        NothingDue(s.clock);
        if Parse(datagram).Some? {
          ResolveKeepsTimers(s.(acts := acts), Parse(datagram).value.header.id, Parse(datagram), None);
        } else {
          ListenKeepsTimers(s.(acts := acts));
        }
      }
    case ForeignTimer(delay) => ForeignKeepsTimers(s, delay);
    case Harvest => HarvestKeepsTimers(s);
    case Fire(acts) =>
      if s.clock.due != [] {
        SameClockKeepsTimers(s, s.(acts := acts));
        FireKeepsTimers(s.(acts := acts));
      }
    case _ => SameClockKeepsTimers(s, Next(s, step));
  }

  lemma {:induction false} RunKeepsTimers(steps: seq<Step>)
    ensures TimersInv(Run(START, steps), None)
    decreases |steps|
  {
    if steps == [] {
      assert IdList([]) == [];
    } else {
      RunKeepsTimers(steps[..|steps| - 1]);
      NextKeepsTimers(Run(START, steps[..|steps| - 1]), steps[|steps| - 1]);
    }
  }

  /** In every run a pending query has its timer armed or harvested, once; the timer expires its id. */
  lemma EachOwnsTimer(steps: seq<Step>, id: U16)
    requires id in Run(START, steps).pending
    ensures var s := Run(START, steps);
      var t := s.pending[id].timer;
      Places(s.clock)[t] == 1 && t in s.clock.expires && s.clock.expires[t] == id
  {
    RunKeepsTimers(steps);
  }

  /** In every run, a pending query under whose id no query was lost has exactly one timer for that id. */
  lemma OneTimerEach(steps: seq<Step>, id: U16, t: nat)
    requires var s := Run(START, steps); id in s.pending && id !in Dirty(s)
    ensures var s := Run(START, steps);
      t in Places(s.clock) && t in s.clock.expires && s.clock.expires[t] == id <==> t == s.pending[id].timer
  {
    RunKeepsTimers(steps);
  }
}
