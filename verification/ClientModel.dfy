/**
 * dns::client over the loop's timers and a network that may lose, repeat, delay and reorder. What the
 * answer handlers and the error listeners do when they run is an arbitrary finite script of further
 * queries.
 */
module ClientModel {
  import opened Wire
  import opened Messages
  import opened Timers

  /** A call of query, with the id that next_id draws and whether the datagram can be sent. */
  datatype Ask = Ask(id: U16, name: seq<Byte>, qtype: U16, sent: bool)

  datatype Act = Issue(ask: Ask) | Return

  datatype Pending = Pending(query: nat, timer: nat)

  /** A run of the handler of a query, and when. */
  datatype Answer = Answer(query: nat, result: Option<Message>, at: nat)

  /**
   * History, by query number: what was asked and the deadlines; the runs of handlers; the queries
   * whose id was taken by another one that was still outstanding.
   */
  datatype Past = Past(asks: seq<Ask>, deadlines: seq<int>, answers: seq<Answer>, clashed: set<nat>)

  /** The loop's timers: armed, harvested by the pass in progress, and the id that each of ours expires. */
  datatype Clock = Clock(now: nat, armed: seq<Timer>, due: seq<Timer>, nextTimer: nat, expires: map<nat, U16>)

  datatype State = State(pending: map<U16, Pending>, timeout: int, clock: Clock, acts: seq<Act>, past: Past)

  const IN_CLASS: U16 := 1

  function Request(ask: Ask): Message
  {
    Message(Header(ask.id, false, 0, false, false, true, false, 0, 0, 0, 0, 0),
            [Question(ask.name, ask.qtype, IN_CLASS)])
  }

  function ActsLeft(s: State): State
    requires s.acts != []
  {
    s.(acts := s.acts[1..])
  }

  function Asked(s: State, ask: Ask): State
  {
    s.(past := s.past.(asks := s.past.asks + [ask], deadlines := s.past.deadlines + [s.clock.now + s.timeout]))
  }

  function Armed(s: State, id: U16): State
  {
    var c := s.clock;
    s.(clock := c.(armed := c.armed + [Timer(c.nextTimer, c.now + s.timeout)], nextTimer := c.nextTimer + 1,
                   expires := c.expires[c.nextTimer := id]))
  }

  /** emplace: an entry that is there already stays, and the new handler is lost. */
  function Entered(s: State, id: U16, entry: Pending): State
  {
    if id in s.pending then s.(past := s.past.(clashed := s.past.clashed + {entry.query}))
    else s.(pending := s.pending[id := entry])
  }

  function Removed(s: State, id: U16): State
    requires id in s.pending
  {
    s.(pending := s.pending - {id}, clock := s.clock.(armed := WithoutId(s.clock.armed, s.pending[id].timer)))
  }

  function Answered(s: State, query: nat, result: Option<Message>): State
  {
    s.(past := s.past.(answers := s.past.answers + [Answer(query, result, s.clock.now)]))
  }

  /** What query does up to the attempt to send. */
  function Registered(s: State, ask: Ask): State
  {
    Entered(Armed(Asked(s, ask), ask.id), ask.id, Pending(|s.past.asks|, s.clock.nextTimer))
  }

  /** What no call undoes or moves: the script, the clock, the harvested timers and the history. */
  predicate Grows(s: State, r: State) {
    && |r.acts| <= |s.acts|
    && r.clock.now == s.clock.now && r.clock.due == s.clock.due
    && s.past.asks <= r.past.asks && s.past.deadlines <= r.past.deadlines && s.past.clashed <= r.past.clashed
    && |r.past.asks| - |s.past.asks| == |r.past.deadlines| - |s.past.deadlines|
    && s.past.answers <= r.past.answers
    && (forall k :: k in r.past.clashed ==> k in s.past.clashed || k >= |s.past.asks|)
  }

  /** A name that is refused and a failed send run the error listeners before the handler. */
  function Query(s: State, ask: Ask): (r: State)
    ensures Grows(s, r)
    decreases |s.acts|, 3
  {
    if Serialize(Request(ask)).None? then Handle(Listen(Asked(s, ask)), |s.past.asks|, None)
    else if ask.sent then Registered(s, ask)
    else Resolve(Listen(Registered(s, ask)), ask.id, None)
  }

  function Resolve(s: State, id: U16, result: Option<Message>): (r: State)
    ensures Grows(s, r)
    decreases |s.acts|, 2
  {
    if id !in s.pending then s else Handle(Removed(s, id), s.pending[id].query, result)
  }

  function Handle(s: State, query: nat, result: Option<Message>): (r: State)
    ensures Grows(s, r)
    decreases |s.acts|, 1
  {
    Listen(Answered(s, query, result))
  }

  function Listen(s: State): (r: State)
    ensures Grows(s, r)
    decreases |s.acts|, 0
  {
    if s.acts == [] then s
    else
      match s.acts[0]
      case Return => ActsLeft(s)
      case Issue(ask) => Listen(Query(ActsLeft(s), ask))
  }

  /** The peer's message listener; a datagram that does not parse runs the error listeners. */
  function OnMessage(s: State, datagram: seq<Byte>): (r: State)
  {
    match Parse(datagram)
    case None => Listen(s)
    case Some(m) => Resolve(s, m.header.id, Some(m))
  }

  // ----- Runs ------------------------------------------------------------------------

  datatype Step =
    | Tick(elapsed: nat)
    | SetPatience(timeout: int)
    | UserQuery(ask: Ask, acts: seq<Act>)
    | Datagram(datagram: seq<Byte>, acts: seq<Act>)
    | ForeignTimer(delay: int)
    | Harvest
    | Fire(acts: seq<Act>)

  /** The harvested timer at the front runs: ours expires its id, any other one may issue queries. */
  function FireFirst(s: State): State
    requires s.clock.due != []
  {
    var t := s.clock.due[0].id;
    var rest := s.(clock := s.clock.(due := s.clock.due[1..]));
    if t in s.clock.expires then Resolve(rest, s.clock.expires[t], None) else Listen(rest)
  }

  /** Datagrams are dispatched after the timer pass, so none arrives while harvested timers wait to run. */
  function Next(s: State, step: Step): State
  {
    var c := s.clock;
    match step
    case Tick(elapsed) => s.(clock := c.(now := c.now + elapsed))
    case SetPatience(timeout) => s.(timeout := timeout)
    case UserQuery(ask, acts) => Query(s.(acts := acts), ask)
    case Datagram(datagram, acts) => if c.due != [] then s else OnMessage(s.(acts := acts), datagram)
    case ForeignTimer(delay) =>
      s.(clock := c.(armed := c.armed + [Timer(c.nextTimer, c.now + delay)], nextTimer := c.nextTimer + 1))
    case Harvest =>
      if c.due != [] then s else s.(clock := c.(armed := NotDue(c.armed, c.now), due := Due(c.armed, c.now)))
    case Fire(acts) => if c.due == [] then s else FireFirst(s.(acts := acts))
  }

  function Run(s: State, steps: seq<Step>): State
    decreases |steps|
  {
    if steps == [] then s else Next(Run(s, steps[..|steps| - 1]), steps[|steps| - 1])
  }

  /** A new client waits 5000 ms. */
  const START := State(map[], 5000 * NS_PER_MS, Clock(0, [], [], 1, map[]), [], Past([], [], [], {}))
}
