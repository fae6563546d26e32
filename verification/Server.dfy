/**
 * tcp::server and the list that keeps its connections alive. Connections are numbered in the order
 * of accept; the kernel's answers and the listeners' calls are arbitrary finite scripts.
 */
module Server {

  type Conn = nat

  /** What the server and its connections emit. */
  datatype Event = OnConnection(conn: Conn) | OnError | OnServerClose | OnConnClose(conn: Conn)

  datatype AcceptAnswer = Connected | ModeFails | Blocks | Interrupted | Fails

  /** What a listener does: destroy some connection, close the server, or return. */
  datatype Act = Destroy(conn: Conn) | CloseListener | Return

  /** `accepted` counts the connections ever retained; `closed` are those that emitted close. */
  datatype State = State(
    listening: bool,
    conns: seq<Conn>,
    accepts: seq<AcceptAnswer>,
    acts: seq<Act>,
    accepted: nat,
    closed: set<Conn>,
    log: seq<Event>
  )

  function Fuel(s: State): nat
  {
    |s.accepts| + |s.acts|
  }

  /** std::erase. */
  function Without(conns: seq<Conn>, c: Conn): (r: seq<Conn>)
  {
    if conns == [] then []
    else
      var last := conns[|conns| - 1];
      Without(conns[..|conns| - 1], c) + if last == c then [] else [last]
  }

  /** The connection that an accept yields is retained before its listener runs. */
  function Retained(s: State): State
  {
    s.(conns := s.conns + [s.accepted], accepted := s.accepted + 1)
  }

  function Dropped(s: State, c: Conn): State
  {
    s.(conns := Without(s.conns, c), closed := s.closed + {c})
  }

  function Logged(s: State, e: Event): State
  {
    s.(log := s.log + [e])
  }

  /** Listeners accept nothing, and a listener once closed stays closed. */
  predicate Subsides(s: State, r: State) {
    Fuel(r) <= Fuel(s) && r.accepted == s.accepted && r.accepts == s.accepts && (r.listening ==> s.listening)
  }

  /** A live connection closes: the server's own close listener drops it, then the others run. */
  function CloseConn(s: State, c: Conn): (r: State)
    ensures Subsides(s, r)
    decreases Fuel(s), 1
  {
    if c >= s.accepted || c in s.closed then s else Listen(Logged(Dropped(s, c), OnConnClose(c)))
  }

  function CloseServer(s: State): (r: State)
    ensures Subsides(s, r)
    decreases Fuel(s), 1
  {
    if s.listening then Listen(Logged(s.(listening := false), OnServerClose)) else s
  }

  function Listen(s: State): (r: State)
    ensures Subsides(s, r)
    decreases Fuel(s), 0
  {
    if s.acts == [] then s
    else
      var rest := s.(acts := s.acts[1..]);
      match s.acts[0]
      case Return => rest
      case Destroy(c) => Listen(CloseConn(rest, c))
      case CloseListener => Listen(CloseServer(rest))
  }

  /** The accept loop; on a listener that a callback has closed, accept fails. */
  function AcceptReady(s: State): (r: State)
    decreases Fuel(s)
  {
    if !s.listening then Listen(Logged(s, OnError))
    else if s.accepts == [] then s
    else
      var rest := s.(accepts := s.accepts[1..]);
      match s.accepts[0]
      case Blocks => rest
      case Interrupted => AcceptReady(rest)
      case Fails => Listen(Logged(rest, OnError))
      case ModeFails => AcceptReady(rest)
      case Connected => AcceptReady(Listen(Logged(Retained(rest), OnConnection(rest.accepted))))
  }

  // ----- Runs -------------------------------------------------------------------------

  datatype Step =
    | Ready(accepts: seq<AcceptAnswer>, acts: seq<Act>)
    | ConnCloses(conn: Conn, acts: seq<Act>)
    | UserClose(acts: seq<Act>)

  function Next(s: State, step: Step): State
  {
    match step
    case Ready(accepts, acts) => AcceptReady(s.(accepts := accepts, acts := acts))
    case ConnCloses(c, acts) => CloseConn(s.(acts := acts), c)
    case UserClose(acts) => CloseServer(s.(acts := acts))
  }

  function Run(s: State, steps: seq<Step>): State
    decreases |steps|
  {
    if steps == [] then s else Next(Run(s, steps[..|steps| - 1]), steps[|steps| - 1])
  }

  const LISTENING := State(true, [], [], [], 0, {}, [])

  // ----- Retention ------------------------------------------------------------------------

  /** The connections below `n` that are not closed, in the order of accept. */
  function StillOpen(n: nat, closed: set<Conn>): seq<Conn>
  {
    if n == 0 then [] else StillOpen(n - 1, closed) + if n - 1 in closed then [] else [n - 1]
  }

  /** The list holds, once each and in the order of accept, exactly the connections that have not emitted close. */
  predicate Retains(s: State) {
    s.conns == StillOpen(s.accepted, s.closed) && forall c :: c in s.closed ==> c < s.accepted
  }

  lemma WithoutLast(front: seq<Conn>, last: Conn, c: Conn)
    ensures Without(front + [last], c) == Without(front, c) + if last == c then [] else [last]
  {
    assert (front + [last])[..|front|] == front;
  }

  lemma {:induction false} ClosingDrops(n: nat, closed: set<Conn>, c: Conn)
    ensures Without(StillOpen(n, closed), c) == StillOpen(n, closed + {c})
  {
    if n > 0 {
      var front, front' := StillOpen(n - 1, closed), StillOpen(n - 1, closed + {c});
      ClosingDrops(n - 1, closed, c);
      assert front + [] == front && front' + [] == front';
      if n - 1 !in closed {
        WithoutLast(front, n - 1, c);
      }
    }
  }

  lemma {:induction false} CloseConnKeeps(s: State, c: Conn)
    requires Retains(s)
    ensures Retains(CloseConn(s, c))
    decreases Fuel(s), 1
  {
    if c < s.accepted && c !in s.closed {
      ClosingDrops(s.accepted, s.closed, c);
      ListenKeeps(Logged(Dropped(s, c), OnConnClose(c)));
    }
  }

  lemma {:induction false} CloseServerKeeps(s: State)
    requires Retains(s)
    ensures Retains(CloseServer(s))
    decreases Fuel(s), 1
  {
    if s.listening {
      ListenKeeps(Logged(s.(listening := false), OnServerClose));
    }
  }

  lemma {:induction false} ListenKeeps(s: State)
    requires Retains(s)
    ensures Retains(Listen(s))
    decreases Fuel(s), 0
  {
    if s.acts != [] {
      var rest := s.(acts := s.acts[1..]);
      match s.acts[0]
      case Return =>
      case Destroy(c) =>
        CloseConnKeeps(rest, c);
        ListenKeeps(CloseConn(rest, c));
      case CloseListener =>
        CloseServerKeeps(rest);
        ListenKeeps(CloseServer(rest));
    }
  }

  lemma {:induction false} AcceptReadyKeeps(s: State)
    requires Retains(s)
    ensures Retains(AcceptReady(s))
    decreases Fuel(s)
  {
    if !s.listening {
      ListenKeeps(Logged(s, OnError));
    } else if s.accepts != [] {
      var rest := s.(accepts := s.accepts[1..]);
      match s.accepts[0]
      case Blocks =>
      case Interrupted => AcceptReadyKeeps(rest);
      case Fails => ListenKeeps(Logged(rest, OnError));
      case ModeFails => AcceptReadyKeeps(rest);
      case Connected =>
        var retained := Logged(Retained(rest), OnConnection(rest.accepted));
        ListenKeeps(retained);
        AcceptReadyKeeps(Listen(retained));
    }
  }

  lemma {:induction false} RunKeeps(steps: seq<Step>)
    ensures Retains(Run(LISTENING, steps))
    decreases |steps|
  {
    if steps != [] {
      var s, step := Run(LISTENING, steps[..|steps| - 1]), steps[|steps| - 1];
      RunKeeps(steps[..|steps| - 1]);
      match step
      case Ready(accepts, acts) => AcceptReadyKeeps(s.(accepts := accepts, acts := acts));
      case ConnCloses(c, acts) => CloseConnKeeps(s.(acts := acts), c);
      case UserClose(acts) => CloseServerKeeps(s.(acts := acts));
    }
  }

  lemma {:induction false} StillOpenExactly(n: nat, closed: set<Conn>)
    ensures var r := StillOpen(n, closed);
      && (forall c: Conn :: c in r <==> c < n && c !in closed)
      && (forall i, j :: 0 <= i < j < |r| ==> r[i] < r[j])
  {
    if n > 0 {
      StillOpenExactly(n - 1, closed);
      var front := StillOpen(n - 1, closed);
      assert forall i :: 0 <= i < |front| ==> front[i] in front;
    }
  }

  /** Over every run the list holds exactly the accepted connections that have not emitted close, each once. */
  lemma RetainedUntilClosed(steps: seq<Step>)
    ensures var s := Run(LISTENING, steps);
      && (forall c: Conn :: c in s.conns <==> c < s.accepted && c !in s.closed)
      && (forall i, j :: 0 <= i < j < |s.conns| ==> s.conns[i] < s.conns[j])
  {
    var s := Run(LISTENING, steps);
    RunKeeps(steps);
    StillOpenExactly(s.accepted, s.closed);
  }

  // ----- How many connections one readiness accepts ------------------------------------------------

  /** An answer after which the loop does not accept again. */
  predicate Stops(a: AcceptAnswer) {
    a.Blocks? || a.Fails?
  }

  function StopAt(accepts: seq<AcceptAnswer>): (k: nat)
    ensures k <= |accepts| && (k < |accepts| ==> Stops(accepts[k]))
    ensures forall i :: 0 <= i < k ==> !Stops(accepts[i])
  {
    if accepts == [] || Stops(accepts[0]) then 0 else 1 + StopAt(accepts[1..])
  }

  function CountConnected(accepts: seq<AcceptAnswer>): (n: nat)
  {
    if accepts == [] then 0 else (if accepts[0].Connected? then 1 else 0) + CountConnected(accepts[1..])
  }

  /** Connections accepted before the first stop. */
  function Arrivals(accepts: seq<AcceptAnswer>): (n: nat)
  {
    CountConnected(accepts[..StopAt(accepts)])
  }

  function Unanswered(accepts: seq<AcceptAnswer>): (r: seq<AcceptAnswer>)
  {
    if StopAt(accepts) < |accepts| then accepts[StopAt(accepts) + 1..] else []
  }

  function StopEvents(accepts: seq<AcceptAnswer>): (r: seq<Event>)
  {
    var k := StopAt(accepts);
    if k < |accepts| && accepts[k].Fails? then [OnError] else []
  }

  lemma StopStep(accepts: seq<AcceptAnswer>)
    requires accepts != []
    ensures Stops(accepts[0]) ==>
      Arrivals(accepts) == 0 && Unanswered(accepts) == accepts[1..]
      && StopEvents(accepts) == if accepts[0].Fails? then [OnError] else []
    ensures !Stops(accepts[0]) ==>
      && Arrivals(accepts) == (if accepts[0].Connected? then 1 else 0) + Arrivals(accepts[1..])
      && Unanswered(accepts) == Unanswered(accepts[1..]) && StopEvents(accepts) == StopEvents(accepts[1..])
  {
    if Stops(accepts[0]) {
      assert accepts[..0] == [];
    } else {
      var rest, k := accepts[1..], StopAt(accepts[1..]);
      assert StopAt(accepts) == k + 1;
      assert accepts[..k + 1][1..] == rest[..k];
      if k < |rest| {
        assert rest[k] == accepts[k + 1] && rest[k + 1..] == accepts[k + 2..];
      }
    }
  }

  lemma NothingArrives()
    ensures Arrivals([]) == 0 && Unanswered([]) == [] && StopEvents([]) == []
  {
  }

  /**
   * Whatever the listeners do, a readiness after which the server still listens has accepted every
   * connection up to the first answer that blocks or fails, and left the answers after that one.
   */
  lemma {:induction false} AcceptsAll(s: State)
    requires AcceptReady(s).listening
    ensures var r := AcceptReady(s);
      r.accepted == s.accepted + Arrivals(s.accepts) && r.accepts == Unanswered(s.accepts)
    decreases Fuel(s)
  {
    hide Arrivals, Unanswered;
    if s.accepts == [] {
      NothingArrives();
    } else {
      StopStep(s.accepts);
      var rest := s.(accepts := s.accepts[1..]);
      match s.accepts[0]
      case Blocks =>
      case Fails =>
      case Interrupted => AcceptsAll(rest);
      case ModeFails => AcceptsAll(rest);
      case Connected => AcceptsAll(Listen(Logged(Retained(rest), OnConnection(rest.accepted))));
    }
  }

  /** The numbers from `n` on. */
  function Numbers(n: nat, count: nat): (r: seq<Conn>)
    decreases count
  {
    if count == 0 then [] else [n] + Numbers(n + 1, count - 1)
  }

  function ConnectionEvents(n: nat, count: nat): (r: seq<Event>)
    decreases count
  {
    if count == 0 then [] else [OnConnection(n)] + ConnectionEvents(n + 1, count - 1)
  }

  lemma OneMore(conns: seq<Conn>, log: seq<Event>, n: nat, count: nat)
    ensures conns + [n] + Numbers(n + 1, count) == conns + Numbers(n, count + 1)
    ensures log + [OnConnection(n)] + ConnectionEvents(n + 1, count) == log + ConnectionEvents(n, count + 1)
  {
  }

  lemma NoNumbers(n: nat)
    ensures Numbers(n, 0) == [] && ConnectionEvents(n, 0) == []
  {
  }

  lemma PlainListen(s: State)
    requires s.acts == []
    ensures Listen(s) == s
  {
  }

  /** A readiness of a listening server with listeners that do nothing. */
  lemma {:induction false} PlainAccept(s: State)
    requires s.listening && s.acts == []
    ensures var r := AcceptReady(s);
      var n := Arrivals(s.accepts);
      && r.listening && r.acts == [] && r.closed == s.closed
      && r.accepted == s.accepted + n && r.accepts == Unanswered(s.accepts)
      && r.conns == s.conns + Numbers(s.accepted, n)
      && r.log == s.log + ConnectionEvents(s.accepted, n) + StopEvents(s.accepts)
    decreases |s.accepts|
  {
    hide Arrivals, Unanswered, StopEvents, Numbers, ConnectionEvents;
    NoNumbers(s.accepted);
    if s.accepts == [] {
      NothingArrives();
      assert s.conns + [] == s.conns && s.log + [] + [] == s.log;
      return;
    }
    StopStep(s.accepts);
    var rest := s.(accepts := s.accepts[1..]);
    if Stops(s.accepts[0]) {
      assert s.conns + [] == s.conns && s.log + [] == s.log;
      if s.accepts[0].Fails? {
        PlainListen(Logged(rest, OnError));
      }
    } else if s.accepts[0].Connected? {
      var retained := Logged(Retained(rest), OnConnection(s.accepted));
      PlainListen(retained);
      PlainAccept(retained);
      OneMore(s.conns, s.log, s.accepted, Arrivals(rest.accepts));
    } else {
      PlainAccept(rest);
    }
  }

  /**
   * One readiness, at any point of any run, with listeners that do nothing: a listening server retains
   * and reports exactly the connections up to the first answer that blocks or fails; a closed one
   * reports an error and accepts nothing.
   */
  lemma ReadyTrace(steps: seq<Step>, accepts: seq<AcceptAnswer>)
    ensures var s := Run(LISTENING, steps);
      var r := Next(s, Ready(accepts, []));
      var n := Arrivals(accepts);
      && (s.listening ==>
            && r.accepted == s.accepted + n && r.conns == s.conns + Numbers(s.accepted, n)
            && r.accepts == Unanswered(accepts) && r.closed == s.closed
            && r.log == s.log + ConnectionEvents(s.accepted, n) + StopEvents(accepts))
      && (!s.listening ==>
            r.accepted == s.accepted && r.conns == s.conns && r.accepts == accepts && r.log == s.log + [OnError])
  {
    var s := Run(LISTENING, steps);
    var t := s.(accepts := accepts, acts := []);
    if s.listening {
      PlainAccept(t);
    } else {
      PlainListen(Logged(t, OnError));
    }
  }

  /** A close of the server is reported once, and it listens no more; a close of a live connection likewise. */
  lemma CloseTrace(steps: seq<Step>, c: Conn)
    ensures var s := Run(LISTENING, steps);
      var r := Next(s, UserClose([]));
      && !r.listening && r.conns == s.conns && r.closed == s.closed
      && r.log == s.log + if s.listening then [OnServerClose] else []
    ensures var s := Run(LISTENING, steps);
      var r := Next(s, ConnCloses(c, []));
      var live := c < s.accepted && c !in s.closed;
      && r.closed == s.closed + (if live then {c} else {}) && c !in r.conns
      && r.log == s.log + if live then [OnConnClose(c)] else []
  {
    var s := Run(LISTENING, steps);
    RunKeeps(steps);
    RetainedUntilClosed(steps);
    assert s.log + [] == s.log;
    PlainListen(Logged(s.(acts := [], listening := false), OnServerClose));
    PlainListen(Logged(Dropped(s.(acts := []), c), OnConnClose(c)));
    WithoutGone(s.conns, c);
  }

  lemma ListenerCloses(s: State)
    requires s.listening && s.acts == [CloseListener]
    ensures Listen(s) == Logged(s.(listening := false, acts := []), OnServerClose)
  {
    var rest := s.(acts := []);
    assert s.acts[1..] == [];
    PlainListen(Logged(rest.(listening := false), OnServerClose));
    assert CloseServer(rest) == Logged(rest.(listening := false), OnServerClose);
    assert Listen(s) == Listen(CloseServer(rest));
  }

  /**
   * Listeners run at every event. One that closes the server when the first of two connections is
   * reported keeps the second from being accepted; error and close listeners can close it too.
   */
  lemma ListenersRun(steps: seq<Step>, c: Conn)
    requires Run(LISTENING, steps).listening
    ensures var s := Run(LISTENING, steps);
      var r := Next(s, Ready([Connected, Connected], [CloseListener]));
      !r.listening && r.accepted == s.accepted + 1
      && r.log == s.log + [OnConnection(s.accepted), OnServerClose, OnError]
    ensures !Next(Run(LISTENING, steps), Ready([Fails], [CloseListener])).listening
    ensures var s := Run(LISTENING, steps);
      c < s.accepted && c !in s.closed ==> !Next(s, ConnCloses(c, [CloseListener])).listening
  {
    var s := Run(LISTENING, steps);
    var t := s.(accepts := [Connected], acts := [CloseListener]);
    var retained := Logged(Retained(t), OnConnection(s.accepted));
    ListenerCloses(retained);
    var closed := Listen(retained);
    PlainListen(Logged(closed, OnError));
    var first := s.(accepts := [Connected, Connected], acts := [CloseListener]);
    assert first.accepts[1..] == [Connected];
    assert AcceptReady(closed) == Logged(closed, OnError);
    assert AcceptReady(first) == AcceptReady(closed);
    var failing := s.(accepts := [Fails], acts := [CloseListener]);
    assert failing.accepts[1..] == [];
    ListenerCloses(Logged(failing.(accepts := []), OnError));
    if c < s.accepted && c !in s.closed {
      ListenerCloses(Logged(Dropped(s.(acts := [CloseListener]), c), OnConnClose(c)));
    }
  }

  /** Close listeners of the server run too: one that destroys a live connection drops it. */
  lemma CloseListenersRun(steps: seq<Step>, c: Conn)
    requires var s := Run(LISTENING, steps); s.listening && c < s.accepted && c !in s.closed
    ensures c in Next(Run(LISTENING, steps), UserClose([Destroy(c)])).closed
  {
    var s := Run(LISTENING, steps);
    var t := Logged(s.(listening := false, acts := [Destroy(c)]), OnServerClose);
    var rest := t.(acts := []);
    assert t.acts[1..] == [];
    var dropped := Logged(Dropped(rest, c), OnConnClose(c));
    PlainListen(dropped);
    assert CloseConn(rest, c) == dropped;
    assert Listen(t) == Listen(dropped);
  }

  lemma {:induction false} WithoutGone(conns: seq<Conn>, c: Conn)
    ensures c !in Without(conns, c)
  {
    if conns != [] {
      WithoutGone(conns[..|conns| - 1], c);
    }
  }

  // ----- The server as the source runs it ------------------------------------------------------

  class TcpServer {
    var listening: bool
    var conns: seq<Conn>
    var accepts: seq<AcceptAnswer>
    var acts: seq<Act>
    var accepted: nat
    var closed: set<Conn>
    ghost var log: seq<Event>

    ghost function View(): (s: State)
      reads this
    {
      State(listening, conns, accepts, acts, accepted, closed, log)
    }

    constructor Listening()
      ensures View() == LISTENING
    {
      listening, conns, accepts, acts, accepted, closed := true, [], [], [], 0, {};
      log := [];
    }

    method OnReady()
      modifies this
      ensures View() == AcceptReady(old(View()))
    {
      while listening && accepts != []
        invariant AcceptReady(View()) == AcceptReady(old(View()))
        decreases Fuel(View())
      {
        var a := accepts[0];
        accepts := accepts[1..];
        match a
        case Blocks =>
          return;
        case Interrupted =>
        case Fails =>
          Emit(OnError);
          return;
        case ModeFails =>
        case Connected =>
          var conn := accepted;
          conns := conns + [conn];
          accepted := accepted + 1;
          Emit(OnConnection(conn));
      }
      if !listening {
        Emit(OnError);
      }
    }

    method Drop(conn: Conn)
      modifies this`conns
      ensures conns == Without(old(conns), conn)
    {
      var kept: seq<Conn> := [];
      for i := 0 to |conns|
        invariant conns == old(conns) && kept == Without(conns[..i], conn)
      {
        assert conns[..i + 1][..i] == conns[..i];
        if conns[i] != conn {
          kept := kept + [conns[i]];
        }
      }
      assert conns[..|conns|] == conns;
      conns := kept;
    }

    /** A connection emits close, at most once. */
    method OnConnClose(conn: Conn)
      modifies this
      ensures View() == CloseConn(old(View()), conn)
      decreases Fuel(View()), 1
    {
      if conn >= accepted || conn in closed {
        return;
      }
      closed := closed + {conn};
      Drop(conn);
      Emit(Event.OnConnClose(conn));
    }

    method Close()
      modifies this
      ensures View() == CloseServer(old(View()))
      decreases Fuel(View()), 1
    {
      if listening {
        listening := false;
        Emit(OnServerClose);
      }
    }

    /** The listeners of the event run. */
    method Emit(ghost e: Event)
      modifies this
      ensures View() == Listen(Logged(old(View()), e))
      decreases Fuel(View()), 0
    {
      log := log + [e];
      ghost var emitted := View();
      while acts != []
        invariant Listen(View()) == Listen(emitted)
        invariant Fuel(View()) <= Fuel(emitted)
        decreases Fuel(View())
      {
        var act := acts[0];
        acts := acts[1..];
        match act
        case Return =>
          return;
        case Destroy(c) =>
          OnConnClose(c);
        case CloseListener =>
          Close();
      }
    }
  }
}
