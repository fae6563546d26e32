/**
 * The server together with its connections as sockets over the shared tables of the loop. Calls reach
 * one socket at a time; within a call its listeners call back as in SocketModel.
 */
module ServerSockets {
  import opened Wire
  import opened LoopTables
  import opened SocketModel
  import opened SocketFrame
  import opened SocketInput
  import opened SocketProofs
  import Server

  /** Connections by number, live or closed; the list that the server keeps; the tables of the loop. */
  datatype Joined = Joined(tables: Tables, socks: seq<Sock>, conns: seq<Server.Conn>)

  datatype Event =
    | Accept(handle: int)
    | Feed(conn: Server.Conn, input: Input)

  /** The socket as it sees the tables when it is called. */
  function Rebased(s: Sock, t: Tables): Sock
  {
    s.(tables := t, past := s.past.(tables0 := t))
  }

  predicate Live(s: Sock) {
    s.fd.Some?
  }

  /** The kernel hands out descriptors that are not open. */
  predicate Unused(j: Joined, h: int) {
    forall c :: 0 <= c < |j.socks| ==> j.socks[c].fd != Some(h)
  }

  predicate Closes(before: Sock, after: Sock) {
    CloseCount(after.past.log) > CloseCount(before.past.log)
  }

  /** The server's close listener drops the connection. */
  function Fed(j: Joined, c: Server.Conn, input: Input): Joined
    requires c < |j.socks|
  {
    var s := j.socks[c];
    var r := Step(if Live(s) then Rebased(s, j.tables) else s, input);
    Joined(if Live(s) then r.tables else j.tables, j.socks[c := r],
           if Closes(s, r) then Server.Without(j.conns, c) else j.conns)
  }

  function JoinedNext(j: Joined, e: Event): Joined
  {
    match e
    case Accept(h) =>
      if !Unused(j, h) then j
      else
        var s := Adopted(h, j.tables);
        Joined(s.tables, j.socks + [s], j.conns + [|j.socks|])
    case Feed(c, input) => if c < |j.socks| then Fed(j, c, input) else j
  }

  function JoinedRun(j: Joined, events: seq<Event>): Joined
    decreases |events|
  {
    if events == [] then j else JoinedNext(JoinedRun(j, events[..|events| - 1]), events[|events| - 1])
  }

  function Empty(t: Tables): Joined
  {
    Joined(t, [], [])
  }

  // ----- What a call of one socket keeps ----------------------------------------------------------

  lemma {:induction false} DrainInputKeepsBase(s: Sock)
    ensures SameBase(s, DrainInput(s))
    decreases Fuel(s)
  {
    hide Delivered, EarlyShutdowns;
    if s.fd.None? {
      FailSame(s);
    } else if s.script.recvs != [] {
      var rest := RecvsLeft(s);
      match s.script.recvs[0]
      case Got(bytes) =>
        if bytes == [] {
          EmitSame(rest, OnEnd);
          CloseSame(Emit(rest, OnEnd));
        } else {
          ListenSame(Logged(rest, OnData(bytes)));
          DrainInputKeepsBase(Emit(rest, OnData(bytes)));
        }
      case RecvBlocks =>
      case RecvInterrupted => DrainInputKeepsBase(rest);
      case RecvFails => FailSame(rest);
    }
  }

  lemma StepKeepsBase(s: Sock, input: Input)
    requires s.past.handle.Some?
    ensures SameBase(s, Step(s, input))
  {
    hide Delivered, EarlyShutdowns;
    var t := s.(script := input.script);
    match input.call
    case Dial(dialed) =>
    case Dispatch(ready, connectFailed) =>
      FailSame(t);
      ConnectedSame(t);
      WritableSame(t);
      DrainInputKeepsBase(if ready.writable then Writable(t) else t);
    case UserWrite(chunk) => WriteSame(t, chunk);
    case UserEnd => EndSame(t);
    case UserDestroy => CloseSame(t);
  }

  lemma ClosedStays(s: Sock, input: Input)
    requires s.state.Closed? && s.past.handle.Some?
    ensures Step(s, input).state.Closed?
  {
    FailCloses(s.(script := input.script));
  }

  // ----- The sockets share the tables ----------------------------------------------------------------

  /** What the socket is when it is called next. */
  function Seen(j: Joined, c: nat): Sock
    requires c < |j.socks|
  {
    if Live(j.socks[c]) then Rebased(j.socks[c], j.tables) else j.socks[c]
  }

  predicate Fits(j: Joined, c: nat)
    requires c < |j.socks|
  {
    Stable(Seen(j, c)) && j.socks[c].past.handle.Some?
  }

  /** Every socket meets its invariant over the shared tables, and no two live ones hold the same descriptor. */
  predicate Sound(j: Joined) {
    && (forall c :: 0 <= c < |j.socks| ==> Fits(j, c))
    && (forall c, d :: 0 <= c < d < |j.socks| && Live(j.socks[c]) ==> j.socks[c].fd != j.socks[d].fd)
  }

  /** The two tables agree at the descriptor. */
  predicate SameAt(t: Tables, t': Tables, h: int) {
    && (h in t.watches <==> h in t'.watches) && (h in t.fds <==> h in t'.fds)
    && (h in t.watches ==> t'.watches[h] == t.watches[h]) && (h in t.fds ==> t'.fds[h] == t.fds[h])
  }

  lemma RebasedKeeps(s: Sock, t: Tables, t': Tables)
    requires Live(s) && Stable(Rebased(s, t)) && SameAt(t, t', s.fd.value)
    ensures Stable(Rebased(s, t'))
  {
    hide Logical, CloseCount, Drains;
  }

  lemma RebasedSelf(s: Sock)
    requires Live(s) && Stable(s)
    ensures Stable(Rebased(s, s.tables))
  {
    hide Logical, CloseCount, Drains;
  }

  /** A call of a live socket changes the tables at its own descriptor only. */
  lemma CallTouchesOwn(s: Sock, input: Input, h: int)
    requires Stable(s) && s.past.handle.Some? && s.past.handle.value != h && s.past.tables0 == s.tables
    ensures SameAt(s.tables, Step(s, input).tables, h)
  {
    hide Step;
    StepKeeps(s, input);
    StepKeepsBase(s, input);
    var r := Step(s, input);
    assert Framed(r.tables, r.past.tables0, r.past.handle);
  }

  /** While the socket is live it holds its descriptor. */
  lemma HeldHandle(s: Sock)
    requires Stable(s) && s.past.handle.Some?
    ensures Live(s) ==> s.fd == s.past.handle && CloseCount(s.past.log) == 0
    ensures !Live(s) ==> s.state.Closed? && CloseCount(s.past.log) == 1
    ensures Live(s) <==> s.state.Open? || s.state.Connecting?
  {
    hide Logical, CloseCount, Drains, Framed, Registered;
  }

  /** The next state of a socket that is called, as the others will see it. */
  lemma FedFits(j: Joined, c: nat, input: Input)
    requires c < |j.socks| && Fits(j, c)
    ensures Fits(Fed(j, c, input), c)
    ensures var s, r := j.socks[c], Fed(j, c, input).socks[c];
      && (Live(r) ==> r.fd == s.fd && Live(s))
      && (Closes(s, r) <==> Live(s) && !Live(r))
      && (CloseCount(r.past.log) > 0 <==> !Live(r)) && (CloseCount(s.past.log) > 0 <==> !Live(s))
  {
    hide Inv, Step, CloseCount;
    var s := j.socks[c];
    var seen := Seen(j, c);
    var r := Step(seen, input);
    StepKeeps(seen, input);
    StepKeepsBase(seen, input);
    HeldHandle(seen);
    HeldHandle(r);
    if !Live(s) {
      ClosedStays(s, input);
    } else if Live(r) {
      RebasedSelf(r);
    }
  }

  /** The other sockets find their entries as they left them. */
  lemma OthersFit(j: Joined, c: nat, input: Input, d: nat)
    requires Sound(j) && c < |j.socks| && d < |j.socks| && d != c
    ensures Fits(Fed(j, c, input), d)
  {
    hide Inv, Step;
    var s, other := j.socks[c], j.socks[d];
    assert Fits(j, c) && Fits(j, d);
    if Live(s) && Live(other) {
      HeldHandle(Seen(j, c));
      assert s.fd != other.fd;
      CallTouchesOwn(Seen(j, c), input, other.fd.value);
      RebasedKeeps(other, j.tables, Fed(j, c, input).tables);
    }
  }

  lemma FedKeepsSound(j: Joined, c: nat, input: Input)
    requires Sound(j) && c < |j.socks|
    ensures Sound(Fed(j, c, input))
  {
    hide Inv, Step, Closes;
    var k := Fed(j, c, input);
    assert Fits(j, c);
    FedFits(j, c, input);
    forall d | 0 <= d < |k.socks| ensures Fits(k, d) {
      if d != c {
        OthersFit(j, c, input, d);
      }
    }
    hide Fed, Fits;
    FedSocks(j, c, input);
  }

  lemma FedSocks(j: Joined, c: nat, input: Input)
    requires c < |j.socks|
    ensures Fed(j, c, input).socks == j.socks[c := Fed(j, c, input).socks[c]]
  {
    hide Step;
  }

  lemma AdoptedFits(h: int, t: Tables)
    ensures Stable(Adopted(h, t)) && Stable(Rebased(Adopted(h, t), Adopted(h, t).tables))
  {
    StartStable(Adopted(h, t));
    RebasedSelf(Adopted(h, t));
  }

  lemma AcceptKeepsSound(j: Joined, h: int)
    requires Sound(j) && Unused(j, h)
    ensures Sound(JoinedNext(j, Accept(h)))
  {
    hide Inv;
    var k := JoinedNext(j, Accept(h));
    AdoptedFits(h, j.tables);
    forall d | 0 <= d < |k.socks| ensures Fits(k, d) {
      if d < |j.socks| {
        assert Fits(j, d) && k.socks[d] == j.socks[d] && j.socks[d].fd != Some(h);
        if Live(j.socks[d]) {
          RebasedKeeps(j.socks[d], j.tables, k.tables);
        }
      }
    }
  }

  lemma {:induction false} RunKeepsSound(t: Tables, events: seq<Event>)
    ensures Sound(JoinedRun(Empty(t), events))
    decreases |events|
  {
    hide Inv, Step;
    if events != [] {
      var j, e := JoinedRun(Empty(t), events[..|events| - 1]), events[|events| - 1];
      RunKeepsSound(t, events[..|events| - 1]);
      if e.Accept? && Unused(j, e.handle) {
        AcceptKeepsSound(j, e.handle);
      } else if e.Feed? && e.conn < |j.socks| {
        FedKeepsSound(j, e.conn, e.input);
      }
    }
  }

  // ----- The server's list -----------------------------------------------------------------------------

  /** Connections that have emitted close. */
  function ClosedOnes(j: Joined): set<Server.Conn>
  {
    set c | 0 <= c < |j.socks| && CloseCount(j.socks[c].past.log) > 0
  }

  /** The steps of the server that a step of the whole amounts to. */
  function Translated(j: Joined, e: Event): seq<Server.Step>
  {
    match e
    case Accept(h) => if Unused(j, h) then [Server.Ready([Server.Connected], [])] else []
    case Feed(c, input) =>
      if c < |j.socks| && Closes(j.socks[c], Fed(j, c, input).socks[c]) then [Server.ConnCloses(c, [])] else []
  }

  predicate Matches(j: Joined, s: Server.State) {
    s.listening && s.conns == j.conns && s.accepted == |j.socks| && s.closed == ClosedOnes(j)
  }

  lemma ServerOne(s: Server.State, step: Server.Step)
    ensures Server.Run(s, [step]) == Server.Next(s, step) && Server.Run(s, []) == s
  {
    assert [step][..0] == [];
  }

  lemma AcceptMatches(j: Joined, s: Server.State, h: int)
    requires Matches(j, s) && Unused(j, h)
    ensures Matches(JoinedNext(j, Accept(h)), Server.Next(s, Server.Ready([Server.Connected], [])))
  {
    var k := JoinedNext(j, Accept(h));
    var a := s.(accepts := [Server.Connected], acts := []);
    var r := Server.Logged(Server.Retained(a.(accepts := [])), Server.OnConnection(s.accepted));
    assert a.accepts[1..] == [];
    assert Server.Listen(r) == r && Server.AcceptReady(r) == r;
    assert Server.AcceptReady(a) == r;
    forall c ensures c in ClosedOnes(k) <==> c in ClosedOnes(j) {
      if 0 <= c < |j.socks| {
        assert k.socks[c] == j.socks[c];
      }
    }
  }

  /** A socket that emits close is one that the server still keeps. */
  lemma FeedMatches(j: Joined, s: Server.State, c: nat, input: Input)
    requires Sound(j) && Matches(j, s) && c < |j.socks|
    ensures Matches(Fed(j, c, input), Server.Run(s, Translated(j, Feed(c, input))))
  {
    hide Inv, Step, CloseCount;
    var k := Fed(j, c, input);
    assert Fits(j, c);
    FedFits(j, c, input);
    ServerOne(s, Server.ConnCloses(c, []));
    forall d ensures d in ClosedOnes(k) <==> d in ClosedOnes(j) || (d == c && Closes(j.socks[c], k.socks[c])) {
      if 0 <= d < |j.socks| && d != c {
        assert k.socks[d] == j.socks[d];
      }
    }
    if Closes(j.socks[c], k.socks[c]) {
      var dropped := Server.Logged(Server.Dropped(s.(acts := []), c), Server.OnConnClose(c));
      assert Server.Listen(dropped) == dropped;
      assert ClosedOnes(k) == ClosedOnes(j) + {c};
    } else {
      assert ClosedOnes(k) == ClosedOnes(j);
    }
  }

  /** The steps of the server in a run of the whole. */
  function ServerSteps(t: Tables, events: seq<Event>): (r: seq<Server.Step>)
    decreases |events|
  {
    if events == [] then []
    else
      var before := events[..|events| - 1];
      ServerSteps(t, before) + Translated(JoinedRun(Empty(t), before), events[|events| - 1])
  }

  lemma ServerRunAppend(s: Server.State, a: seq<Server.Step>, b: seq<Server.Step>)
    requires |b| <= 1
    ensures Server.Run(s, a + b) == Server.Run(Server.Run(s, a), b)
  {
    if b == [] {
      assert a + b == a;
    } else {
      assert (a + b)[..|a|] == a && b[..0] == [];
    }
  }

  /** The server with real sockets is the server of numbered connections that close at most once. */
  lemma {:induction false} JoinedRefinesServer(t: Tables, events: seq<Event>)
    ensures Matches(JoinedRun(Empty(t), events), Server.Run(Server.LISTENING, ServerSteps(t, events)))
    decreases |events|
  {
    hide Inv, Step, CloseCount;
    if events != [] {
      var before, e := events[..|events| - 1], events[|events| - 1];
      var j, s := JoinedRun(Empty(t), before), Server.Run(Server.LISTENING, ServerSteps(t, before));
      JoinedRefinesServer(t, before);
      RunKeepsSound(t, before);
      ServerRunAppend(Server.LISTENING, ServerSteps(t, before), Translated(j, e));
      ServerOne(s, Server.Ready([Server.Connected], []));
      hide Sound, Matches, Fed;
      if e.Accept? && Unused(j, e.handle) {
        AcceptMatches(j, s, e.handle);
      } else if e.Feed? && e.conn < |j.socks| {
        FeedMatches(j, s, e.conn, e.input);
      }
    }
  }

  /**
   * Over every run of the server with its sockets: the list holds, once each and in the order of
   * accept, exactly the connections that have not emitted close; these are the live ones, each
   * registered in both shared tables with write interest exactly when it has a backlog; and no
   * connection emits close twice.
   */
  lemma LiveConnectionsRetained(t: Tables, events: seq<Event>)
    ensures var j := JoinedRun(Empty(t), events);
      && (forall c: nat :: c in j.conns <==> c < |j.socks| && CloseCount(j.socks[c].past.log) == 0)
      && (forall i, k :: 0 <= i < k < |j.conns| ==> j.conns[i] < j.conns[k])
      && (forall c :: 0 <= c < |j.socks| ==> Settled(j, j.socks[c]))
  {
    hide Inv, CloseCount, Step;
    var j := JoinedRun(Empty(t), events);
    JoinedRefinesServer(t, events);
    Server.RetainedUntilClosed(ServerSteps(t, events));
    RunKeepsSound(t, events);
    forall c | 0 <= c < |j.socks| ensures Settled(j, j.socks[c]) {
      assert Fits(j, c);
      SeenSettled(j, c);
    }
  }

  predicate Settled(j: Joined, s: Sock) {
    && CloseCount(s.past.log) == (if Live(s) then 0 else 1)
    && (Live(s) ==> Registered(j.tables, s.fd.value))
    && (s.state.Open? ==> Live(s) && j.tables.watches[s.fd.value] == Interest(true, s.offset < |s.outbuf|))
  }

  lemma SeenSettled(j: Joined, c: nat)
    requires c < |j.socks| && Fits(j, c)
    ensures Settled(j, j.socks[c])
  {
    hide Logical, CloseCount, Drains, Framed;
    HeldHandle(Seen(j, c));
  }
}
