/** What every run of a socket keeps, whatever the kernel answers and whatever the listeners call. */
module SocketProofs {
  import opened Wire
  import opened LoopTables
  import opened SocketModel
  import opened SocketFrame

  // ----- The invariant -------------------------------------------------------------

  predicate Buffered(s: Sock) {
    s.offset < |s.outbuf| || (s.outbuf == [] && s.offset == 0)
  }

  /** What the kernel took, followed by what is still buffered, is what write accepted, in order. */
  predicate Conserved(s: Sock) {
    s.offset <= |s.outbuf| && s.past.accepted == s.past.taken + s.outbuf[s.offset..]
  }

  function CloseCount(log: seq<Event>): nat
  {
    multiset(log)[OnClose]
  }

  /** How often drain listeners have run to their end. */
  function Drains(log: seq<Event>): nat
  {
    if log == [] then 0 else Drains(log[..|log| - 1]) + if log[|log| - 1].DrainReturned? then 1 else 0
  }

  /** The two tables agree everywhere but at `h`. */
  predicate SameElsewhere(a: map<int, Interest>, b: map<int, Interest>, h: int) {
    && (forall k :: k in a && k != h ==> k in b && b[k] == a[k])
    && (forall k :: k in b && k != h ==> k in a)
  }

  /** No other descriptor's entry is ever touched. */
  predicate Framed(t: Tables, t0: Tables, handle: Option<int>) {
    if handle.None? then t == t0
    else SameElsewhere(t.watches, t0.watches, handle.value) && SameElsewhere(t.fds, t0.fds, handle.value)
  }

  /** `h` is in both tables with the same interest. */
  predicate Registered(t: Tables, h: int) {
    h in t.watches && h in t.fds && t.watches[h] == t.fds[h]
  }

  /** The descriptor is held, and registered, exactly while the socket is live; then close is emitted, once. */
  predicate Held(s: Sock) {
    && (s.fd.Some? <==> s.state.Connecting? || s.state.Open?)
    && (s.fd.Some? ==>
          s.past.handle == s.fd && Registered(s.tables, s.fd.value) && CloseCount(s.past.log) == 0)
    && (s.fd.None? && s.past.handle.Some? ==>
          && s.past.handle.value !in s.tables.watches && s.past.handle.value !in s.tables.fds
          && CloseCount(s.past.log) == 1)
    && (s.past.handle.None? ==> CloseCount(s.past.log) == 0)
    && Framed(s.tables, s.past.tables0, s.past.handle)
  }

  /** Nothing is buffered and no end is owed before the socket opens. */
  predicate Unopened(s: Sock) {
    && (s.past.handle.None? || s.state.Connecting? ==> s.outbuf == [] && !s.past.finWanted)
    && (s.state.Idle? ==> s.past.handle.None?)
  }

  /** Write interest is registered exactly when there is a backlog. A failing socket is exempt until it closes. */
  predicate Interested(s: Sock, doomed: bool)
    requires Held(s)
  {
    && (s.state.Connecting? ==> s.tables.watches[s.fd.value] == WRITE)
    && (s.state.Open? && !doomed ==> s.tables.watches[s.fd.value] == Interest(true, Pending(s) > 0))
  }

  /** end() on an open socket has shut the write side down as soon as nothing is buffered. */
  predicate HalfClosed(s: Sock, exempt: bool) {
    && (s.past.finWanted ==> s.ended)
    && (s.state.Open? && !exempt && s.past.finWanted && Pending(s) == 0 ==> s.past.shut)
  }

  /** An end() that came before the socket opened takes effect with the first drain or the next end(). */
  predicate EndedEarly(s: Sock) {
    && (s.past.shut ==> s.past.finWanted || Drains(s.past.log) > 0)
    && (s.past.handle.None? || s.state.Connecting? ==> Drains(s.past.log) == 0)
    && (s.state.Open? && s.ended && !s.past.finWanted && Drains(s.past.log) > 0 ==> s.past.shut)
  }

  predicate Premature(e: Event) {
    e.DrainReturned? && e.pending > 0 && e.ended && e.live
  }

  /**
   * drain is emitted on an empty buffer only, and the write side is shut down over a backlog
   * exactly right after drain listeners returned leaving one on an ended, live socket.
   */
  predicate EntryOk(log: seq<Event>, i: nat)
    requires i < |log|
  {
    && (log[i].OnDrain? ==> log[i].pending == 0)
    && (log[i].ShutdownWrite? && log[i].pending > 0 ==>
          0 < i && Premature(log[i - 1]) && log[i - 1].pending == log[i].pending)
    && (Premature(log[i]) ==> i + 1 < |log| && log[i + 1] == ShutdownWrite(log[i].pending))
  }

  predicate Logical(log: seq<Event>) {
    forall i :: 0 <= i < |log| ==> EntryOk(log, i)
  }

  /** `doomed`: an error is being reported. `draining`: drain listeners are running. */
  predicate Inv(s: Sock, doomed: bool, draining: bool) {
    && Buffered(s)
    && Conserved(s)
    && Held(s)
    && Unopened(s)
    && Interested(s, doomed)
    && HalfClosed(s, doomed || draining)
    && EndedEarly(s)
    && Logical(s.past.log)
  }

  predicate Stable(s: Sock) {
    Inv(s, false, false)
  }

  // ----- Events ----------------------------------------------------------------------

  /** The invariant says nothing about the script. */
  lemma ScriptKeeps(s: Sock, script: Script, doomed: bool, draining: bool)
    requires Inv(s, doomed, draining)
    ensures Inv(s.(script := script), doomed, draining)
  {
  }

  lemma LogicalSnoc(log: seq<Event>, e: Event)
    requires Logical(log) && !Premature(e)
    requires e.OnDrain? || e.ShutdownWrite? ==> e.pending == 0
    ensures Logical(log + [e])
    ensures CloseCount(log + [e]) == CloseCount(log) + if e.OnClose? then 1 else 0
    ensures Drains(log + [e]) == Drains(log) + if e.DrainReturned? then 1 else 0
  {
    assert (log + [e])[..|log|] == log;
    forall i | 0 <= i <= |log| ensures EntryOk(log + [e], i) {
      if i < |log| {
        assert EntryOk(log, i);
      }
    }
  }

  lemma LoggedKeeps(s: Sock, e: Event, doomed: bool, draining: bool)
    requires Inv(s, doomed, draining)
    requires !e.OnClose? && !e.DrainReturned?
    requires e.OnDrain? || e.ShutdownWrite? ==> e.pending == 0
    ensures Inv(Logged(s, e), doomed, draining)
  {
    LogicalSnoc(s.past.log, e);
  }

  lemma ModifyKeeps(s: Sock, doomed: bool, draining: bool)
    requires Inv(s, true, draining) && s.state.Open?
    requires HalfClosed(s, doomed || draining)
    ensures Inv(SetInterest(s, Interest(true, Pending(s) > 0)), doomed, draining)
  {
  }

  // ----- Re-entrant calls keep the invariant ----------------------------------------------

  lemma {:induction false} ListenKeeps(s: Sock, doomed: bool, draining: bool)
    requires Inv(s, doomed, draining)
    ensures Inv(Listen(s), doomed, draining)
    decreases Fuel(s), 0
  {
    hide Inv;
    if s.script.acts != [] {
      var rest := ActsLeft(s);
      ScriptKeeps(s, rest.script, doomed, draining);
      match s.script.acts[0]
      case Return =>
      case DoWrite(chunk) =>
        WriteKeeps(rest, chunk, doomed, draining);
        ListenKeeps(Write(rest, chunk).0, doomed, draining);
      case DoEnd =>
        EndKeeps(rest, doomed, draining);
        ListenKeeps(End(rest), doomed, draining);
      case DoDestroy =>
        CloseKeeps(rest, doomed, draining);
        ListenKeeps(CloseWith(rest), doomed, draining);
    }
  }

  lemma {:induction false} EmitKeeps(s: Sock, e: Event, doomed: bool, draining: bool)
    requires Inv(s, doomed, draining)
    requires !e.OnClose? && !e.DrainReturned? && !e.ShutdownWrite?
    requires e.OnDrain? ==> e.pending == 0
    ensures Inv(Emit(s, e), doomed, draining)
    decreases Fuel(s), 1
  {
    LoggedKeeps(s, e, doomed, draining);
    ListenKeeps(Logged(s, e), doomed, draining);
  }

  lemma ClosingKeeps(s: Sock, doomed: bool, draining: bool)
    requires Inv(s, doomed, draining) && s.fd.Some?
    ensures Inv(Logged(Released(s), OnClose), false, draining)
  {
    hide Logical;
    LogicalSnoc(s.past.log, OnClose);
  }

  lemma ClosedMeets(s: Sock, from: bool, to: bool, draining: bool)
    requires Inv(s, from, draining) && s.state.Closed?
    ensures Inv(s, to, draining)
  {
  }

  /** Closing ends every exemption: a closed socket meets the invariant outright. */
  lemma {:induction false} CloseKeeps(s: Sock, doomed: bool, draining: bool)
    requires Inv(s, doomed, draining)
    ensures Inv(CloseWith(s), false, draining) && Inv(CloseWith(s), doomed, draining) && CloseWith(s).state.Closed?
    decreases Fuel(s), 2
  {
    if s.fd.Some? {
      var c := Logged(Released(s), OnClose);
      ClosingKeeps(s, doomed, draining);
      assert !s.state.Closed?;
      assert CloseWith(s) == Listen(c);
      hide Inv;
      ListenKeeps(c, false, draining);
      ListenStaysClosed(c);
      ClosedMeets(CloseWith(s), false, doomed, draining);
    }
  }

  lemma {:induction false} FailKeeps(s: Sock, draining: bool)
    requires Inv(s, true, draining)
    ensures Inv(Fail(s), false, draining) && Fail(s).state.Closed?
    decreases Fuel(s), 3
  {
    EmitKeeps(s, OnError, true, draining);
    CloseKeeps(Emit(s, OnError), true, draining);
  }

  /** During the send loop the offset may have reached the end of the buffer. */
  predicate Pumping(s: Sock) {
    && Conserved(s)
    && Held(s)
    && Unopened(s)
    && Interested(s, true)
    && HalfClosed(s, true)
    && EndedEarly(s)
    && Logical(s.past.log)
    && s.state.Open?
  }

  lemma AdvanceKeeps(s: Sock, count: nat)
    requires Pumping(s) && s.offset + count <= |s.outbuf|
    ensures Pumping(Advance(s, count))
  {
    var o := s.offset;
    assert s.outbuf[o..] == s.outbuf[o..o + count] + s.outbuf[o + count..];
    ConcatAssociates(s.past.taken, s.outbuf[o..o + count], s.outbuf[o + count..]);
  }

  lemma PumpingMeets(s: Sock, script: Script, draining: bool)
    requires Pumping(s)
    ensures Pumping(s.(script := script))
    ensures s.offset < |s.outbuf| ==> Inv(s.(script := script), true, draining)
    ensures s.offset >= |s.outbuf| ==> Inv(s.(outbuf := [], offset := 0), true, draining)
  {
  }

  /** Sending either fails and closes, or changes nothing but the buffer, its offset and the script. */
  lemma {:induction false} PumpKeeps(s: Sock, draining: bool)
    requires Pumping(s)
    ensures Inv(Pump(s), true, draining)
    ensures Pump(s).state.Closed? ||
      (Pump(s) == s.(outbuf := Pump(s).outbuf, offset := Pump(s).offset, script := Pump(s).script,
                     past := s.past.(taken := Pump(s).past.taken))
       && Pump(s).script.acts == s.script.acts)
    decreases Fuel(s), 4
  {
    hide Pumping, Inv;
    PumpingMeets(s, s.script, draining);
    if s.offset < |s.outbuf| && s.script.sends != [] {
      var rest := SendsLeft(s);
      PumpingMeets(s, rest.script, draining);
      match s.script.sends[0]
      case Took(count) =>
        if count == 0 {
          FailKeeps(rest, draining);
          ClosedMeets(Fail(rest), false, true, draining);
        } else {
          var n := if count <= Pending(s) then count else Pending(s);
          AdvanceKeeps(rest, n);
          PumpKeeps(Advance(rest, n), draining);
        }
      case SendBlocks =>
      case SendInterrupted => PumpKeeps(rest, draining);
      case SendFails =>
        FailKeeps(rest, draining);
        ClosedMeets(Fail(rest), false, true, draining);
    }
  }

  lemma {:induction false} WriteKeeps(s: Sock, chunk: seq<Byte>, doomed: bool, draining: bool)
    requires Inv(s, doomed, draining)
    ensures Inv(Write(s, chunk).0, doomed, draining)
    decreases Fuel(s), 5
  {
    if !s.state.Open? {
      FailKeeps(s, draining);
    } else {
      var queued := Queued(s, chunk);
      assert queued.outbuf[s.offset..] == s.outbuf[s.offset..] + chunk;
      ConcatAssociates(s.past.taken, s.outbuf[s.offset..], chunk);
      if s.offset >= |s.outbuf| {
        PumpKeeps(queued, draining);
      }
      var pumped := if s.offset < |s.outbuf| then queued else Pump(queued);
      if pumped.state.Open? {
        ModifyKeeps(pumped, doomed, draining);
      }
    }
  }

  lemma EndKeeps(s: Sock, doomed: bool, draining: bool)
    requires Inv(s, doomed, draining)
    ensures Inv(End(s), doomed, draining)
  {
    if s.state.Open? && Pending(s) == 0 {
      LoggedKeeps(s, ShutdownWrite(0), doomed, draining);
    }
  }

  // ----- A closed socket stays closed -------------------------------------------------------

  lemma {:induction false} ListenStaysClosed(s: Sock)
    requires s.state.Closed?
    ensures Listen(s).state.Closed?
    decreases Fuel(s), 0
  {
    if s.script.acts != [] {
      var rest := ActsLeft(s);
      match s.script.acts[0]
      case Return =>
      case DoWrite(chunk) =>
        FailCloses(rest);
        ListenStaysClosed(Write(rest, chunk).0);
      case DoEnd => ListenStaysClosed(End(rest));
      case DoDestroy => ListenStaysClosed(CloseWith(rest));
    }
  }

  lemma {:induction false} FailCloses(s: Sock)
    requires s.state.Closed?
    ensures Fail(s).state.Closed?
    decreases Fuel(s), 1
  {
    ListenStaysClosed(Logged(s, OnError));
  }

  // ----- Readiness keeps the invariant ---------------------------------------------------------

  lemma ConnectedKeeps(s: Sock)
    requires Stable(s) && s.state.Connecting?
    ensures Stable(Connected(s))
  {
    var o := SetInterest(s.(state := Open), READ);
    assert Stable(o);
    EmitKeeps(o, OnConnect, false, false);
    var e := Emit(o, OnConnect);
    if Pending(e) > 0 && e.state.Open? {
      ModifyKeeps(e, false, false);
    }
  }

  lemma PrematureLogged(log: seq<Event>, pending: nat)
    requires Logical(log)
    ensures Logical(log + [DrainReturned(pending, true, true)] + [ShutdownWrite(pending)])
    ensures CloseCount(log + [DrainReturned(pending, true, true)] + [ShutdownWrite(pending)]) == CloseCount(log)
    ensures Drains(log + [DrainReturned(pending, true, true)] + [ShutdownWrite(pending)]) > 0
  {
    var all := log + [DrainReturned(pending, true, true)] + [ShutdownWrite(pending)];
    assert all[..|log| + 1] == log + [DrainReturned(pending, true, true)];
    forall i | 0 <= i < |all| ensures EntryOk(all, i) {
      if i < |log| {
        assert EntryOk(log, i);
      }
    }
  }

  /** Once drain listeners are done, a longer log keeps the invariant if an ended live socket is shut down. */
  lemma MarkedKeeps(d: Sock, log: seq<Event>, shut: bool)
    requires Inv(d, false, true) && d.past.handle.Some? && !d.state.Connecting?
    requires Logical(log) && CloseCount(log) == CloseCount(d.past.log) && Drains(log) > 0
    requires d.past.shut ==> shut
    requires d.state.Open? && d.ended ==> shut
    ensures Stable(d.(past := d.past.(log := log, shut := shut)))
  {
    hide Logical, CloseCount, Drains, Framed, Registered;
  }

  lemma AfterDrainMarks(d: Sock)
    ensures var mark := DrainReturned(Pending(d), d.ended, d.fd.Some?);
      AfterDrain(d) ==
        if d.ended && d.fd.Some? then
          d.(past := d.past.(log := d.past.log + [mark] + [ShutdownWrite(Pending(d))], shut := true))
        else
          d.(past := d.past.(log := d.past.log + [mark], shut := d.past.shut))
  {
  }

  lemma InvLogical(d: Sock)
    requires Inv(d, false, true)
    ensures Logical(d.past.log) && (d.state.Open? ==> d.fd.Some?)
  {
  }

  /** After the drain listeners: the mark, and the shutdown that end() asked for. */
  lemma DrainReturnKeeps(d: Sock)
    requires Inv(d, false, true) && d.past.handle.Some? && !d.state.Connecting?
    ensures Stable(AfterDrain(d))
  {
    hide Inv, Logical, CloseCount, Drains, AfterDrain;
    AfterDrainMarks(d);
    InvLogical(d);
    var mark := DrainReturned(Pending(d), d.ended, d.fd.Some?);
    if d.ended && d.fd.Some? {
      PrematureLogged(d.past.log, Pending(d));
      MarkedKeeps(d, d.past.log + [mark] + [ShutdownWrite(Pending(d))], true);
    } else {
      LogicalSnoc(d.past.log, mark);
      MarkedKeeps(d, d.past.log + [mark], d.past.shut);
    }
  }

  /** A backlog that is left keeps its write interest. */
  lemma BacklogKeeps(s: Sock)
    requires Stable(s) && s.state.Open? && Pending(Pump(s)) > 0
    ensures Stable(Pump(s))
  {
    PumpKeeps(s, false);
    if Pump(s).state.Closed? {
      ClosedMeets(Pump(s), true, false, false);
    }
  }

  /** The socket as the drain listeners find it. */
  function Flushed(p: Sock): Sock
  {
    Logged(SetInterest(p, READ), OnDrain(Pending(p)))
  }

  lemma FlushedKeeps(p: Sock)
    requires Inv(p, true, true) && (p.state.Open? || p.state.Closed?) && Pending(p) == 0
    ensures Inv(Flushed(p), false, true)
  {
    if p.state.Open? {
      ModifyKeeps(p, false, true);
    } else {
      ClosedMeets(p, true, false, true);
    }
    LoggedKeeps(SetInterest(p, READ), OnDrain(0), false, true);
  }

  lemma OpenPumps(s: Sock)
    requires Stable(s) && s.state.Open?
    ensures Pumping(s) && s.past.handle.Some?
  {
  }

  lemma WritableKeeps(s: Sock)
    requires Stable(s) && s.state.Open?
    ensures Stable(Writable(s))
  {
    hide Inv, Pumping, Delivered, EarlyShutdowns;
    var p := Pump(s);
    if Pending(p) > 0 {
      BacklogKeeps(s);
    } else {
      OpenPumps(s);
      PumpKeeps(s, true);
      PumpSame(s);
      FlushedKeeps(p);
      ListenKeeps(Flushed(p), false, true);
      ListenSame(Flushed(p));
      DrainReturnKeeps(Listen(Flushed(p)));
    }
  }

  lemma {:induction false} DrainInputKeeps(s: Sock)
    requires Stable(s)
    ensures Stable(DrainInput(s))
    decreases Fuel(s)
  {
    hide Inv;
    if s.fd.None? || s.script.recvs == [] {
      FailsStably(s);
      return;
    }
    var rest := RecvsLeft(s);
    ScriptKeeps(s, rest.script, false, false);
    match s.script.recvs[0]
    case Got(bytes) =>
      if bytes == [] {
        EmitKeeps(rest, OnEnd, false, false);
        CloseKeeps(Emit(rest, OnEnd), false, false);
      } else {
        EmitKeeps(rest, OnData(bytes), false, false);
        DrainInputKeeps(Emit(rest, OnData(bytes)));
      }
    case RecvBlocks =>
    case RecvInterrupted => DrainInputKeeps(rest);
    case RecvFails => FailsStably(rest);
  }

  lemma FailsStably(s: Sock)
    requires Stable(s)
    ensures Stable(Fail(s))
  {
    FailKeeps(s, false);
  }

  // ----- Runs --------------------------------------------------------------------------------------

  lemma StartConnectKeeps(s: Sock, dialed: Option<int>)
    requires Stable(s) && s.past.handle.None?
    ensures Stable(StartConnect(s, dialed))
  {
    if dialed.None? {
      FailsStably(s);
    }
  }

  lemma StepKeeps(s: Sock, input: Input)
    requires Stable(s)
    ensures Stable(Step(s, input))
  {
    var t := s.(script := input.script);
    ScriptKeeps(s, input.script, false, false);
    match input.call
    case Dial(dialed) =>
      if s.past.handle.None? {
        StartConnectKeeps(t, dialed);
      }
    case Dispatch(ready, connectFailed) =>
      if t.state.Connecting? {
        if connectFailed {
          FailsStably(t);
        } else {
          ConnectedKeeps(t);
        }
      } else if t.state.Open? {
        if ready.writable {
          WritableKeeps(t);
        }
        DrainInputKeeps(if ready.writable then Writable(t) else t);
      }
    case UserWrite(chunk) => WriteKeeps(t, chunk, false, false);
    case UserEnd => EndKeeps(t, false, false);
    case UserDestroy => CloseKeeps(t, false, false);
  }

  /** Every reachable state of a socket, dialed or adopted, over any environment, meets the invariant. */
  lemma {:induction false} RunKeeps(s: Sock, inputs: seq<Input>)
    requires Stable(s)
    ensures Stable(Run(s, inputs))
    decreases |inputs|
  {
    if inputs != [] {
      RunKeeps(s, inputs[..|inputs| - 1]);
      StepKeeps(Run(s, inputs[..|inputs| - 1]), inputs[|inputs| - 1]);
    }
  }

  /** Where a run starts: a new socket, or one adopted by the server. */
  predicate Start(s: Sock) {
    s == Fresh(s.past.tables0) || (s.fd.Some? && s == Adopted(s.fd.value, s.past.tables0))
  }

  lemma StartStable(s: Sock)
    requires Start(s)
    ensures Stable(s)
  {
  }

  // ----- The theorems, over every run ---------------------------------------------------------------

  lemma ByteConservation(start: Sock, inputs: seq<Input>)
    requires Start(start)
    ensures var s := Run(start, inputs);
      s.offset <= |s.outbuf| && s.past.accepted == s.past.taken + s.outbuf[s.offset..]
  {
    StartStable(start);
    RunKeeps(start, inputs);
  }

  lemma InterestMatchesBacklog(start: Sock, inputs: seq<Input>)
    requires Start(start) && Run(start, inputs).state.Open?
    ensures var s := Run(start, inputs);
      s.fd.Some? && Registered(s.tables, s.fd.value)
      && s.tables.watches[s.fd.value] == Interest(true, s.offset < |s.outbuf|)
  {
    StartStable(start);
    RunKeeps(start, inputs);
  }

  /**
   * write on a socket that stays open returns false exactly when it leaves write interest, so a drain,
   * behind. It holds in the middle of a call too, for the writes of listeners, unless an error is
   * being reported and the socket is about to close.
   */
  lemma WriteReturns(s: Sock, chunk: seq<Byte>, draining: bool)
    requires Inv(s, false, draining)
    ensures var (after, ok) := Write(s, chunk);
      after.state.Open? ==>
        && after.fd.Some? && Registered(after.tables, after.fd.value)
        && ok == !after.tables.watches[after.fd.value].write
  {
    WriteKeeps(s, chunk, false, draining);
    assert s.state.Open? ==> Write(s, chunk).1 == (Pending(Write(s, chunk).0) == 0);
    if !s.state.Open? {
      FailKeeps(s, draining);
    }
  }

  lemma ClosedAtMostOnce(start: Sock, inputs: seq<Input>)
    requires Start(start)
    ensures var s := Run(start, inputs);
      && CloseCount(s.past.log) <= 1
      && (s.state.Connecting? || s.state.Open? ==>
            CloseCount(s.past.log) == 0 && s.fd.Some? && Registered(s.tables, s.fd.value))
      && (CloseCount(s.past.log) == 1 ==>
            && s.fd.None? && s.past.handle.Some?
            && s.past.handle.value !in s.tables.watches && s.past.handle.value !in s.tables.fds)
      && Framed(s.tables, s.past.tables0, s.past.handle)
  {
    StartStable(start);
    RunKeeps(start, inputs);
  }

  /**
   * An open socket with an empty buffer on which end() was called has its write side shut down,
   * exactly when some end() came while it was open, or a drain was emitted since.
   */
  lemma HalfCloseIssued(start: Sock, inputs: seq<Input>)
    requires Start(start)
    ensures var s := Run(start, inputs);
      s.state.Open? && s.ended && s.offset >= |s.outbuf| ==>
        (s.past.shut <==> s.past.finWanted || Drains(s.past.log) > 0)
  {
    StartStable(start);
    RunKeeps(start, inputs);
  }

  /** An end() while connecting, and nothing else: the socket opens, ended and empty, and is not shut down. */
  lemma EndedWhileConnecting() returns (inputs: seq<Input>)
    ensures var s := Run(Fresh(Tables(map[], map[])), inputs);
      s.state.Open? && s.ended && s.outbuf == [] && !s.past.shut
  {
    var quiet := Script([], [], []);
    var start := Fresh(Tables(map[], map[]));
    inputs := [Input(Dial(Some(3)), quiet), Input(UserEnd, quiet),
               Input(Dispatch(Ready(false, true, false), false), quiet)];
    var s2 := Step(Step(start, inputs[0]), inputs[1]);
    assert s2.state.Connecting? && s2.ended && s2.outbuf == [] && !s2.past.shut;
    var s3 := Step(s2, inputs[2]);
    assert s3.state.Open? && s3.ended && s3.outbuf == [] && !s3.past.shut;
    hide Step;
    assert inputs[..2][..1] == inputs[..1] && inputs[..1][..0] == [];
    assert Run(start, inputs[..1]) == Step(start, inputs[0]);
    assert Run(start, inputs[..2]) == s2;
  }

  /**
   * drain always finds the buffer empty. The write side is never shut down over a backlog, exactly
   * when no drain listener returns leaving a backlog on an ended, live socket.
   */
  lemma ShutdownAfterFlush(start: Sock, inputs: seq<Input>)
    requires Start(start)
    ensures var log := Run(start, inputs).past.log;
      && (forall e :: e in log && e.OnDrain? ==> e.pending == 0)
      && ((forall e :: e in log && e.ShutdownWrite? ==> e.pending == 0) <==> (forall e :: e in log ==> !Premature(e)))
  {
    StartStable(start);
    RunKeeps(start, inputs);
    var log := Run(start, inputs).past.log;
    forall e | e in log ensures e.OnDrain? ==> e.pending == 0 {
      var i :| 0 <= i < |log| && log[i] == e;
      assert EntryOk(log, i);
    }
    if i :| 0 <= i < |log| && Premature(log[i]) {
      assert EntryOk(log, i);
      assert log[i + 1] in log;
    }
    if i :| 0 <= i < |log| && log[i].ShutdownWrite? && log[i].pending > 0 {
      assert EntryOk(log, i);
      assert log[i - 1] in log;
    }
  }

  /** Such a run exists: a drain listener writes more than the kernel takes, then calls end(). */
  lemma PrematureShutdown() returns (inputs: seq<Input>)
    ensures ShutdownWrite(1) in Run(Adopted(3, Tables(map[], map[])), inputs).past.log
  {
    var start := Adopted(3, Tables(map[], map[]));
    var first := Input(UserWrite([7]), Script([SendBlocks], [], []));
    var second := Input(Dispatch(Ready(false, true, false), false),
                        Script([Took(1), SendBlocks], [], [DoWrite([8]), DoEnd, Return]));
    hide Step;
    var s1 := Step(start, first);
    PrematureFirst(start, first);
    PrematureStep(s1, second);
    inputs := [first, second];
    assert inputs[..1] == [first] && [first][..0] == [];
    assert Run(start, [first]) == s1;
    assert Run(start, inputs) == Step(s1, second);
  }

  lemma PrematureFirst(start: Sock, input: Input)
    requires start == Adopted(3, Tables(map[], map[])) && input == Input(UserWrite([7]), Script([SendBlocks], [], []))
    ensures var s := Step(start, input); s.outbuf == [7] && s.offset == 0 && s.state.Open? && s.fd == Some(3)
  {
    var q := Queued(start.(script := input.script), [7]);
    assert Pump(q) == SendsLeft(q);
  }

  lemma PrematureStep(s: Sock, input: Input)
    requires s.outbuf == [7] && s.offset == 0 && s.state.Open? && s.fd == Some(3)
    requires input == Input(Dispatch(Ready(false, true, false), false),
                            Script([Took(1), SendBlocks], [], [DoWrite([8]), DoEnd, Return]))
    ensures ShutdownWrite(1) in Step(s, input).past.log
  {
    var t := s.(script := input.script);
    var a := Advance(SendsLeft(t), 1);
    var p := a.(outbuf := [], offset := 0);
    assert Pump(t) == Pump(a) == p;
    var m := Logged(SetInterest(p, READ), OnDrain(0));
    var e := PrematureListen(m);
    var r := AfterDrain(e);
    assert Step(s, input) == r;
    assert r.past.log[|r.past.log| - 1] == ShutdownWrite(1);
  }

  lemma PrematureListen(m: Sock) returns (e: Sock)
    requires m.state.Open? && m.fd == Some(3) && m.outbuf == [] && m.offset == 0
    requires m.script == Script([SendBlocks], [], [DoWrite([8]), DoEnd, Return])
    ensures Listen(m) == e && e.ended && Pending(e) == 1 && e.fd == Some(3)
  {
    var q := Queued(ActsLeft(m), [8]);
    assert q.outbuf == [8] && Pump(q) == SendsLeft(q);
    var w := Write(ActsLeft(m), [8]).0;
    assert w == SetInterest(SendsLeft(q), READ_WRITE);
    var ended := End(ActsLeft(w));
    e := ActsLeft(ended);
    assert Listen(ended) == e;
    assert Listen(w) == e;
    assert Listen(m) == e;
  }
}
