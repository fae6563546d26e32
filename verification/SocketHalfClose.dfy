/** Exactly when drain listeners make the socket shut its write side down over a backlog. */
module SocketHalfClose {
  import opened Wire
  import opened LoopTables
  import opened SocketModel
  import opened SocketFrame
  import opened SocketProofs

  // ----- What a listener calls --------------------------------------------------------------

  /** The calls of a listener before it returns. */
  function Called(acts: seq<Act>): (r: seq<Act>)
  {
    if acts == [] || acts[0].Return? then [] else [acts[0]] + Called(acts[1..])
  }

  /** One of the calls writes something. */
  predicate Writes(acts: seq<Act>) {
    acts != [] && ((acts[0].DoWrite? && acts[0].chunk != []) || Writes(acts[1..]))
  }

  /** The listener writes something, does not destroy the socket, and end() was called before or is by it. */
  predicate Risky(ended: bool, acts: seq<Act>) {
    var c := Called(acts);
    Writes(c) && DoDestroy !in c && (ended || DoEnd in c)
  }

  lemma CalledHead(acts: seq<Act>)
    requires acts != [] && !acts[0].Return?
    ensures var c, rest := Called(acts), Called(acts[1..]);
      && (Writes(c) <==> Writes(rest) || (acts[0].DoWrite? && acts[0].chunk != []))
      && (forall a :: a in c <==> a in rest || a == acts[0])
  {
    var c, rest := Called(acts), Called(acts[1..]);
    assert c == [acts[0]] + rest && c[1..] == rest;
  }

  // ----- Listeners on a socket that stays open ----------------------------------------------------

  /** What the listener calls decides what it leaves on a socket that is still open. */
  predicate Left(s: Sock, r: Sock) {
    var c := Called(s.script.acts);
    && DoDestroy !in c
    && r.ended == (s.ended || DoEnd in c)
    && (Pending(s) == 0 && !Writes(c) ==> Pending(r) == 0)
  }

  lemma LeftBack(s: Sock, next: Sock, r: Sock)
    requires s.script.acts != [] && Left(next, r) && next.script.acts == s.script.acts[1..]
    requires !s.script.acts[0].Return? && !s.script.acts[0].DoDestroy?
    requires next.ended == (s.ended || s.script.acts[0].DoEnd?)
    requires Pending(s) == 0 && (s.script.acts[0].DoWrite? ==> s.script.acts[0].chunk == []) ==> Pending(next) == 0
    ensures Left(s, r)
  {
    CalledHead(s.script.acts);
  }

  /** A write that leaves the socket open consumed no other call of the listener. */
  lemma WriteLeaves(s: Sock, chunk: seq<Byte>)
    requires Inv(s, false, true) && s.state.Open? && !Write(s, chunk).0.state.Closed?
    ensures var r := Write(s, chunk).0;
      && r.state.Open? && r.script.acts == s.script.acts && r.ended == s.ended
      && (Pending(s) == 0 && chunk == [] ==> Pending(r) == 0)
  {
    var queued := Queued(s, chunk);
    assert queued.outbuf[s.offset..] == s.outbuf[s.offset..] + chunk;
    ConcatAssociates(s.past.taken, s.outbuf[s.offset..], chunk);
    if s.offset >= |s.outbuf| {
      PumpKeeps(queued, true);
    }
  }

  lemma {:induction false} ListenLeaves(s: Sock)
    requires Inv(s, false, true) && s.state.Open? && !Listen(s).state.Closed?
    ensures Left(s, Listen(s))
    decreases |s.script.acts|
  {
    hide Inv, Left;
    if s.script.acts == [] {
      NothingCalled(s, s);
      return;
    }
    var rest := ActsLeft(s);
    ScriptKeeps(s, rest.script, false, true);
    match s.script.acts[0]
    case Return => NothingCalled(s, rest);
    case DoWrite(chunk) =>
      var w := Write(rest, chunk).0;
      if w.state.Closed? {
        ListenStaysClosed(w);
      }
      WriteLeaves(rest, chunk);
      WriteKeeps(rest, chunk, false, true);
      ListenLeaves(w);
      LeftBack(s, w, Listen(w));
    case DoEnd =>
      EndKeeps(rest, false, true);
      ListenLeaves(End(rest));
      LeftBack(s, End(rest), Listen(s));
    case DoDestroy =>
      CloseKeeps(rest, false, true);
      ListenStaysClosed(CloseWith(rest));
  }

  lemma NothingCalled(s: Sock, r: Sock)
    requires Called(s.script.acts) == [] && r.ended == s.ended && Pending(r) == Pending(s)
    ensures Left(s, r)
  {
  }

  // ----- A kernel that takes nothing -----------------------------------------------------------------

  predicate Blocked(s: Sock) {
    s.state.Open? && s.fd.Some? && s.script.sends == [] && Buffered(s)
  }

  lemma BlockedWrite(s: Sock, chunk: seq<Byte>)
    requires Blocked(s)
    ensures var r := Write(s, chunk).0;
      && Blocked(r) && r.script == s.script && r.ended == s.ended
      && (Pending(s) > 0 || chunk != [] ==> Pending(r) > 0)
  {
    var q := Queued(s, chunk);
    assert Pump(q) == if q.offset >= |q.outbuf| then q.(outbuf := [], offset := 0) else q;
  }

  lemma {:induction false} BlockedListen(s: Sock)
    requires Blocked(s) && DoDestroy !in Called(s.script.acts)
    ensures var r := Listen(s); var c := Called(s.script.acts);
      && Blocked(r) && r.ended == (s.ended || DoEnd in c)
      && (Pending(s) > 0 || Writes(c) ==> Pending(r) > 0)
    decreases |s.script.acts|
  {
    if s.script.acts != [] && !s.script.acts[0].Return? {
      CalledHead(s.script.acts);
      var rest := ActsLeft(s);
      match s.script.acts[0]
      case DoWrite(chunk) =>
        BlockedWrite(rest, chunk);
        BlockedListen(Write(rest, chunk).0);
      case DoEnd => BlockedListen(End(rest));
    }
  }

  // ----- One dispatch ----------------------------------------------------------------------------------

  /** What the drain listeners leave decides whether the write side is shut down over a backlog. */
  lemma AfterDrainShuts(d: Sock)
    ensures EarlyShutdowns(AfterDrain(d).past.log)
         == EarlyShutdowns(d.past.log) + if d.ended && d.fd.Some? && Pending(d) > 0 then 1 else 0
  {
    var mark := DrainReturned(Pending(d), d.ended, d.fd.Some?);
    LogSnoc(d.past.log, mark);
    LogSnoc(d.past.log + [mark], ShutdownWrite(Pending(d)));
  }

  lemma ClosedHoldsNothing(d: Sock)
    requires Inv(d, false, true) && d.state.Closed?
    ensures d.fd.None?
  {
  }

  lemma CarefulListen(m: Sock)
    requires Inv(m, false, true) && m.state.Open? && Pending(m) == 0
    requires !Risky(m.ended, m.script.acts)
    ensures var d := Listen(m); !(d.ended && d.fd.Some? && Pending(d) > 0)
  {
    hide Inv;
    ListenKeeps(m, false, true);
    var d := Listen(m);
    if d.state.Closed? {
      ClosedHoldsNothing(d);
    } else {
      ListenLeaves(m);
    }
  }

  /** Listeners that are not risky never cause a shutdown over a backlog, whatever the kernel answers. */
  lemma OnlyRiskyShuts(s: Sock)
    requires Stable(s) && s.state.Open? && !Risky(s.ended, s.script.acts)
    ensures EarlyShutdowns(Writable(s).past.log) == EarlyShutdowns(s.past.log)
  {
    PumpKeeps(s, true);
    PumpSame(s);
    hide Inv, Risky, EarlyShutdowns, Delivered, Listen;
    var p := Pump(s);
    if Pending(p) == 0 {
      EmitSame(SetInterest(p, READ), OnDrain(Pending(p)));
      AfterDrainShuts(Listen(Flushed(p)));
      FlushedKeeps(p);
      if p.state.Open? {
        CarefulListen(Flushed(p));
      } else {
        ClosedListen(Flushed(p));
      }
    }
  }

  lemma ClosedListen(m: Sock)
    requires Inv(m, false, true) && m.state.Closed?
    ensures Listen(m).fd.None?
  {
    ListenKeeps(m, false, true);
    ListenStaysClosed(m);
    ClosedHoldsNothing(Listen(m));
  }

  /** A kernel that takes the whole backlog and then nothing more. */
  function FlushOnly(s: Sock): seq<SendAnswer>
  {
    if Pending(s) > 0 then [Took(Pending(s))] else []
  }

  lemma FlushOnlyEmpties(s: Sock)
    requires Stable(s) && s.state.Open? && s.script.sends == FlushOnly(s)
    ensures var p := Pump(s);
      Blocked(p) && Pending(p) == 0 && p.script.acts == s.script.acts && p.ended == s.ended
  {
    if Pending(s) > 0 {
      var a := Advance(SendsLeft(s), Pending(s));
      assert Pump(s) == Pump(a) == a.(outbuf := [], offset := 0);
    }
  }

  lemma RiskyShuts(s: Sock)
    requires Stable(s) && s.state.Open? && s.script.sends == FlushOnly(s) && Risky(s.ended, s.script.acts)
    ensures EarlyShutdowns(Writable(s).past.log) == EarlyShutdowns(s.past.log) + 1
  {
    FlushOnlyEmpties(s);
    PumpSame(s);
    var p := Pump(s);
    EmitSame(SetInterest(p, READ), OnDrain(Pending(p)));
    BlockedListen(Flushed(p));
    AfterDrainShuts(Listen(Flushed(p)));
  }

  lemma {:induction false} DrainInputShutsNothing(s: Sock)
    ensures EarlyShutdowns(DrainInput(s).past.log) == EarlyShutdowns(s.past.log)
    decreases Fuel(s)
  {
    hide EarlyShutdowns, Delivered;
    if s.fd.None? {
      FailSame(s);
    } else if s.script.recvs != [] {
      var rest := RecvsLeft(s);
      match s.script.recvs[0]
      case Got(bytes) =>
        if bytes == [] {
          EmitSame(rest, OnEnd);
          CloseSame(Emit(rest, OnEnd));
        } else {
          LogSnoc(rest.past.log, OnData(bytes));
          ListenSame(Logged(rest, OnData(bytes)));
          DrainInputShutsNothing(Emit(rest, OnData(bytes)));
        }
      case RecvBlocks =>
      case RecvInterrupted => DrainInputShutsNothing(rest);
      case RecvFails => FailSame(rest);
    }
  }

  /** The dispatch shuts the write side down over a backlog. */
  predicate ShutsEarly(s: Sock, input: Input) {
    EarlyShutdowns(Step(s, input).past.log) > EarlyShutdowns(s.past.log)
  }

  lemma DispatchIsWritable(s: Sock, ready: Ready, failed: bool, script: Script)
    requires s.state.Open? && ready.writable
    ensures EarlyShutdowns(Step(s, Input(Dispatch(ready, failed), script)).past.log)
         == EarlyShutdowns(Writable(s.(script := script)).past.log)
  {
    DrainInputShutsNothing(Writable(s.(script := script)));
  }

  /**
   * At every open point of every run: a writable socket whose listeners are about to do `acts` is
   * shut down over a backlog for some answers of the kernel, exactly when these are risky.
   */
  lemma EarlyShutdownExact(start: Sock, inputs: seq<Input>, ready: Ready, recvs: seq<RecvAnswer>, acts: seq<Act>)
    requires Start(start) && Run(start, inputs).state.Open? && ready.writable
    ensures var s := Run(start, inputs);
      (exists sends :: ShutsEarly(s, Input(Dispatch(ready, false), Script(sends, recvs, acts))))
      <==> Risky(s.ended, acts)
  {
    var s := Run(start, inputs);
    StartStable(start);
    RunKeeps(start, inputs);
    hide Step, Inv, EarlyShutdowns, Risky;
    if Risky(s.ended, acts) {
      var script := Script(FlushOnly(s), recvs, acts);
      ScriptKeeps(s, script, false, false);
      RiskyShuts(s.(script := script));
      DispatchIsWritable(s, ready, false, script);
      assert ShutsEarly(s, Input(Dispatch(ready, false), script));
    } else {
      forall sends ensures !ShutsEarly(s, Input(Dispatch(ready, false), Script(sends, recvs, acts))) {
        var script := Script(sends, recvs, acts);
        ScriptKeeps(s, script, false, false);
        OnlyRiskyShuts(s.(script := script));
        DispatchIsWritable(s, ready, false, script);
      }
    }
  }

  // ----- Every run ----------------------------------------------------------------------------------------

  /** Listeners that run when the socket is writable are not risky, even if end() was called before. */
  predicate Careful(input: Input) {
    input.call.Dispatch? && input.call.ready.writable ==> !Risky(true, input.script.acts)
  }

  lemma StepShutsNothing(s: Sock, input: Input)
    requires Stable(s) && Careful(input)
    ensures EarlyShutdowns(Step(s, input).past.log) == EarlyShutdowns(s.past.log)
  {
    var t := s.(script := input.script);
    ScriptKeeps(s, input.script, false, false);
    hide Inv, EarlyShutdowns, Delivered;
    match input.call
    case Dial(dialed) => FailSame(t);
    case Dispatch(ready, failed) =>
      if t.state.Connecting? {
        FailSame(t);
        EmitSame(SetInterest(t.(state := Open), READ), OnConnect);
      } else if t.state.Open? {
        if ready.writable {
          OnlyRiskyShuts(t);
        }
        DrainInputShutsNothing(if ready.writable then Writable(t) else t);
      }
    case UserWrite(chunk) => WriteSame(t, chunk);
    case UserEnd => EndSame(t);
    case UserDestroy => CloseSame(t);
  }

  lemma {:induction false} NoneEarly(log: seq<Event>)
    requires EarlyShutdowns(log) == 0
    ensures forall e :: e in log && e.ShutdownWrite? ==> e.pending == 0
  {
    if log != [] {
      NoneEarly(log[..|log| - 1]);
      assert log == log[..|log| - 1] + [log[|log| - 1]];
    }
  }

  lemma {:induction false} CarefulRun(start: Sock, inputs: seq<Input>)
    requires Start(start) && forall i :: 0 <= i < |inputs| ==> Careful(inputs[i])
    ensures EarlyShutdowns(Run(start, inputs).past.log) == 0
    decreases |inputs|
  {
    if inputs != [] {
      var before := inputs[..|inputs| - 1];
      CarefulRun(start, before);
      StartStable(start);
      RunKeeps(start, before);
      StepShutsNothing(Run(start, before), inputs[|inputs| - 1]);
    }
  }

  /** Over every run with careful listeners the write side is shut down with nothing left to send. */
  lemma CarefulListenersFlush(start: Sock, inputs: seq<Input>)
    requires Start(start) && forall i :: 0 <= i < |inputs| ==> Careful(inputs[i])
    ensures forall e :: e in Run(start, inputs).past.log && e.ShutdownWrite? ==> e.pending == 0
  {
    CarefulRun(start, inputs);
    NoneEarly(Run(start, inputs).past.log);
  }

  predicate Quiet(acts: seq<Act>) {
    forall i :: 0 <= i < |acts| ==> !acts[i].DoWrite?
  }

  lemma {:induction false} QuietWritesNothing(acts: seq<Act>)
    requires Quiet(acts)
    ensures !Writes(Called(acts))
  {
    if acts != [] && !acts[0].Return? {
      QuietWritesNothing(acts[1..]);
      CalledHead(acts);
    }
  }

  /** Listeners that never write are careful. */
  lemma QuietIsCareful(input: Input)
    requires Quiet(input.script.acts)
    ensures Careful(input)
  {
    QuietWritesNothing(input.script.acts);
  }
}
