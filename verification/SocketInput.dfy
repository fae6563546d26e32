/** What a socket receives reaches its data listeners whole, in order and once. */
module SocketInput {
  import opened Wire
  import opened LoopTables
  import opened SocketModel
  import opened SocketFrame

  /** The octets that the kernel has still to hand over. */
  function Incoming(recvs: seq<RecvAnswer>): (r: seq<Byte>)
  {
    if recvs == [] then []
    else (if recvs[0].Got? then recvs[0].bytes else []) + Incoming(recvs[1..])
  }

  /** Delivered so far, followed by what is still to come. */
  function Inflow(s: Sock): (r: seq<Byte>)
  {
    Delivered(s.past.log) + Incoming(s.script.recvs)
  }

  /** One chunk moves from the kernel to the listeners. */
  lemma ChunkDelivered(s: Sock, bytes: seq<Byte>)
    requires s.script.recvs != [] && s.script.recvs[0] == Got(bytes)
    ensures Inflow(Emit(RecvsLeft(s), OnData(bytes))) == Inflow(s)
  {
    var rest := RecvsLeft(s);
    LogSnoc(s.past.log, OnData(bytes));
    ListenSame(Logged(rest, OnData(bytes)));
    ConcatAssociates(Delivered(s.past.log), bytes, Incoming(rest.script.recvs));
  }

  lemma NothingReceived(s: Sock)
    requires s.script.recvs != [] && (s.script.recvs[0].Got? ==> s.script.recvs[0].bytes == [])
    ensures Inflow(RecvsLeft(s)) == Inflow(s)
  {
    var rest := Incoming(s.script.recvs[1..]);
    assert [] + rest == rest;
  }

  lemma SameInputKeeps(s: Sock, r: Sock)
    requires SameInput(s, r)
    ensures Inflow(r) == Inflow(s)
  {
  }

  /** The answers that are left are the last of those that were given. */
  predicate Suffix(given: seq<RecvAnswer>, left: seq<RecvAnswer>) {
    |left| <= |given| && left == given[|given| - |left|..]
  }

  lemma SuffixOfItself(given: seq<RecvAnswer>)
    ensures Suffix(given, given)
  {
  }

  lemma SuffixTail(given: seq<RecvAnswer>, left: seq<RecvAnswer>)
    requires given != [] && Suffix(given[1..], left)
    ensures Suffix(given, left)
  {
  }

  lemma {:induction false} DrainInputTakesInOrder(s: Sock)
    ensures Suffix(s.script.recvs, DrainInput(s).script.recvs)
    decreases Fuel(s)
  {
    hide Suffix;
    var given := s.script.recvs;
    if s.fd.None? {
      FailSame(s);
      SuffixOfItself(given);
    } else if given == [] {
      SuffixOfItself(given);
    } else {
      var rest := RecvsLeft(s);
      SuffixOfItself(given[1..]);
      match given[0] {
        case Got(bytes) =>
          if bytes == [] {
            EmitSame(rest, OnEnd);
            CloseSame(Emit(rest, OnEnd));
          } else {
            ListenSame(Logged(rest, OnData(bytes)));
            DrainInputTakesInOrder(Emit(rest, OnData(bytes)));
          }
        case RecvBlocks =>
        case RecvInterrupted => DrainInputTakesInOrder(rest);
        case RecvFails => FailSame(rest);
      }
      SuffixTail(given, DrainInput(s).script.recvs);
    }
  }

  lemma {:induction false} DrainInputWhole(s: Sock)
    ensures Inflow(DrainInput(s)) == Inflow(s)
    decreases Fuel(s)
  {
    hide Inflow;
    if s.fd.None? {
      FailSame(s);
      SameInputKeeps(s, Fail(s));
    } else if s.script.recvs != [] {
      var rest := RecvsLeft(s);
      if s.script.recvs[0].Got? && s.script.recvs[0].bytes != [] {
        ChunkDelivered(s, s.script.recvs[0].bytes);
        DrainInputWhole(Emit(rest, OnData(s.script.recvs[0].bytes)));
      } else {
        NothingReceived(s);
        match s.script.recvs[0]
        case Got(_) =>
          EmitSame(rest, OnEnd);
          CloseSame(Emit(rest, OnEnd));
          SameInputKeeps(rest, DrainInput(s));
        case RecvBlocks =>
        case RecvInterrupted => DrainInputWhole(rest);
        case RecvFails =>
          FailSame(rest);
          SameInputKeeps(rest, Fail(rest));
      }
    }
  }

  lemma ConnectedSame(s: Sock)
    ensures SameInput(s, Connected(s)) && SameBase(s, Connected(s))
  {
    EmitSame(SetInterest(s.(state := Open), READ), OnConnect);
  }

  lemma WritableSame(s: Sock)
    ensures SameInput(s, Writable(s)) && SameBase(s, Writable(s))
  {
    PumpSame(s);
    var p := Pump(s);
    if Pending(p) == 0 {
      var m := SetInterest(p, READ);
      EmitSame(m, OnDrain(Pending(p)));
      var d := Emit(m, OnDrain(Pending(p)));
      var e := DrainReturned(Pending(d), d.ended, d.fd.Some?);
      LoggedSame(d, e);
      ShutdownSame(Logged(d, e));
    }
  }

  predicate Flows(s: Sock, r: Sock) {
    Suffix(s.script.recvs, r.script.recvs) && Inflow(r) == Inflow(s)
  }

  lemma SameFlows(s: Sock, r: Sock)
    requires SameInput(s, r)
    ensures Flows(s, r)
  {
  }

  lemma OnIoFlows(s: Sock, ready: Ready, connectFailed: bool)
    ensures Flows(s, OnIo(s, ready, connectFailed))
  {
    hide Delivered, Incoming, Suffix;
    match s.state
    case Connecting =>
      FailSame(s);
      ConnectedSame(s);
      SameFlows(s, OnIo(s, ready, connectFailed));
    case Open =>
      var w := if ready.writable then Writable(s) else s;
      WritableSame(s);
      SameFlows(s, w);
      DrainInputWhole(w);
      DrainInputTakesInOrder(w);
    case _ =>
      SameFlows(s, s);
  }

  /** A dial on a socket that was dialed before, which does nothing. */
  predicate Ignored(s: Sock, input: Input) {
    input.call.Dial? && s.past.handle.Some?
  }

  lemma StepFlows(s: Sock, input: Input)
    requires !Ignored(s, input)
    ensures Flows(s.(script := input.script), Step(s, input))
  {
    hide Flows;
    var t := s.(script := input.script);
    match input.call
    case Dial(dialed) =>
      FailSame(t);
      SameFlows(t, StartConnect(t, dialed));
    case Dispatch(ready, connectFailed) =>
      OnIoFlows(t, ready, connectFailed);
    case UserWrite(chunk) =>
      WriteSame(t, chunk);
      SameFlows(t, Write(t, chunk).0);
    case UserEnd =>
      EndSame(t);
      SameFlows(t, End(t));
    case UserDestroy =>
      CloseSame(t);
      SameFlows(t, CloseWith(t));
  }

  // ----- Runs ------------------------------------------------------------------------

  /** The octets that recv handed over during one call. */
  function Received(s: Sock, input: Input): (r: seq<Byte>)
  {
    var given, left := input.script.recvs, Step(s, input).script.recvs;
    if Ignored(s, input) || |left| > |given| then [] else Incoming(given[..|given| - |left|])
  }

  /** The octets that recv handed over during a run. */
  function ReceivedInAll(s: Sock, inputs: seq<Input>): (r: seq<Byte>)
    decreases |inputs|
  {
    if inputs == [] then []
    else
      var before := inputs[..|inputs| - 1];
      ReceivedInAll(s, before) + Received(Run(s, before), inputs[|inputs| - 1])
  }

  lemma {:induction false} IncomingSplit(recvs: seq<RecvAnswer>, k: nat)
    requires k <= |recvs|
    ensures Incoming(recvs) == Incoming(recvs[..k]) + Incoming(recvs[k..])
  {
    if k == 0 {
      assert recvs[0..] == recvs;
    } else {
      IncomingSplit(recvs[1..], k - 1);
      assert recvs[1..][..k - 1] == recvs[..k][1..];
      assert recvs[1..][k - 1..] == recvs[k..];
      var head := if recvs[0].Got? then recvs[0].bytes else [];
      ConcatAssociates(head, Incoming(recvs[..k][1..]), Incoming(recvs[k..]));
    }
  }

  lemma Cancel(x: seq<Byte>, y: seq<Byte>, z: seq<Byte>)
    requires x + z == y + z
    ensures x == y
  {
    assert |x| == |y|;
    assert x == (x + z)[..|x|];
    assert y == (y + z)[..|y|];
  }

  lemma StepDelivers(s: Sock, input: Input)
    ensures Delivered(Step(s, input).past.log) == Delivered(s.past.log) + Received(s, input)
  {
    hide Step;
    if Ignored(s, input) {
      assert Step(s, input) == s by { IgnoredStutters(s, input); }
      assert Delivered(s.past.log) + [] == Delivered(s.past.log);
    } else {
      StepFlows(s, input);
      var r := Step(s, input);
      var given, left := input.script.recvs, r.script.recvs;
      IncomingSplit(given, |given| - |left|);
      ConcatAssociates(Delivered(s.past.log), Received(s, input), Incoming(left));
      Cancel(Delivered(r.past.log), Delivered(s.past.log) + Received(s, input), Incoming(left));
    }
  }

  lemma IgnoredStutters(s: Sock, input: Input)
    requires Ignored(s, input)
    ensures Step(s, input) == s
  {
  }

  /**
   * Over every run, whatever the listeners call, the data events carry exactly the octets that
   * recv handed over: none lost, repeated or reordered, not even when a listener closes the socket.
   */
  lemma {:induction false} ReceivedInOrder(s: Sock, inputs: seq<Input>)
    ensures Delivered(Run(s, inputs).past.log) == Delivered(s.past.log) + ReceivedInAll(s, inputs)
    decreases |inputs|
  {
    hide Step, Delivered, Received;
    if inputs == [] {
      assert Delivered(s.past.log) + [] == Delivered(s.past.log);
    } else {
      var before := inputs[..|inputs| - 1];
      ReceivedInOrder(s, before);
      StepDelivers(Run(s, before), inputs[|inputs| - 1]);
      ConcatAssociates(Delivered(s.past.log), ReceivedInAll(s, before), Received(Run(s, before), inputs[|inputs| - 1]));
    }
  }
}
