/** What the calls of a socket leave alone, however their listeners call back. */
module SocketFrame {
  import opened Wire
  import opened SocketModel

  /** The octets of the data events, in order. */
  function Delivered(log: seq<Event>): (r: seq<Byte>)
  {
    if log == [] then []
    else
      var last := log[|log| - 1];
      Delivered(log[..|log| - 1]) + if last.OnData? then last.bytes else []
  }

  /** The descriptor ever held and the tables before there was one. */
  predicate SameBase(s: Sock, r: Sock) {
    r.past.handle == s.past.handle && r.past.tables0 == s.past.tables0
  }

  /** Nothing was received and nothing delivered between the two states. */
  predicate SameInput(s: Sock, r: Sock) {
    r.script.recvs == s.script.recvs && Delivered(r.past.log) == Delivered(s.past.log)
  }

  /** How often the write side was shut down over a backlog. */
  function EarlyShutdowns(log: seq<Event>): nat
  {
    if log == [] then 0
    else
      var last := log[|log| - 1];
      EarlyShutdowns(log[..|log| - 1]) + if last.ShutdownWrite? && last.pending > 0 then 1 else 0
  }

  /** Nor was the write side shut down over a backlog, and the state changed to closed if at all. */
  predicate Passive(s: Sock, r: Sock) {
    && SameInput(s, r) && EarlyShutdowns(r.past.log) == EarlyShutdowns(s.past.log)
    && SameBase(s, r) && (r.state == s.state || r.state.Closed?)
  }

  lemma LogSnoc(log: seq<Event>, e: Event)
    ensures Delivered(log + [e]) == Delivered(log) + if e.OnData? then e.bytes else []
    ensures EarlyShutdowns(log + [e]) == EarlyShutdowns(log) + if e.ShutdownWrite? && e.pending > 0 then 1 else 0
  {
    assert (log + [e])[..|log|] == log;
  }

  lemma LoggedSame(s: Sock, e: Event)
    requires !e.OnData?
    ensures SameInput(s, Logged(s, e)) && SameBase(s, Logged(s, e))
    ensures !(e.ShutdownWrite? && e.pending > 0) ==> Passive(s, Logged(s, e))
  {
    LogSnoc(s.past.log, e);
    assert Delivered(s.past.log) + [] == Delivered(s.past.log);
  }

  lemma ShutdownSame(s: Sock)
    ensures SameInput(s, Shutdown(s)) && SameBase(s, Shutdown(s))
    ensures Pending(s) == 0 ==> Passive(s, Shutdown(s))
  {
    LoggedSame(s, ShutdownWrite(Pending(s)));
  }

  lemma {:induction false} ListenSame(s: Sock)
    ensures Passive(s, Listen(s))
    decreases Fuel(s), 0
  {
    hide Delivered, EarlyShutdowns;
    if s.script.acts != [] {
      var rest := ActsLeft(s);
      match s.script.acts[0]
      case Return =>
      case DoWrite(chunk) =>
        WriteSame(rest, chunk);
        ListenSame(Write(rest, chunk).0);
      case DoEnd =>
        EndSame(rest);
        ListenSame(End(rest));
      case DoDestroy =>
        CloseSame(rest);
        ListenSame(CloseWith(rest));
    }
  }

  lemma EndSame(s: Sock)
    ensures Passive(s, End(s))
  {
    ShutdownSame(s.(ended := true, past := s.past.(finWanted := s.past.finWanted || s.state.Open?)));
  }

  lemma {:induction false} EmitSame(s: Sock, e: Event)
    requires !e.OnData? && !e.ShutdownWrite?
    ensures Passive(s, Emit(s, e))
    decreases Fuel(s), 1
  {
    LoggedSame(s, e);
    ListenSame(Logged(s, e));
  }

  lemma {:induction false} CloseSame(s: Sock)
    ensures Passive(s, CloseWith(s))
    decreases Fuel(s), 2
  {
    if !s.state.Closed? && s.fd.Some? {
      EmitSame(Released(s), OnClose);
    }
  }

  lemma {:induction false} FailSame(s: Sock)
    ensures Passive(s, Fail(s))
    decreases Fuel(s), 3
  {
    EmitSame(s, OnError);
    CloseSame(Emit(s, OnError));
  }

  lemma {:induction false} PumpSame(s: Sock)
    ensures Passive(s, Pump(s))
    decreases Fuel(s), 4
  {
    hide Delivered, EarlyShutdowns;
    if s.offset < |s.outbuf| && s.script.sends != [] {
      var rest := SendsLeft(s);
      match s.script.sends[0]
      case Took(count) =>
        if count == 0 {
          FailSame(rest);
        } else {
          PumpSame(Advance(rest, if count <= Pending(s) then count else Pending(s)));
        }
      case SendBlocks =>
      case SendInterrupted => PumpSame(rest);
      case SendFails => FailSame(rest);
    }
  }

  lemma {:induction false} WriteSame(s: Sock, chunk: seq<Byte>)
    ensures Passive(s, Write(s, chunk).0)
    decreases Fuel(s), 5
  {
    hide Delivered, EarlyShutdowns;
    if !s.state.Open? {
      FailSame(s);
    } else {
      PumpSame(Queued(s, chunk));
    }
  }
}
