/**
 * What a socket does, event by event, when its listeners do nothing: every call is pinned by what the
 * kernel answers, without reference to the functions of the model.
 */
module SocketTraces {
  import opened Wire
  import opened LoopTables
  import opened SocketModel
  import opened SocketProofs

  // ----- Receiving -------------------------------------------------------------------

  /** An answer after which the socket does not receive again. */
  predicate Stops(a: RecvAnswer) {
    a.RecvBlocks? || a.RecvFails? || a == Got([])
  }

  /** The index of the first such answer. */
  function StopAt(recvs: seq<RecvAnswer>): (k: nat)
    ensures k <= |recvs| && (k < |recvs| ==> Stops(recvs[k]))
    ensures forall i :: 0 <= i < k ==> !Stops(recvs[i])
  {
    if recvs == [] || Stops(recvs[0]) then 0 else 1 + StopAt(recvs[1..])
  }

  /** A data event for every chunk. */
  function DataEvents(recvs: seq<RecvAnswer>): (r: seq<Event>)
  {
    if recvs == [] then []
    else (if recvs[0].Got? then [OnData(recvs[0].bytes)] else []) + DataEvents(recvs[1..])
  }

  function StopEvents(recvs: seq<RecvAnswer>, k: nat): (r: seq<Event>)
  {
    if k >= |recvs| || recvs[k].RecvBlocks? then []
    else if recvs[k].RecvFails? then [OnError, OnClose]
    else [OnEnd, OnClose]
  }

  /** The chunks up to the first stop, then the end or the error. */
  function ReadEvents(recvs: seq<RecvAnswer>): (r: seq<Event>)
  {
    DataEvents(recvs[..StopAt(recvs)]) + StopEvents(recvs, StopAt(recvs))
  }

  function Unread(recvs: seq<RecvAnswer>): (r: seq<RecvAnswer>)
  {
    if StopAt(recvs) < |recvs| then recvs[StopAt(recvs) + 1..] else []
  }

  predicate ReadCloses(recvs: seq<RecvAnswer>) {
    var k := StopAt(recvs);
    k < |recvs| && !recvs[k].RecvBlocks?
  }

  // ----- Sending ---------------------------------------------------------------------

  predicate SendStops(a: SendAnswer) {
    a.SendBlocks? || a.SendFails? || a == Took(0)
  }

  function SendStopAt(sends: seq<SendAnswer>): (k: nat)
    ensures k <= |sends| && (k < |sends| ==> SendStops(sends[k]))
    ensures forall i :: 0 <= i < k ==> !SendStops(sends[i])
  {
    if sends == [] || SendStops(sends[0]) then 0 else 1 + SendStopAt(sends[1..])
  }

  /** What the kernel would take in all. */
  function Total(sends: seq<SendAnswer>): (n: nat)
  {
    if sends == [] then 0 else (if sends[0].Took? then sends[0].count else 0) + Total(sends[1..])
  }

  /** Octets that the kernel takes of a backlog of `n`. */
  function Sent(n: nat, sends: seq<SendAnswer>): (r: nat)
    ensures r <= n
  {
    var total := Total(sends[..SendStopAt(sends)]);
    if total < n then total else n
  }

  /** The send loop meets an error before the backlog is gone. */
  predicate SendBreaks(n: nat, sends: seq<SendAnswer>) {
    var k := SendStopAt(sends);
    Sent(n, sends) < n && k < |sends| && !sends[k].SendBlocks?
  }

  // ----- Listeners that do nothing ---------------------------------------------------

  lemma PlainListen(s: Sock)
    requires s.script.acts == []
    ensures Listen(s) == s
  {
  }

  function Closing(s: Sock): seq<Event>
  {
    if s.state.Closed? || s.fd.None? then [] else [OnClose]
  }

  lemma PlainClose(s: Sock)
    requires s.script.acts == []
    ensures var r := CloseWith(s);
      && r.past.log == s.past.log + Closing(s) && r.state.Closed? && r.script == s.script
      && (s.fd.Some? && !s.state.Closed? ==> r.fd.None?) && (s.fd.None? ==> r.fd.None? && r.tables == s.tables)
      && r.past.taken == s.past.taken && r.past.accepted == s.past.accepted
      && r.outbuf == s.outbuf && r.offset == s.offset && r.ended == s.ended
  {
    if !s.state.Closed? && s.fd.Some? {
      PlainListen(Logged(Released(s), OnClose));
    } else {
      assert s.past.log + [] == s.past.log;
    }
  }

  lemma PlainFail(s: Sock)
    requires s.script.acts == []
    ensures var r := Fail(s);
      && r.past.log == s.past.log + [OnError] + Closing(s) && r.state.Closed? && r.script == s.script
      && (s.fd.Some? && !s.state.Closed? ==> r.fd.None?) && (s.fd.None? ==> r.fd.None? && r.tables == s.tables)
      && r.past.taken == s.past.taken && r.past.accepted == s.past.accepted
      && r.outbuf == s.outbuf && r.offset == s.offset && r.ended == s.ended
  {
    PlainListen(Logged(s, OnError));
    PlainClose(Logged(s, OnError));
  }

  // ----- The receive loop ------------------------------------------------------------

  lemma StopStep(recvs: seq<RecvAnswer>)
    requires recvs != [] && !Stops(recvs[0])
    ensures var rest := recvs[1..];
      && ReadEvents(recvs) == (if recvs[0].Got? then [OnData(recvs[0].bytes)] else []) + ReadEvents(rest)
      && Unread(recvs) == Unread(rest) && (ReadCloses(recvs) <==> ReadCloses(rest))
  {
    var rest, k := recvs[1..], StopAt(recvs[1..]);
    assert StopAt(recvs) == k + 1;
    assert recvs[..k + 1][1..] == rest[..k];
    assert DataEvents(recvs[..k + 1])
        == (if recvs[0].Got? then [OnData(recvs[0].bytes)] else []) + DataEvents(rest[..k]);
    if k < |rest| {
      assert rest[k] == recvs[k + 1];
      assert rest[k + 1..] == recvs[k + 2..];
    }
  }

  lemma StopHere(recvs: seq<RecvAnswer>)
    requires recvs == [] || Stops(recvs[0])
    ensures StopAt(recvs) == 0 && ReadEvents(recvs) == StopEvents(recvs, 0)
  {
    assert recvs[..0] == [];
  }

  /** An open socket that changes nothing but its log and its script, unless it closes. */
  predicate ReadsOn(s: Sock, r: Sock) {
    && r.past.taken == s.past.taken && r.past.accepted == s.past.accepted && r.script.sends == s.script.sends
    && (!r.state.Closed? ==> r == s.(script := r.script, past := s.past.(log := r.past.log)))
  }

  lemma {:induction false} PlainDrainInput(s: Sock)
    requires s.script.acts == [] && s.state.Open? && s.fd.Some?
    ensures var r := DrainInput(s); var recvs := s.script.recvs;
      && r.past.log == s.past.log + ReadEvents(recvs) && r.script.recvs == Unread(recvs)
      && (r.state.Closed? <==> ReadCloses(recvs)) && ReadsOn(s, r) && r.script.acts == []
    decreases |s.script.recvs|
  {
    hide ReadEvents, Unread, ReadCloses;
    var recvs := s.script.recvs;
    if recvs == [] {
      NothingToRead(recvs);
      assert s.past.log + [] == s.past.log;
      return;
    }
    var rest := RecvsLeft(s);
    if Stops(recvs[0]) {
      PlainStop(s);
    } else {
      StopStep(recvs);
      if recvs[0].Got? {
        var e := OnData(recvs[0].bytes);
        PlainListen(Logged(rest, e));
        PlainDrainInput(Logged(rest, e));
        assert (s.past.log + [e]) + ReadEvents(recvs[1..]) == s.past.log + ([e] + ReadEvents(recvs[1..]));
      } else {
        PlainDrainInput(rest);
        assert [] + ReadEvents(recvs[1..]) == ReadEvents(recvs[1..]);
      }
    }
  }

  lemma NothingToRead(recvs: seq<RecvAnswer>)
    requires recvs == []
    ensures ReadEvents(recvs) == [] && Unread(recvs) == [] && !ReadCloses(recvs)
  {
    StopHere(recvs);
  }

  /** The answer that ends the loop. */
  lemma PlainStop(s: Sock)
    requires s.script.acts == [] && s.state.Open? && s.fd.Some? && s.script.recvs != [] && Stops(s.script.recvs[0])
    ensures var r := DrainInput(s); var recvs := s.script.recvs;
      && r.past.log == s.past.log + ReadEvents(recvs) && r.script.recvs == Unread(recvs)
      && (r.state.Closed? <==> ReadCloses(recvs)) && ReadsOn(s, r) && r.script.acts == []
  {
    var recvs, rest := s.script.recvs, RecvsLeft(s);
    StopHere(recvs);
    match recvs[0]
    case Got(_) =>
      PlainListen(Logged(rest, OnEnd));
      PlainClose(Logged(rest, OnEnd));
      assert (s.past.log + [OnEnd]) + [OnClose] == s.past.log + [OnEnd, OnClose];
    case RecvBlocks =>
      assert s.past.log + [] == s.past.log;
    case RecvFails =>
      PlainFail(rest);
      assert s.past.log + [OnError] + [OnClose] == s.past.log + [OnError, OnClose];
    case RecvInterrupted =>
  }

  // ----- The send loop ---------------------------------------------------------------

  lemma SendStep(n: nat, sends: seq<SendAnswer>)
    requires sends != [] && !SendStops(sends[0])
    ensures var c := if sends[0].Took? then sends[0].count else 0;
      && (c >= n ==> Sent(n, sends) == n && !SendBreaks(n, sends))
      && (c < n ==> Sent(n, sends) == c + Sent(n - c, sends[1..])
                    && (SendBreaks(n, sends) <==> SendBreaks(n - c, sends[1..])))
  {
    var k := SendStopAt(sends[1..]);
    assert SendStopAt(sends) == k + 1;
    assert sends[..k + 1][1..] == sends[1..][..k];
    if k < |sends[1..]| {
      assert sends[1..][k] == sends[k + 1];
    }
  }

  lemma SendStopHere(n: nat, sends: seq<SendAnswer>)
    requires sends == [] || SendStops(sends[0])
    ensures Sent(n, sends) == 0
    ensures SendBreaks(n, sends) <==> n > 0 && sends != [] && !sends[0].SendBlocks?
  {
    assert sends[..0] == [];
  }

  /** What the send loop leaves of a backlog. */
  predicate Pumped(s: Sock, r: Sock) {
    var n, sent := Pending(s), Sent(Pending(s), s.script.sends);
    && sent <= n <= |s.outbuf| - s.offset
    && r.past.taken == s.past.taken + s.outbuf[s.offset..s.offset + sent] && r.past.accepted == s.past.accepted
    && r.script.recvs == s.script.recvs && r.script.acts == []
    && r.past.log == s.past.log + (if SendBreaks(n, s.script.sends) then [OnError, OnClose] else [])
    && (r.state.Closed? <==> SendBreaks(n, s.script.sends))
    && (r.state.Closed? ==> r.fd.None?)
    && r.ended == s.ended && Pending(r) == n - sent
    && (!r.state.Closed? ==> r.state.Open? && r.fd == s.fd)
  }

  lemma NothingToSend(sends: seq<SendAnswer>)
    ensures Sent(0, sends) == 0 && !SendBreaks(0, sends)
  {
  }

  lemma PumpStops(s: Sock)
    requires s.script.acts == [] && s.state.Open? && s.fd.Some? && s.offset < |s.outbuf|
    requires s.script.sends == [] || SendStops(s.script.sends[0])
    ensures Pumped(s, Pump(s))
  {
    hide Sent, SendBreaks;
    SendStopHere(Pending(s), s.script.sends);
    assert s.past.taken + s.outbuf[s.offset..s.offset] == s.past.taken;
    assert s.past.log + [] == s.past.log;
    if s.script.sends != [] && !s.script.sends[0].SendBlocks? {
      PlainFail(SendsLeft(s));
      assert s.past.log + [OnError] + [OnClose] == s.past.log + [OnError, OnClose];
    }
  }

  /** The kernel takes `c` octets and the loop goes on from there. */
  lemma PumpedAfter(s: Sock, c: nat, r: Sock)
    requires s.script.sends != [] && !SendStops(s.script.sends[0]) && s.offset <= |s.outbuf|
    requires s.script.sends[0].Took?
    requires c == if s.script.sends[0].count <= Pending(s) then s.script.sends[0].count else Pending(s)
    requires Pumped(Advance(SendsLeft(s), c), r)
    ensures Pumped(s, r)
  {
    hide Sent, SendBreaks;
    var n, sends := Pending(s), s.script.sends;
    var a := Advance(SendsLeft(s), c);
    SendStep(n, sends);
    NothingToSend(sends[1..]);
    var sent := Sent(n - c, sends[1..]);
    var o := s.offset;
    assert s.outbuf[o..o + c] + s.outbuf[o + c..o + c + sent] == s.outbuf[o..o + c + sent];
    ConcatAssociates(s.past.taken, s.outbuf[o..o + c], s.outbuf[o + c..o + c + sent]);
  }

  lemma PumpedInterrupted(s: Sock, r: Sock)
    requires s.script.sends != [] && s.script.sends[0].SendInterrupted? && s.offset < |s.outbuf|
    requires Pumped(SendsLeft(s), r)
    ensures Pumped(s, r)
  {
    hide Sent, SendBreaks;
    SendStep(Pending(s), s.script.sends);
  }

  lemma {:induction false} PlainPump(s: Sock)
    requires s.script.acts == [] && s.state.Open? && s.fd.Some? && s.offset <= |s.outbuf|
    ensures Pumped(s, Pump(s))
    decreases |s.script.sends|
  {
    hide Pumped;
    var sends, n := s.script.sends, Pending(s);
    if n == 0 {
      PumpEmpty(s);
    } else if sends == [] || SendStops(sends[0]) {
      PumpStops(s);
    } else if sends[0].SendInterrupted? {
      PlainPump(SendsLeft(s));
      PumpedInterrupted(s, Pump(s));
    } else {
      var c := if sends[0].count <= n then sends[0].count else n;
      PlainPump(Advance(SendsLeft(s), c));
      PumpedAfter(s, c, Pump(s));
    }
  }

  lemma PumpEmpty(s: Sock)
    requires s.script.acts == [] && s.state.Open? && s.fd.Some? && s.offset == |s.outbuf|
    ensures Pumped(s, Pump(s))
  {
    hide Sent, SendBreaks;
    NothingToSend(s.script.sends);
    assert s.past.taken + s.outbuf[s.offset..s.offset] == s.past.taken;
    assert s.past.log + [] == s.past.log;
  }

  // ----- Dispatches ------------------------------------------------------------------

  /** The kernel takes the whole backlog. */
  predicate Flushes(s: Sock, sends: seq<SendAnswer>) {
    Sent(Pending(s), sends) == Pending(s)
  }

  /** Drain is emitted when nothing is left to send, then the write side is shut down if end() was called. */
  function DrainEvents(ended: bool): seq<Event>
  {
    [OnDrain(0), DrainReturned(0, ended, true)] + if ended then [ShutdownWrite(0)] else []
  }

  function WriteEvents(s: Sock, sends: seq<SendAnswer>): seq<Event>
  {
    if SendBreaks(Pending(s), sends) then [OnError, OnClose]
    else if Flushes(s, sends) then DrainEvents(s.ended)
    else []
  }

  /** What a writable dispatch comes to. */
  predicate Wrote(s: Sock, r: Sock) {
    var sends, sent := s.script.sends, Sent(Pending(s), s.script.sends);
    && s.offset + sent <= |s.outbuf|
    && r.past.log == s.past.log + WriteEvents(s, sends)
    && r.past.taken == s.past.taken + s.outbuf[s.offset..s.offset + sent] && r.past.accepted == s.past.accepted
    && r.script.recvs == s.script.recvs && r.script.acts == []
    && (r.state.Closed? <==> SendBreaks(Pending(s), sends)) && (r.state.Closed? ==> r.fd.None?)
    && (!r.state.Closed? ==> r.state.Open? && r.fd.Some?)
  }

  lemma BreaksShort(n: nat, sends: seq<SendAnswer>)
    ensures SendBreaks(n, sends) ==> Sent(n, sends) < n
  {
  }

  lemma PlainAfterDrain(p: Sock)
    requires p.script.acts == [] && Pending(p) == 0 && p.fd.Some?
    ensures var r := AfterDrain(Emit(SetInterest(p, READ), OnDrain(0)));
      && r.past.log == p.past.log + DrainEvents(p.ended)
      && r.past.taken == p.past.taken && r.past.accepted == p.past.accepted
      && r.script == p.script && r.state == p.state && r.fd == p.fd
  {
    var m := Logged(SetInterest(p, READ), OnDrain(0));
    PlainListen(m);
    var mark := DrainReturned(0, p.ended, true);
    assert (p.past.log + [OnDrain(0)]) + [mark] == p.past.log + [OnDrain(0), mark];
    assert p.ended ==> (p.past.log + [OnDrain(0), mark]) + [ShutdownWrite(0)] == p.past.log + DrainEvents(true);
    assert !p.ended ==> p.past.log + [OnDrain(0), mark] == p.past.log + DrainEvents(false);
  }

  lemma PlainWritable(s: Sock)
    requires s.script.acts == [] && s.state.Open? && s.fd.Some? && s.offset <= |s.outbuf|
    ensures Wrote(s, Writable(s))
  {
    hide Sent, SendBreaks, DrainEvents;
    var n, sends, p := Pending(s), s.script.sends, Pump(s);
    PlainPump(s);
    BreaksShort(n, sends);
    if !SendBreaks(n, sends) {
      if Pending(p) == 0 {
        PlainAfterDrain(p);
      } else {
        assert s.past.log + [] == s.past.log;
      }
    }
  }

  /** An open point of a run, with the answers of the kernel and listeners that do nothing. */
  lemma OpenPoint(start: Sock, inputs: seq<Input>, script: Script)
    requires Start(start) && Run(start, inputs).state.Open?
    ensures var s := Run(start, inputs).(script := script);
      s.state.Open? && s.fd.Some? && s.offset <= |s.outbuf|
  {
    StartStable(start);
    RunKeeps(start, inputs);
  }

  /** What a dispatch emits: what the send loop comes to, then what the receive loop comes to. */
  function DispatchEvents(s: Sock, ready: Ready, sends: seq<SendAnswer>, recvs: seq<RecvAnswer>): seq<Event>
  {
    (if ready.writable then WriteEvents(s, sends) else [])
    + if !ready.readable && !ready.hangup then []
      else if ready.writable && SendBreaks(Pending(s), sends) then [OnError]
      else ReadEvents(recvs)
  }

  /**
   * Every dispatch at every open point of every run, for any answers of the kernel: the events, the
   * octets sent, the answers left unread, and whether the socket closes. An error in the send loop is
   * followed by another one when the closed socket is read.
   */
  lemma DispatchTrace(start: Sock, inputs: seq<Input>, ready: Ready, sends: seq<SendAnswer>, recvs: seq<RecvAnswer>)
    requires Start(start) && Run(start, inputs).state.Open?
    ensures var s := Run(start, inputs);
      var r := Step(s, Input(Dispatch(ready, false), Script(sends, recvs, [])));
      var sent := if ready.writable then Sent(Pending(s), sends) else 0;
      var broken := ready.writable && SendBreaks(Pending(s), sends);
      var receives := (ready.readable || ready.hangup) && !broken;
      && r.past.log == s.past.log + DispatchEvents(s, ready, sends, recvs)
      && s.offset + sent <= |s.outbuf| && r.past.taken == s.past.taken + s.outbuf[s.offset..s.offset + sent]
      && r.script.recvs == (if receives then Unread(recvs) else recvs)
      && (r.state.Closed? <==> broken || (receives && ReadCloses(recvs)))
  {
    hide ReadEvents, Unread, ReadCloses, WriteEvents, Sent, SendBreaks, Inv;
    var s := Run(start, inputs);
    var script := Script(sends, recvs, []);
    OpenPoint(start, inputs, script);
    var t := s.(script := script);
    PlainWritable(t);
    SameWriteEvents(s, t, sends);
    var w := if ready.writable then Writable(t) else t;
    assert s.past.log + [] == s.past.log && s.past.taken + s.outbuf[s.offset..s.offset] == s.past.taken;
    if ready.readable || ready.hangup {
      if w.state.Closed? {
        PlainBrokenRead(w);
        LogAssociates(s.past.log, WriteEvents(s, sends), [OnError]);
      } else {
        PlainDrainInput(w);
        LogAssociates(s.past.log, if ready.writable then WriteEvents(s, sends) else [], ReadEvents(recvs));
      }
    } else {
      LogAssociates(s.past.log, if ready.writable then WriteEvents(s, sends) else [], []);
      assert w.past.log + [] == w.past.log;
    }
  }

  lemma SameWriteEvents(s: Sock, t: Sock, sends: seq<SendAnswer>)
    requires t.outbuf == s.outbuf && t.offset == s.offset && t.ended == s.ended
    ensures WriteEvents(t, sends) == WriteEvents(s, sends)
  {
  }

  lemma PlainBrokenRead(w: Sock)
    requires w.script.acts == [] && w.fd.None? && w.state.Closed?
    ensures var r := DrainInput(w);
      r.past.log == w.past.log + [OnError] && r.past.taken == w.past.taken && r.script == w.script && r.state.Closed?
  {
    PlainFail(w);
    assert w.past.log + [OnError] + [] == w.past.log + [OnError];
  }

  lemma LogAssociates(a: seq<Event>, b: seq<Event>, c: seq<Event>)
    ensures (a + b) + c == a + (b + c)
  {
  }

  // ----- The other calls -------------------------------------------------------------

  /** write on a socket that is not open fails: false, an error, and close if the socket was live. */
  lemma WriteRefused(start: Sock, inputs: seq<Input>, chunk: seq<Byte>, sends: seq<SendAnswer>)
    requires Start(start) && !Run(start, inputs).state.Open?
    ensures var s := Run(start, inputs);
      var (r, ok) := Write(s.(script := Script(sends, [], [])), chunk);
      && r == Step(s, Input(UserWrite(chunk), Script(sends, [], [])))
      && !ok && r.state.Closed? && r.past.accepted == s.past.accepted && r.past.taken == s.past.taken
      && r.past.log == s.past.log + [OnError] + if s.state.Connecting? then [OnClose] else []
  {
    var s := Run(start, inputs);
    StartStable(start);
    RunKeeps(start, inputs);
    HeldWhileLive(s);
    hide Inv;
    PlainFail(s.(script := Script(sends, [], [])));
  }

  lemma HeldWhileLive(s: Sock)
    requires Stable(s)
    ensures s.fd.Some? <==> s.state.Connecting? || s.state.Open?
  {
  }

  /**
   * write on an open socket accepts the chunk. Behind a backlog it only queues it; otherwise it sends
   * at once what the kernel takes. It returns true exactly when nothing is left to send.
   */
  lemma WriteTrace(start: Sock, inputs: seq<Input>, chunk: seq<Byte>, sends: seq<SendAnswer>)
    requires Start(start) && Run(start, inputs).state.Open?
    ensures var s := Run(start, inputs);
      var (r, ok) := Write(s.(script := Script(sends, [], [])), chunk);
      var n := |chunk|;
      && r == Step(s, Input(UserWrite(chunk), Script(sends, [], [])))
      && r.past.accepted == s.past.accepted + chunk
      && (Pending(s) > 0 ==> !ok && r.past.taken == s.past.taken && r.past.log == s.past.log && r.state.Open?)
      && (Pending(s) == 0 ==>
            && r.past.taken == s.past.taken + chunk[..Sent(n, sends)]
            && r.past.log == s.past.log + (if SendBreaks(n, sends) then [OnError, OnClose] else [])
            && (ok <==> Sent(n, sends) == n))
  {
    hide Sent, SendBreaks, Inv, Write;
    var s := Run(start, inputs);
    OpenPoint(start, inputs, Script(sends, [], []));
    StartStable(start);
    RunKeeps(start, inputs);
    EmptyBuffer(s);
    PlainWrite(s.(script := Script(sends, [], [])), chunk);
  }

  lemma PlainWrite(s: Sock, chunk: seq<Byte>)
    requires s.script.acts == [] && s.state.Open? && s.fd.Some? && s.offset <= |s.outbuf|
    requires Pending(s) == 0 ==> s.outbuf == [] && s.offset == 0
    ensures var (r, ok) := Write(s, chunk);
      var n, sends := |chunk|, s.script.sends;
      && r.past.accepted == s.past.accepted + chunk
      && (Pending(s) > 0 ==> !ok && r.past.taken == s.past.taken && r.past.log == s.past.log && r.state.Open?)
      && (Pending(s) == 0 ==>
            && r.past.taken == s.past.taken + chunk[..Sent(n, sends)]
            && r.past.log == s.past.log + (if SendBreaks(n, sends) then [OnError, OnClose] else [])
            && (ok <==> Sent(n, sends) == n))
  {
    hide Sent, SendBreaks, Pump;
    if Pending(s) == 0 {
      var q := Queued(s, chunk);
      assert q.outbuf == chunk;
      PlainPump(q);
    }
  }

  lemma EmptyBuffer(s: Sock)
    requires Stable(s)
    ensures Pending(s) == 0 ==> s.outbuf == [] && s.offset == 0
  {
  }

  /** A failed dial is an error on a closed socket; any other makes the socket wait for the connection. */
  lemma DialTrace(t: Tables, dialed: Option<int>)
    ensures var s := Fresh(t);
      var r := Step(s, Input(Dial(dialed), Script([], [], [])));
      && (dialed.None? ==> r.past.log == [OnError] && r.state.Closed? && r.tables == t)
      && (dialed.Some? ==>
            r.past.log == [] && r.state.Connecting? && r.fd == dialed && r.tables == Watch(t, dialed.value, WRITE))
  {
    PlainFail(Fresh(t).(script := Script([], [], [])));
  }

  /** The connection is reported once, or the failure; other calls of a connecting socket do not matter here. */
  lemma ConnectTrace(start: Sock, inputs: seq<Input>, ready: Ready, failed: bool)
    requires Start(start) && Run(start, inputs).state.Connecting?
    ensures var s := Run(start, inputs);
      var r := Step(s, Input(Dispatch(ready, failed), Script([], [], [])));
      && (failed ==> r.past.log == s.past.log + [OnError, OnClose] && r.state.Closed?)
      && (!failed ==> r.past.log == s.past.log + [OnConnect] && r.state.Open?)
  {
    var s := Run(start, inputs);
    StartStable(start);
    RunKeeps(start, inputs);
    HeldWhileLive(s);
    hide Inv;
    var t := s.(script := Script([], [], []));
    PlainFail(t);
    PlainListen(Logged(SetInterest(t.(state := Open), READ), OnConnect));
    assert s.past.log + [OnError] + [OnClose] == s.past.log + [OnError, OnClose];
  }

  /** A dispatch to a socket that is idle or closed changes nothing. */
  lemma DeadDispatch(start: Sock, inputs: seq<Input>, ready: Ready, failed: bool, script: Script)
    requires Run(start, inputs).state.Idle? || Run(start, inputs).state.Closed?
    ensures var s := Run(start, inputs); Step(s, Input(Dispatch(ready, failed), script)) == s.(script := script)
  {
  }

  /** destroy closes the socket, and says so if it was live. */
  lemma DestroyTrace(start: Sock, inputs: seq<Input>)
    requires Start(start)
    ensures var s := Run(start, inputs);
      var r := Step(s, Input(UserDestroy, Script([], [], [])));
      && r.state.Closed? && r.fd.None?
      && r.past.log == s.past.log + if s.state.Connecting? || s.state.Open? then [OnClose] else []
  {
    var s := Run(start, inputs);
    StartStable(start);
    RunKeeps(start, inputs);
    HeldWhileLive(s);
    hide Inv;
    PlainClose(s.(script := Script([], [], [])));
  }

  /** end marks the socket, and shuts the write side down at once if it is open with nothing to send. */
  lemma EndTrace(start: Sock, inputs: seq<Input>)
    requires Start(start)
    ensures var s := Run(start, inputs);
      var r := Step(s, Input(UserEnd, Script([], [], [])));
      && r.ended && r.state == s.state
      && r.past.log == s.past.log + if s.state.Open? && Pending(s) == 0 then [ShutdownWrite(0)] else []
  {
    var s := Run(start, inputs);
    StartStable(start);
    RunKeeps(start, inputs);
    HeldWhileLive(s);
    hide Inv;
    assert s.past.log + [] == s.past.log;
  }

  // ----- Listeners run at every event ------------------------------------------------

  lemma EndingListener(s: Sock)
    requires s.script.acts == [DoEnd]
    ensures Listen(s).ended && Listen(s).script == s.script.(acts := [])
  {
    var rest := ActsLeft(s);
    assert rest.script.acts == [];
    PlainListen(End(rest));
    assert Listen(s) == Listen(End(rest));
  }

  lemma ReturningListener(s: Sock)
    requires s.script.acts == [Return, DoEnd]
    ensures Listen(s) == s.(script := s.script.(acts := [DoEnd]))
  {
    assert s.script.acts[1..] == [DoEnd];
  }

  lemma ClosingEnds(s: Sock)
    requires s.script.acts == [DoEnd] && s.fd.Some? && !s.state.Closed?
    ensures CloseWith(s).ended
  {
    EndingListener(Logged(Released(s), OnClose));
  }

  lemma FailingEnds(s: Sock)
    requires s.script.acts == [Return, DoEnd] && s.fd.Some? && !s.state.Closed?
    ensures Fail(s).ended
  {
    ReturningListener(Logged(s, OnError));
    ClosingEnds(Emit(s, OnError));
  }

  lemma EndOfInputEnds(s: Sock)
    requires s.script.acts == [Return, DoEnd] && s.fd.Some? && s.state.Open? && s.script.recvs == [Got([])]
    ensures DrainInput(s).ended
  {
    var rest := RecvsLeft(s);
    ReturningListener(Logged(rest, OnEnd));
    ClosingEnds(Emit(rest, OnEnd));
  }

  lemma DataEnds(s: Sock, chunk: seq<Byte>)
    requires s.script.acts == [DoEnd] && s.fd.Some? && s.state.Open? && chunk != [] && s.script.recvs == [Got(chunk)]
    ensures DrainInput(s).ended
  {
    var rest := RecvsLeft(s);
    assert s.script.recvs[1..] == [];
    var l := Listen(Logged(rest, OnData(chunk)));
    EndingListener(Logged(rest, OnData(chunk)));
    EndKeepsLive(rest, OnData(chunk));
    assert DrainInput(s) == DrainInput(l);
  }

  lemma EndKeepsLive(s: Sock, e: Event)
    requires s.script.acts == [DoEnd] && s.fd.Some?
    ensures Listen(Logged(s, e)).fd.Some?
  {
    var l := Logged(s, e);
    var rest := ActsLeft(l);
    assert rest.script.acts == [];
    PlainListen(End(rest));
    assert Listen(l) == End(rest);
  }

  /**
   * A listener that calls end() does so whichever event it listens to: data, the end of input, an error
   * or the close that follows, the connection, or the close asked for by destroy.
   */
  lemma ListenersRun(start: Sock, inputs: seq<Input>, chunk: seq<Byte>)
    requires Start(start) && chunk != []
    ensures var s := Run(start, inputs);
      var readable := Dispatch(Ready(true, false, false), false);
      s.state.Open? ==>
        && Step(s, Input(readable, Script([], [Got(chunk)], [DoEnd]))).ended
        && Step(s, Input(readable, Script([], [Got([])], [Return, DoEnd]))).ended
        && Step(s, Input(readable, Script([], [RecvFails], [Return, DoEnd]))).ended
        && Step(s, Input(UserDestroy, Script([], [], [DoEnd]))).ended
    ensures var s := Run(start, inputs);
      s.state.Connecting? ==>
        Step(s, Input(Dispatch(Ready(false, true, false), false), Script([], [], [DoEnd]))).ended
  {
    hide Inv, Step;
    var s := Run(start, inputs);
    StartStable(start);
    RunKeeps(start, inputs);
    HeldWhileLive(s);
    if s.state.Open? {
      OpenListenersRun(s, chunk);
    }
    if s.state.Connecting? {
      ConnectListenersRun(s);
    }
  }

  lemma OpenListenersRun(s: Sock, chunk: seq<Byte>)
    requires s.state.Open? && s.fd.Some? && chunk != []
    ensures var readable := Dispatch(Ready(true, false, false), false);
      && Step(s, Input(readable, Script([], [Got(chunk)], [DoEnd]))).ended
      && Step(s, Input(readable, Script([], [Got([])], [Return, DoEnd]))).ended
      && Step(s, Input(readable, Script([], [RecvFails], [Return, DoEnd]))).ended
      && Step(s, Input(UserDestroy, Script([], [], [DoEnd]))).ended
  {
    DataEnds(s.(script := Script([], [Got(chunk)], [DoEnd])), chunk);
    EndOfInputEnds(s.(script := Script([], [Got([])], [Return, DoEnd])));
    FailingEnds(RecvsLeft(s.(script := Script([], [RecvFails], [Return, DoEnd]))));
    ClosingEnds(s.(script := Script([], [], [DoEnd])));
  }

  lemma ConnectListenersRun(s: Sock)
    requires s.state.Connecting?
    ensures Step(s, Input(Dispatch(Ready(false, true, false), false), Script([], [], [DoEnd]))).ended
  {
    var c := s.(script := Script([], [], [DoEnd]));
    EndingListener(Logged(SetInterest(c.(state := Open), READ), OnConnect));
  }
}
