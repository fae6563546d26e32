/**
 * tcp::socket as a function of its environment. The kernel's answers and the listeners' calls are
 * arbitrary finite scripts; a script that has run out stands for a kernel that would block and for
 * listeners that return.
 */
module SocketModel {
  import opened Wire
  import opened LoopTables

  datatype State = Idle | Connecting | Open | Closed

  datatype SendAnswer = Took(count: nat) | SendBlocks | SendInterrupted | SendFails

  datatype RecvAnswer = Got(bytes: seq<Byte>) | RecvBlocks | RecvInterrupted | RecvFails

  /** What a listener does next: one of the public calls, or return to the emitter. */
  datatype Act = DoWrite(chunk: seq<Byte>) | DoEnd | DoDestroy | Return

  /**
   * The events that the socket emits, and two marks, the return of the drain listeners and the
   * shutdown of the write side, each with the number of octets still buffered.
   */
  datatype Event =
    | OnConnect
    | OnData(bytes: seq<Byte>)
    | OnDrain(pending: nat)
    | OnEnd
    | OnError
    | OnClose
    | DrainReturned(pending: nat, ended: bool, live: bool)
    | ShutdownWrite(pending: nat)

  /** What the environment will answer and do. */
  datatype Script = Script(sends: seq<SendAnswer>, recvs: seq<RecvAnswer>, acts: seq<Act>)

  /**
   * History: octets accepted by write, octets taken by the kernel, events, the descriptor ever held,
   * end() called while open, write side shut down, the tables before there was a descriptor.
   */
  datatype Past = Past(
    accepted: seq<Byte>,
    taken: seq<Byte>,
    log: seq<Event>,
    handle: Option<int>,
    finWanted: bool,
    shut: bool,
    tables0: Tables
  )

  datatype Sock = Sock(
    state: State,
    fd: Option<int>,
    outbuf: seq<Byte>,
    offset: nat,
    ended: bool,
    tables: Tables,
    script: Script,
    past: Past
  )

  function Fuel(s: Sock): nat
  {
    |s.script.sends| + |s.script.recvs| + |s.script.acts|
  }

  function SendsLeft(s: Sock): Sock
    requires s.script.sends != []
  {
    s.(script := s.script.(sends := s.script.sends[1..]))
  }

  function RecvsLeft(s: Sock): Sock
    requires s.script.recvs != []
  {
    s.(script := s.script.(recvs := s.script.recvs[1..]))
  }

  function ActsLeft(s: Sock): Sock
    requires s.script.acts != []
  {
    s.(script := s.script.(acts := s.script.acts[1..]))
  }

  function Pending(s: Sock): (n: nat)
  {
    if s.offset < |s.outbuf| then |s.outbuf| - s.offset else 0
  }

  // ----- The loop's tables ------------------------------------------------------

  function SetInterest(s: Sock, i: Interest): Sock
  {
    s.(tables := Modify(s.tables, s.fd, i))
  }

  // ----- Emitting, closing, sending ------------------------------------------------

  function Logged(s: Sock, e: Event): Sock
  {
    s.(past := s.past.(log := s.past.log + [e]))
  }

  /** The listeners run until they return; each of their calls runs to its end first. */
  function Listen(s: Sock): (r: Sock)
    ensures Fuel(r) <= Fuel(s)
    decreases Fuel(s), 0
  {
    if s.script.acts == [] then s
    else
      var rest := ActsLeft(s);
      match s.script.acts[0]
      case Return => rest
      case DoWrite(chunk) => Listen(Write(rest, chunk).0)
      case DoEnd => Listen(End(rest))
      case DoDestroy => Listen(CloseWith(rest))
  }

  function Emit(s: Sock, e: Event): (r: Sock)
    ensures Fuel(r) <= Fuel(s)
    decreases Fuel(s), 1
  {
    Listen(Logged(s, e))
  }

  function Released(s: Sock): Sock
    requires s.fd.Some?
  {
    s.(state := Closed, tables := Unwatch(s.tables, s.fd.value), fd := None)
  }

  function CloseWith(s: Sock): (r: Sock)
    ensures Fuel(r) <= Fuel(s)
    decreases Fuel(s), 2
  {
    if s.state.Closed? || s.fd.None? then s.(state := Closed)
    else Emit(Released(s), OnClose)
  }

  function Fail(s: Sock): (r: Sock)
    ensures Fuel(r) <= Fuel(s)
    decreases Fuel(s), 3
  {
    CloseWith(Emit(s, OnError))
  }

  /** Octets the kernel takes from the front of the backlog. */
  function Advance(s: Sock, count: nat): Sock
    requires s.offset + count <= |s.outbuf|
  {
    s.(offset := s.offset + count, past := s.past.(taken := s.past.taken + s.outbuf[s.offset..s.offset + count]))
  }

  function Pump(s: Sock): (r: Sock)
    ensures Fuel(r) <= Fuel(s)
    decreases Fuel(s), 4
  {
    if s.offset >= |s.outbuf| then s.(outbuf := [], offset := 0)
    else if s.script.sends == [] then s
    else
      var rest := SendsLeft(s);
      match s.script.sends[0]
      case Took(count) =>
        if count == 0 then Fail(rest)
        else Pump(Advance(rest, if count <= Pending(s) then count else Pending(s)))
      case SendBlocks => rest
      case SendInterrupted => Pump(rest)
      case SendFails => Fail(rest)
  }

  // ----- The public calls ----------------------------------------------------------------

  function Queued(s: Sock, chunk: seq<Byte>): Sock
  {
    s.(outbuf := s.outbuf + chunk, past := s.past.(accepted := s.past.accepted + chunk))
  }

  /** The new socket and what write() returns. */
  function Write(s: Sock, chunk: seq<Byte>): (r: (Sock, bool))
    ensures Fuel(r.0) <= Fuel(s)
    decreases Fuel(s), 5
  {
    if !s.state.Open? then (Fail(s), false)
    else
      var pumped := if s.offset < |s.outbuf| then Queued(s, chunk) else Pump(Queued(s, chunk));
      if Pending(pumped) > 0 then (SetInterest(pumped, READ_WRITE), false) else (pumped, true)
  }

  function Shutdown(s: Sock): Sock
  {
    if s.fd.None? then s
    else s.(past := s.past.(log := s.past.log + [ShutdownWrite(Pending(s))], shut := true))
  }

  function End(s: Sock): (r: Sock)
  {
    var ending := s.(ended := true, past := s.past.(finWanted := s.past.finWanted || s.state.Open?));
    if s.state.Open? && Pending(s) == 0 then Shutdown(ending) else ending
  }

  // ----- Readiness -------------------------------------------------------------------------

  datatype Ready = Ready(readable: bool, writable: bool, hangup: bool)

  function Connected(s: Sock): (r: Sock)
  {
    var e := Emit(SetInterest(s.(state := Open), READ), OnConnect);
    if Pending(e) > 0 then SetInterest(e, READ_WRITE) else e
  }

  function Writable(s: Sock): (r: Sock)
  {
    var p := Pump(s);
    if Pending(p) > 0 then p
    else
      AfterDrain(Emit(SetInterest(p, READ), OnDrain(Pending(p))))
  }

  /** Once the drain listeners have returned: the mark, and the shutdown if end() was called. */
  function AfterDrain(s: Sock): (r: Sock)
  {
    var back := Logged(s, DrainReturned(Pending(s), s.ended, s.fd.Some?));
    if s.ended then Shutdown(back) else back
  }

  function DrainInput(s: Sock): (r: Sock)
    ensures Fuel(r) <= Fuel(s)
    decreases Fuel(s)
  {
    if s.fd.None? then Fail(s)
    else if s.script.recvs == [] then s
    else
      var rest := RecvsLeft(s);
      match s.script.recvs[0]
      case Got(bytes) =>
        if bytes == [] then CloseWith(Emit(rest, OnEnd)) else DrainInput(Emit(rest, OnData(bytes)))
      case RecvBlocks => rest
      case RecvInterrupted => DrainInput(rest)
      case RecvFails => Fail(rest)
  }

  function OnIo(s: Sock, ready: Ready, connectFailed: bool): (r: Sock)
  {
    match s.state
    case Connecting => if connectFailed then Fail(s) else Connected(s)
    case Open =>
      var w := if ready.writable then Writable(s) else s;
      if ready.readable || ready.hangup then DrainInput(w) else w
    case _ => s
  }

  /** start_connect: None stands for a failure of socket(), of the mode change or of connect(). */
  function StartConnect(s: Sock, dialed: Option<int>): (r: Sock)
  {
    match dialed
    case None => Fail(s)
    case Some(h) =>
      s.(state := Connecting, fd := Some(h), tables := Watch(s.tables, h, WRITE), past := s.past.(handle := Some(h)))
  }

  // ----- Runs ----------------------------------------------------------------------------------

  /** One entry from the loop or the user, with the environment that it meets. */
  datatype Input = Input(call: Call, script: Script)

  datatype Call =
    | Dial(dialed: Option<int>)
    | Dispatch(ready: Ready, connectFailed: bool)
    | UserWrite(chunk: seq<Byte>)
    | UserEnd
    | UserDestroy

  /** A socket is connected at most once: a second dial is not part of a run. */
  function Step(s: Sock, input: Input): (r: Sock)
  {
    var t := s.(script := input.script);
    match input.call
    case Dial(dialed) => if s.past.handle.Some? then s else StartConnect(t, dialed)
    case Dispatch(ready, connectFailed) => OnIo(t, ready, connectFailed)
    case UserWrite(chunk) => Write(t, chunk).0
    case UserEnd => End(t)
    case UserDestroy => CloseWith(t)
  }

  function Run(s: Sock, inputs: seq<Input>): (r: Sock)
    decreases |inputs|
  {
    if inputs == [] then s else Step(Run(s, inputs[..|inputs| - 1]), inputs[|inputs| - 1])
  }

  /** A new socket, over whatever the loop watches already. */
  function Fresh(t: Tables): Sock
  {
    Sock(Idle, None, [], 0, false, t, Script([], [], []), Past([], [], [], None, false, false, t))
  }

  /** A socket made by the server around an accepted descriptor, after begin_reading. */
  function Adopted(h: int, t: Tables): Sock
  {
    Fresh(t).(state := Open, fd := Some(h), tables := Watch(t, h, READ),
              past := Past([], [], [], Some(h), false, false, t))
  }
}
