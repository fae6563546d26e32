/** tcp::socket as the source runs it, proved against the functions of SocketModel call by call. */
module Socket {
  import opened Wire
  import opened LoopTables
  import opened SocketModel

  class TcpSocket {
    var state: State
    var fd: Option<int>
    var outbuf: seq<Byte>
    var outOffset: nat
    var ended: bool
    // the loop and the environment
    var tables: Tables
    var script: Script
    ghost var past: Past

    ghost function View(): (s: Sock)
      reads this
    {
      Sock(state, fd, outbuf, outOffset, ended, tables, script, past)
    }

    constructor Create(tables: Tables)
      ensures View() == Fresh(tables)
    {
      state, fd, outbuf, outOffset, ended := Idle, None, [], 0, false;
      this.tables, script := tables, Script([], [], []);
      past := Past([], [], [], None, false, false, tables);
    }

    /** The server's constructor and begin_reading. */
    constructor Adopt(h: int, tables: Tables)
      ensures View() == Adopted(h, tables)
    {
      state, fd, outbuf, outOffset, ended := Open, Some(h), [], 0, false;
      this.tables, script := Watch(tables, h, READ), Script([], [], []);
      past := Past([], [], [], Some(h), false, false, tables);
    }

    method Write(chunk: seq<Byte>) returns (ok: bool)
      modifies this
      ensures View() == SocketModel.Write(old(View()), chunk).0
      ensures ok == SocketModel.Write(old(View()), chunk).1
      decreases Fuel(View()), 5
    {
      if !state.Open? {
        Fail();
        return false;
      }
      var hadBacklog := outOffset < |outbuf|;
      outbuf := outbuf + chunk;
      past := past.(accepted := past.accepted + chunk);
      assert View() == Queued(old(View()), chunk);
      if !hadBacklog {
        PumpOutput();
      }
      var buffered := outOffset < |outbuf|;
      if buffered {
        tables := Modify(tables, fd, READ_WRITE);
      }
      return !buffered;
    }

    method End()
      modifies this
      ensures View() == SocketModel.End(old(View()))
    {
      past := past.(finWanted := past.finWanted || state.Open?);
      ended := true;
      if state.Open? && outOffset >= |outbuf| {
        ShutdownWriteSide();
      }
    }

    method Destroy()
      modifies this
      ensures View() == SocketModel.CloseWith(old(View()))
    {
      CloseWith();
    }

    method StartConnect(dialed: Option<int>)
      modifies this
      ensures View() == SocketModel.StartConnect(old(View()), dialed)
    {
      if dialed.None? {
        Fail();
        return;
      }
      fd, state := dialed, Connecting;
      past := past.(handle := dialed);
      tables := Watch(tables, dialed.value, WRITE);
    }

    method OnIo(ready: Ready, connectFailed: bool)
      modifies this
      ensures View() == SocketModel.OnIo(old(View()), ready, connectFailed)
    {
      if state.Connecting? {
        if connectFailed {
          Fail();
          return;
        }
        state := Open;
        tables := Modify(tables, fd, READ);
        Emit(OnConnect);
        if outOffset < |outbuf| {
          tables := Modify(tables, fd, READ_WRITE);
        }
        return;
      }
      if !state.Open? {
        return;
      }
      if ready.writable {
        OnWritable();
      }
      if ready.readable || ready.hangup {
        DrainInput();
      }
    }

    method OnWritable()
      modifies this
      ensures View() == Writable(old(View()))
    {
      PumpOutput();
      var drained := outOffset >= |outbuf|;
      if drained {
        tables := Modify(tables, fd, READ);
        Emit(OnDrain(Pending(View())));
        past := past.(log := past.log + [DrainReturned(Pending(View()), ended, fd.Some?)]);
        if ended {
          ShutdownWriteSide();
        }
      }
    }

    method ShutdownWriteSide()
      modifies this`past
      ensures View() == Shutdown(old(View()))
    {
      if fd.Some? {
        past := past.(log := past.log + [ShutdownWrite(Pending(View()))], shut := true);
      }
    }

    /** The receive loop: every chunk is delivered before the next recv, and listeners may close the socket. */
    method DrainInput()
      modifies this
      ensures View() == SocketModel.DrainInput(old(View()))
    {
      while true
        invariant SocketModel.DrainInput(View()) == SocketModel.DrainInput(old(View()))
        decreases Fuel(View())
      {
        if fd.None? {
          Fail();
          return;
        }
        if script.recvs == [] {
          return;
        }
        var got := script.recvs[0];
        script := script.(recvs := script.recvs[1..]);
        match got
        case Got(bytes) =>
          if bytes == [] {
            Emit(OnEnd);
            CloseWith();
            return;
          }
          Emit(OnData(bytes));
        case RecvBlocks =>
          return;
        case RecvInterrupted =>
        case RecvFails =>
          Fail();
          return;
      }
    }

    /** The send loop. */
    method PumpOutput()
      modifies this
      ensures View() == Pump(old(View()))
      decreases Fuel(View()), 4
    {
      while outOffset < |outbuf|
        invariant Pump(View()) == Pump(old(View()))
        invariant Fuel(View()) <= old(Fuel(View()))
        decreases Fuel(View())
      {
        if script.sends == [] {
          return;
        }
        var sent := script.sends[0];
        script := script.(sends := script.sends[1..]);
        match sent
        case Took(count) =>
          if count == 0 {
            Fail();
            return;
          }
          var room := |outbuf| - outOffset;
          var n := if count <= room then count else room;
          past := past.(taken := past.taken + outbuf[outOffset..outOffset + n]);
          outOffset := outOffset + n;
        case SendBlocks =>
          return;
        case SendInterrupted =>
        case SendFails =>
          Fail();
          return;
      }
      outbuf := [];
      outOffset := 0;
    }

    method Fail()
      modifies this
      ensures View() == SocketModel.Fail(old(View()))
      decreases Fuel(View()), 3
    {
      Emit(OnError);
      CloseWith();
    }

    method CloseWith()
      modifies this
      ensures View() == SocketModel.CloseWith(old(View()))
      decreases Fuel(View()), 2
    {
      var wasLive := !state.Closed? && fd.Some?;
      state := Closed;
      if !wasLive {
        return;
      }
      tables := Unwatch(tables, fd.value);
      fd := None;
      Emit(OnClose);
    }

    method Emit(ghost e: Event)
      modifies this
      ensures View() == SocketModel.Emit(old(View()), e)
      decreases Fuel(View()), 1
    {
      past := past.(log := past.log + [e]);
      Listen();
    }

    /** The listeners' calls, until they return. */
    method Listen()
      modifies this
      ensures View() == SocketModel.Listen(old(View()))
      decreases Fuel(View()), 0
    {
      while script.acts != []
        invariant SocketModel.Listen(View()) == SocketModel.Listen(old(View()))
        invariant Fuel(View()) <= old(Fuel(View()))
        decreases Fuel(View())
      {
        var act := script.acts[0];
        script := script.(acts := script.acts[1..]);
        match act
        case Return =>
          return;
        case DoWrite(chunk) =>
          var _ := Write(chunk);
        case DoEnd =>
          End();
        case DoDestroy =>
          CloseWith();
      }
    }
  }
}
