/** dns::client as the source runs it, proved against the functions of ClientModel call by call. */
module Client {
  import opened Wire
  import opened Messages
  import opened Codec
  import opened Timers
  import opened ClientModel

  class DnsClient {
    var pending: map<U16, Pending>
    var timeout: int
    // the loop's timers and what the handlers will do
    var clock: Clock
    var acts: seq<Act>
    ghost var past: Past
    var asked: nat

    ghost predicate Valid()
      reads this
    {
      asked == |past.asks|
    }

    ghost function View(): (s: State)
      reads this
    {
      State(pending, timeout, clock, acts, past)
    }

    constructor ()
      ensures Valid() && View() == START
    {
      pending, timeout, asked := map[], 5000 * NS_PER_MS, 0;
      clock, acts := Clock(0, [], [], 1, map[]), [];
      past := Past([], [], [], {});
    }

    method Query(ask: Ask)
      requires Valid()
      modifies this
      ensures Valid() && View() == ClientModel.Query(old(View()), ask)
      decreases |acts|, 3
    {
      hide Serialize;
      var query := asked;
      var wire := SerializeMessage(Request(ask));
      if wire.None? {
        asked := asked + 1;
        past := past.(asks := past.asks + [ask], deadlines := past.deadlines + [clock.now + timeout]);
        Listen();
        Handle(query, None);
        return;
      }
      Register(ask);
      if !ask.sent {
        Listen();
        Resolve(ask.id, None);
      }
    }

    /** The timer is armed, then the entry is made unless the id is taken. */
    method Register(ask: Ask)
      requires Valid()
      modifies this
      ensures Valid() && View() == Registered(old(View()), ask)
    {
      var query, timer := asked, clock.nextTimer;
      asked := asked + 1;
      past := past.(asks := past.asks + [ask], deadlines := past.deadlines + [clock.now + timeout]);
      clock := clock.(armed := clock.armed + [Timer(timer, clock.now + timeout)], nextTimer := timer + 1,
                      expires := clock.expires[timer := ask.id]);
      if ask.id in pending {
        past := past.(clashed := past.clashed + {query});
      } else {
        pending := pending[ask.id := Pending(query, timer)];
      }
    }

    method Resolve(id: U16, answer: Option<Message>)
      requires Valid()
      modifies this
      ensures Valid() && View() == ClientModel.Resolve(old(View()), id, answer)
      decreases |acts|, 2
    {
      if id !in pending {
        return;
      }
      var entry := pending[id];
      pending := pending - {id};
      clock := clock.(armed := WithoutId(clock.armed, entry.timer));
      Handle(entry.query, answer);
    }

    method OnMessage(datagram: seq<Byte>)
      requires Valid()
      modifies this
      ensures Valid() && View() == ClientModel.OnMessage(old(View()), datagram)
    {
      var parsed := ParseMessage(datagram);
      if parsed.None? {
        Listen();
        return;
      }
      Resolve(parsed.value.header.id, parsed);
    }

    /** The handler of a query runs. */
    method Handle(query: nat, answer: Option<Message>)
      requires Valid()
      modifies this
      ensures Valid() && View() == ClientModel.Handle(old(View()), query, answer)
      decreases |acts|, 1
    {
      past := past.(answers := past.answers + [Answer(query, answer, clock.now)]);
      Listen();
    }

    /** Handlers and error listeners: whatever further queries they issue. */
    method Listen()
      requires Valid()
      modifies this
      ensures Valid() && View() == ClientModel.Listen(old(View()))
      decreases |acts|, 0
    {
      while acts != []
        invariant Valid() && ClientModel.Listen(View()) == ClientModel.Listen(old(View()))
        invariant |acts| <= old(|acts|)
        decreases |acts|
      {
        var act := acts[0];
        acts := acts[1..];
        match act
        case Return =>
          return;
        case Issue(ask) =>
          Query(ask);
      }
    }
  }
}
