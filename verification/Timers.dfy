/** The loop's timer list and the timeout that it gives to the poller. */
module Timers {
  import opened Wire

  /**
   * A timer: its id stands for its function, `when` is its deadline in nanoseconds. A negative delay is
   * allowed, so the deadline may lie before the start of the clock.
   */
  datatype Timer = Timer(id: nat, when: int)

  const NS_PER_MS: nat := 1_000_000

  function Select(timers: seq<Timer>, keep: Timer -> bool): (r: seq<Timer>)
    ensures forall i :: 0 <= i < |r| ==> keep(r[i])
  {
    if timers == [] then []
    else (if keep(timers[0]) then [timers[0]] else []) + Select(timers[1..], keep)
  }

  function Due(timers: seq<Timer>, now: nat): seq<Timer>
  {
    Select(timers, (t: Timer) => t.when <= now)
  }

  function NotDue(timers: seq<Timer>, now: nat): seq<Timer>
  {
    Select(timers, (t: Timer) => t.when > now)
  }

  function WithId(timers: seq<Timer>, id: nat): seq<Timer>
  {
    Select(timers, (t: Timer) => t.id == id)
  }

  function WithoutId(timers: seq<Timer>, id: nat): seq<Timer>
  {
    Select(timers, (t: Timer) => t.id != id)
  }

  function IdList(timers: seq<Timer>): (r: seq<nat>)
    ensures |r| == |timers| && forall i :: 0 <= i < |r| ==> r[i] == timers[i].id
  {
    seq(|timers|, i requires 0 <= i < |timers| => timers[i].id)
  }

  function Ids(timers: seq<Timer>): (r: multiset<nat>)
  {
    multiset(IdList(timers))
  }

  lemma IdsAppend(a: seq<Timer>, b: seq<Timer>)
    ensures Ids(a + b) == Ids(a) + Ids(b)
  {
    assert IdList(a + b) == IdList(a) + IdList(b);
  }

  lemma IdsOne(t: Timer)
    ensures Ids([t]) == multiset{t.id}
  {
    assert IdList([t]) == [t.id];
  }

  /** Splitting a list loses no timer and copies none. */
  lemma {:induction false} Partition(timers: seq<Timer>, p: Timer -> bool, q: Timer -> bool)
    requires forall t :: p(t) == !q(t)
    ensures Ids(Select(timers, p)) + Ids(Select(timers, q)) == Ids(timers)
  {
    if timers == [] {
      assert IdList([]) == [];
    } else {
      hide Ids;
      var t, rest := timers[0], timers[1..];
      Partition(rest, p, q);
      IdsAppend([t], rest);
      assert timers == [t] + rest;
      SelectFirst(timers, p);
      SelectFirst(timers, q);
      if p(t) {
        MovesLeft(Ids([t]), Ids(Select(rest, p)), Ids(Select(rest, q)));
      }
    }
  }

  /** Where the first timer goes. */
  lemma SelectFirst(timers: seq<Timer>, keep: Timer -> bool)
    requires timers != []
    ensures var rest := Select(timers[1..], keep);
      && (keep(timers[0]) ==> Ids(Select(timers, keep)) == Ids([timers[0]]) + Ids(rest))
      && (!keep(timers[0]) ==> Select(timers, keep) == rest)
  {
    hide Ids;
    IdsAppend([timers[0]], Select(timers[1..], keep));
  }

  lemma MovesLeft(x: multiset<nat>, a: multiset<nat>, b: multiset<nat>)
    ensures (x + a) + b == x + (a + b)
  {
  }

  lemma {:induction false} SelectAppend(a: seq<Timer>, b: seq<Timer>, keep: Timer -> bool)
    ensures Select(a + b, keep) == Select(a, keep) + Select(b, keep)
  {
    if a == [] {
      assert a + b == b;
    } else {
      SelectAppend(a[1..], b, keep);
      assert (a + b)[1..] == a[1..] + b;
    }
  }

  lemma {:induction false} SelectFrom(timers: seq<Timer>, keep: Timer -> bool)
    ensures forall t :: t in Select(timers, keep) <==> t in timers && keep(t)
  {
    if timers != [] {
      SelectFrom(timers[1..], keep);
      assert timers == [timers[0]] + timers[1..];
    }
  }

  // ----- The timeout -------------------------------------------------------------

  function Soonest(timers: seq<Timer>): (r: int)
    requires timers != []
    ensures forall i :: 0 <= i < |timers| ==> r <= timers[i].when
    ensures exists i :: 0 <= i < |timers| && timers[i].when == r
  {
    if |timers| == 1 then timers[0].when
    else
      var rest := Soonest(timers[1..]);
      assert exists i :: 0 <= i < |timers| - 1 && timers[1..][i].when == rest;
      if timers[0].when <= rest then timers[0].when
      else
        assert forall i :: 0 <= i < |timers| - 1 ==> timers[1..][i] == timers[i + 1];
        rest
  }

  /** next_timeout: 0 with deferred work queued, none without timers, else whole milliseconds to the soonest. */
  function NextTimeout(deferredEmpty: bool, timers: seq<Timer>, now: nat): (r: Option<nat>)
  {
    if !deferredEmpty then Some(0)
    else if timers == [] then None
    else if Soonest(timers) <= now then Some(0)
    else Some((Soonest(timers) - now) / NS_PER_MS)
  }

  /** Without deferred work the timeout is the most whole milliseconds that no deadline cuts short. */
  lemma NextTimeoutExact(timers: seq<Timer>, now: nat, ms: nat)
    requires timers != []
    ensures ms <= NextTimeout(true, timers, now).value
       <==> ms == 0 || forall i :: 0 <= i < |timers| ==> now + ms * NS_PER_MS <= timers[i].when
  {
    var s := Soonest(timers);
    var i :| 0 <= i < |timers| && timers[i].when == s;
  }

  /** Without a timeout the loop has neither deferred work nor timers; with deferred work it does not wait. */
  lemma NextTimeoutCases(deferredEmpty: bool, timers: seq<Timer>, now: nat)
    ensures NextTimeout(deferredEmpty, timers, now).None? <==> deferredEmpty && timers == []
    ensures !deferredEmpty ==> NextTimeout(deferredEmpty, timers, now) == Some(0)
  {
  }

  /** The poller's conversion to a 32-bit int: negative waits for ever. */
  function PollArgument(timeout: Option<nat>): (ms: int)
    ensures -0x8000_0000 <= ms < 0x8000_0000
  {
    if timeout.None? then -1
    else
      var low := timeout.value % 0x1_0000_0000;
      if low < 0x8000_0000 then low else low - 0x1_0000_0000
  }

  /** poll waits no longer than the chosen timeout exactly when bit 31 of the millisecond count is clear. */
  lemma PollWaitsNoLonger(ms: nat)
    ensures 0 <= PollArgument(Some(ms)) <= ms <==> (ms / 0x8000_0000) % 2 == 0
  {
    var high, low := ms / 0x1_0000_0000, ms % 0x1_0000_0000;
    assert ms == high * 0x1_0000_0000 + low;
    if low < 0x8000_0000 {
      assert ms / 0x8000_0000 == 2 * high;
    } else {
      assert ms / 0x8000_0000 == 2 * high + 1;
    }
  }

  /** A timer 2147483648 ms ahead, the only one, makes the loop wait for ever. */
  lemma FarTimerWaitsForEver()
    ensures PollArgument(NextTimeout(true, [Timer(1, 0x8000_0000 * NS_PER_MS)], 0)) < 0
  {
    var far := [Timer(1, 0x8000_0000 * NS_PER_MS)];
    assert Soonest(far) == 0x8000_0000 * NS_PER_MS;
  }
}
