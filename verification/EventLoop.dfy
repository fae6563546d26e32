/** The lock sections of event_loop as the source runs them, proved against the functions of Timers. */
module EventLoop {
  import opened Wire
  import opened Timers

  class TimerQueue {
    var deferred: seq<nat>
    var timers: seq<Timer>
    var nextTimerId: nat

    constructor ()
      ensures deferred == [] && timers == [] && nextTimerId == 1
    {
      deferred, timers, nextTimerId := [], [], 1;
    }

    method SetTimeout(now: nat, delay: int) returns (id: nat)
      modifies this`timers, this`nextTimerId
      ensures id == old(nextTimerId) && nextTimerId == id + 1
      ensures timers == old(timers) + [Timer(id, now + delay)]
    {
      id := nextTimerId;
      nextTimerId := nextTimerId + 1;
      timers := timers + [Timer(id, now + delay)];
    }

    /** The pass of erase_if over the list. */
    method ClearTimeout(id: nat)
      modifies this`timers
      ensures timers == WithoutId(old(timers), id)
    {
      var kept: seq<Timer> := [];
      ghost var keep := (t: Timer) => t.id != id;
      for i := 0 to |timers|
        invariant timers == old(timers)
        invariant kept == Select(timers[..i], keep)
      {
        SelectStep(timers, i, keep);
        if timers[i].id != id {
          kept := kept + [timers[i]];
        }
      }
      assert timers[..|timers|] == timers;
      timers := kept;
    }

    /** The scan for the soonest deadline. */
    method ChooseTimeout(now: nat) returns (timeout: Option<nat>)
      ensures timeout == NextTimeout(deferred == [], timers, now)
    {
      if deferred != [] {
        return Some(0);
      }
      if timers == [] {
        return None;
      }
      var soonest := timers[0].when;
      for i := 0 to |timers|
        invariant forall j :: 0 <= j < i ==> soonest <= timers[j].when
        invariant exists j :: 0 <= j < |timers| && timers[j].when == soonest
      {
        if timers[i].when < soonest {
          soonest := timers[i].when;
        }
      }
      assert soonest == Soonest(timers);
      return if soonest <= now then Some(0) else Some((soonest - now) / NS_PER_MS);
    }

    /** The harvest: due timers are moved out by erasing them in place, the others keep their order. */
    method HarvestDue(now: nat) returns (due: seq<Timer>)
      modifies this`timers
      ensures due == Due(old(timers), now)
      ensures timers == NotDue(old(timers), now)
    {
      hide Select;
      due := [];
      ghost var all := timers;
      ghost var seen := 0;
      ghost var isDue := (t: Timer) => t.when <= now;
      ghost var isNot := (t: Timer) => t.when > now;
      var it := 0;
      NothingSelected(isDue);
      NothingSelected(isNot);
      while it < |timers|
        invariant 0 <= seen <= |all| && 0 <= it <= |timers|
        invariant timers[it..] == all[seen..]
        invariant timers[..it] == Select(all[..seen], isNot)
        invariant due == Select(all[..seen], isDue)
        decreases |all| - seen
      {
        var t := timers[it];
        assert t == timers[it..][0] == all[seen];
        SelectStep(all, seen, isDue);
        SelectStep(all, seen, isNot);
        assert timers[it + 1..] == timers[it..][1..] == all[seen..][1..] == all[seen + 1..];
        seen := seen + 1;
        if t.when <= now {
          due := due + [t];
          ghost var before := timers;
          timers := timers[..it] + timers[it + 1..];
          assert timers[..it] == before[..it] && timers[it..] == before[it + 1..];
        } else {
          assert timers[..it + 1] == timers[..it] + [t];
          it := it + 1;
        }
      }
      assert all[..seen] == all && timers[..it] == timers;
    }
  }

  lemma NothingSelected(keep: Timer -> bool)
    ensures Select([], keep) == []
  {
  }

  lemma SelectStep(timers: seq<Timer>, i: nat, keep: Timer -> bool)
    requires i < |timers|
    ensures Select(timers[..i + 1], keep)
         == Select(timers[..i], keep) + if keep(timers[i]) then [timers[i]] else []
  {
    assert timers[..i + 1] == timers[..i] + [timers[i]];
    SelectAppend(timers[..i], [timers[i]], keep);
    assert [timers[i]][1..] == [];
  }
}
