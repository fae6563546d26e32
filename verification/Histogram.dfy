/** The two histograms: the scan per percentile, and the single merged pass over several percentiles. */
module Histogram {
  import opened Wire
  import opened HistogramModel

  // ----- Targets of the merged pass ------------------------------------------------------

  /** A rank to reach and the percentile that asks for it. */
  datatype Goal = Goal(target: nat, p: Ratio)

  predicate Ordered(goals: seq<Goal>) {
    forall i, j :: 0 <= i < j < |goals| ==> goals[i].target <= goals[j].target
  }

  function InsertGoal(goals: seq<Goal>, g: Goal): (r: seq<Goal>)
    requires Ordered(goals)
    ensures Ordered(r) && |r| == |goals| + 1
    ensures forall x :: x in r <==> x in goals || x == g
    ensures forall i :: 0 <= i < |r| ==>
      r[i].target <= g.target || (goals != [] && r[i].target <= goals[|goals| - 1].target)
  {
    if goals == [] || goals[|goals| - 1].target <= g.target then goals + [g]
    else
      var front, last := goals[..|goals| - 1], goals[|goals| - 1];
      assert goals == front + [last];
      InsertGoal(front, g) + [last]
  }

  /** The goals of the percentiles, lowest rank first; the order among equal ranks does not matter. */
  function Goals(ps: seq<Ratio>, n: nat): (r: seq<Goal>)
    ensures Ordered(r) && |r| == |ps|
  {
    if ps == [] then []
    else
      var p := ps[|ps| - 1];
      InsertGoal(Goals(ps[..|ps| - 1], n), Goal(Target(p, n), p))
  }

  lemma {:induction false} GoalsOf(ps: seq<Ratio>, n: nat)
    ensures forall p :: p in ps ==> Goal(Target(p, n), p) in Goals(ps, n)
    ensures forall g :: g in Goals(ps, n) ==> g.p in ps && g.target == Target(g.p, n)
  {
    if ps != [] {
      GoalsOf(ps[..|ps| - 1], n);
      assert ps == ps[..|ps| - 1] + [ps[|ps| - 1]];
    }
  }

  /** The name of a percentile in the summary: per mille, cut toward zero. */
  function Key(p: Ratio): int
  {
    if p.0 >= 0 then p.0 * 1000 / p.1 else -(-p.0 * 1000 / p.1)
  }

  /** The value that the merged pass reports for a percentile: 0 when its rank is never reached. */
  function Reported(counts: seq<nat>, n: nat, p: Ratio): nat
  {
    if n == 0 then 0
    else
      var r := FirstReaching(counts, Target(p, n), 0);
      if r.Some? then r.value else 0
  }

  /** The two histograms report the same value exactly when there are no samples or the percentile is at most one. */
  lemma SummaryAgrees(counts: seq<nat>, samples: seq<nat>, p: Ratio)
    requires Describes(counts, samples)
    ensures Reported(counts, |samples|, p) == PercentileUs(counts, |samples|, p) <==> samples == [] || p.0 <= p.1
  {
    if samples != [] {
      AgreesWithSorting(counts, samples, p);
    }
  }

  /** The largest value among those of the percentiles with the name. */
  ghost predicate Largest(counts: seq<nat>, n: nat, ps: seq<Ratio>, k: int, v: nat) {
    && (exists p :: p in ps && Key(p) == k && Reported(counts, n, p) == v)
    && (forall p :: p in ps && Key(p) == k ==> Reported(counts, n, p) <= v)
  }

  /** There is a value for the name of every percentile, and it is the largest of those with the name. */
  ghost predicate Summarises(counts: seq<nat>, n: nat, ps: seq<Ratio>, out: map<int, nat>) {
    && (forall p :: p in ps ==> Key(p) in out)
    && (forall k :: k in out ==> Largest(counts, n, ps, k, out[k]))
  }

  /** Names that no two percentiles share carry the value of their percentile. */
  lemma OwnNameOwnValue(counts: seq<nat>, n: nat, ps: seq<Ratio>, out: map<int, nat>, p: Ratio)
    requires Summarises(counts, n, ps, out) && p in ps && forall q :: q in ps && Key(q) == Key(p) ==> q == p
    ensures Key(p) in out && out[Key(p)] == Reported(counts, n, p)
  {
    assert Largest(counts, n, ps, Key(p), out[Key(p)]);
  }

  // ----- The merged pass ------------------------------------------------------------------------

  /** The goal is reached before bucket `us`, and what is reported under its name is no less. */
  predicate Met(table: seq<nat>, g: Goal, us: nat, out: map<int, nat>) {
    var r := FirstReaching(table, g.target, 0);
    r.Some? && r.value < us && Key(g.p) in out && r.value <= out[Key(g.p)]
  }

  /** The goal lies at bucket `us` or ahead of it. */
  predicate Ahead(table: seq<nat>, g: Goal, us: nat)
    requires us <= |table|
  {
    FirstReaching(table, g.target, 0) == FirstReaching(table, g.target, us)
  }

  /** The value under a name is that of one of the goals met, or still 0. */
  ghost predicate Sourced(table: seq<nat>, goals: seq<Goal>, ti: nat, k: int, v: nat)
    requires ti <= |goals|
  {
    v == 0 || exists j :: 0 <= j < ti && Key(goals[j].p) == k && FirstReaching(table, goals[j].target, 0) == Some(v)
  }

  /** The first `ti` goals are met before bucket `met`, the others lie at bucket `us` or ahead. */
  ghost predicate Passing(table: seq<nat>, goals: seq<Goal>, ti: nat, us: nat, met: nat, out: map<int, nat>)
    requires us <= |table|
  {
    && ti <= |goals|
    && (forall j :: 0 <= j < ti ==> Met(table, goals[j], met, out))
    && (forall j :: ti <= j < |goals| ==> Ahead(table, goals[j], us))
    && (forall k :: k in out ==> Sourced(table, goals, ti, k, out[k]))
  }

  /** After the buckets before `us`: the goals ahead have not been reached. */
  ghost predicate Progress(table: seq<nat>, goals: seq<Goal>, ti: nat, us: nat, out: map<int, nat>)
    requires us <= |table|
  {
    && Passing(table, goals, ti, us, us, out)
    && (forall j :: ti <= j < |goals| ==> Seen(table, us) < goals[j].target)
  }

  lemma BucketPassed(table: seq<nat>, goals: seq<Goal>, ti: nat, us: nat, out: map<int, nat>)
    requires us < |table| && ti <= |goals| && Passing(table, goals, ti, us, us + 1, out)
    requires forall j :: ti <= j < |goals| ==> Seen(table, us + 1) < goals[j].target
    ensures Progress(table, goals, ti, us + 1, out)
  {
    hide Met, Sourced;
    forall j | ti <= j < |goals| ensures Ahead(table, goals[j], us + 1) {
      assert Ahead(table, goals[j], us);
    }
  }

  lemma EmptyBucketPassed(table: seq<nat>, goals: seq<Goal>, ti: nat, us: nat, out: map<int, nat>)
    requires us < |table| && table[us] == 0 && Progress(table, goals, ti, us, out)
    ensures Progress(table, goals, ti, us + 1, out)
  {
    ProgressPasses(table, goals, ti, us, out);
    hide Passing;
    BucketPassed(table, goals, ti, us, out);
  }

  lemma NothingMet(table: seq<nat>, goals: seq<Goal>, ps: seq<Ratio>, n: nat, out: map<int, nat>)
    requires goals == Goals(ps, n)
    requires forall p :: p in ps ==> Key(p) in out
    requires forall k :: k in out ==> out[k] == 0
    ensures Progress(table, goals, 0, 0, out)
    ensures forall j :: 0 <= j < |goals| ==> Key(goals[j].p) in out
  {
    GoalsOf(ps, n);
    forall j | 0 <= j < |goals| ensures Key(goals[j].p) in out && goals[j].target > 0 {
      assert goals[j] in goals;
    }
  }

  /** What was met before a bucket was met before the next. */
  lemma ProgressPasses(table: seq<nat>, goals: seq<Goal>, ti: nat, us: nat, out: map<int, nat>)
    requires us < |table| && Progress(table, goals, ti, us, out)
    ensures Passing(table, goals, ti, us, us + 1, out) && ti <= |goals|
  {
    hide Ahead, Sourced;
    forall j | 0 <= j < ti ensures Met(table, goals[j], us + 1, out) {
      assert Met(table, goals[j], us, out);
    }
  }

  /** The next goal is reached in bucket `us`; a name that it shares takes the larger value. */
  lemma GoalReached(table: seq<nat>, goals: seq<Goal>, ti: nat, us: nat, out: map<int, nat>)
    requires us < |table| && ti < |goals| && Passing(table, goals, ti, us, us + 1, out)
    requires Seen(table, us + 1) >= goals[ti].target && Key(goals[ti].p) in out
    ensures Passing(table, goals, ti + 1, us, us + 1, out[Key(goals[ti].p) := us])
  {
    var name := Key(goals[ti].p);
    var out' := out[name := us];
    assert FirstReaching(table, goals[ti].target, 0) == Some(us) by {
      assert Ahead(table, goals[ti], us);
    }
    hide FirstReaching, Ahead, Key;
    forall j | 0 <= j < ti + 1 ensures Met(table, goals[j], us + 1, out') {
      assert j < ti ==> Met(table, goals[j], us + 1, out);
    }
    forall k | k in out' ensures Sourced(table, goals, ti + 1, k, out'[k]) {
      if k != name {
        assert Sourced(table, goals, ti, k, out[k]);
      }
    }
  }

  /** One bucket that is not empty: every goal that it reaches is met. */
  method PassBucket(ghost table: seq<nat>, goals: seq<Goal>, start: nat, us: nat, seen: nat, before: map<int, nat>)
      returns (ti: nat, out: map<int, nat>)
    requires us < |table| && seen == Seen(table, us + 1) && Ordered(goals)
    requires Progress(table, goals, start, us, before)
    requires forall j :: 0 <= j < |goals| ==> Key(goals[j].p) in before
    ensures Progress(table, goals, ti, us + 1, out) && out.Keys == before.Keys
  {
    hide Passing, Progress, Seen, Key;
    ProgressPasses(table, goals, start, us, before);
    ti, out := start, before;
    while ti < |goals| && seen >= goals[ti].target
      invariant start <= ti <= |goals| && out.Keys == before.Keys
      invariant Passing(table, goals, ti, us, us + 1, out)
    {
      GoalReached(table, goals, ti, us, out);
      out := out[Key(goals[ti].p) := us];
      ti := ti + 1;
    }
    BucketPassed(table, goals, ti, us, out);
  }

  method Zeros(ps: seq<Ratio>) returns (out: map<int, nat>)
    ensures forall p :: p in ps ==> Key(p) in out && out[Key(p)] == 0
    ensures forall k :: k in out ==> exists p :: p in ps && Key(p) == k
    ensures forall k :: k in out ==> out[k] == 0
  {
    out := map[];
    for i := 0 to |ps|
      invariant forall j :: 0 <= j < i ==> Key(ps[j]) in out
      invariant forall k :: k in out ==> out[k] == 0 && exists p :: p in ps && Key(p) == k
    {
      out := out[Key(ps[i]) := 0];
    }
  }

  lemma NothingReported(counts: seq<nat>, ps: seq<Ratio>, out: map<int, nat>)
    requires forall p :: p in ps ==> Key(p) in out
    requires forall k :: k in out ==> out[k] == 0 && exists p :: p in ps && Key(p) == k
    ensures Summarises(counts, 0, ps, out)
  {
    forall k | k in out ensures Largest(counts, 0, ps, k, out[k]) {
      var p :| p in ps && Key(p) == k;
      assert Reported(counts, 0, p) == 0;
    }
  }

  /** When the pass is over, no percentile has more than what its name reports. */
  lemma NoneLarger(table: seq<nat>, ps: seq<Ratio>, ti: nat, us: nat, out: map<int, nat>, n: nat, p: Ratio)
    requires n > 0 && us <= |table| && Progress(table, Goals(ps, n), ti, us, out)
    requires ti >= |ps| || us == |table|
    requires p in ps && Key(p) in out
    ensures Reported(table, n, p) <= out[Key(p)]
  {
    var goals := Goals(ps, n);
    GoalsOf(ps, n);
    hide Sourced, Goals, Key, Target;
    var j :| 0 <= j < |goals| && goals[j] == Goal(Target(p, n), p);
    if j < ti {
      assert Met(table, goals[j], us, out);
    } else {
      assert Ahead(table, goals[j], us);
    }
  }

  /** Once the pass is over, every name has its value. */
  lemma Settled(table: seq<nat>, ps: seq<Ratio>, ti: nat, us: nat, out: map<int, nat>, n: nat)
    requires n > 0 && us <= |table| && Progress(table, Goals(ps, n), ti, us, out)
    requires ti >= |ps| || us == |table|
    requires forall p :: p in ps ==> Key(p) in out
    requires forall k :: k in out ==> exists p :: p in ps && Key(p) == k
    ensures Summarises(table, n, ps, out)
  {
    var goals := Goals(ps, n);
    GoalsOf(ps, n);
    forall k | k in out ensures Largest(table, n, ps, k, out[k]) {
      forall p | p in ps && Key(p) == k ensures Reported(table, n, p) <= out[k] {
        NoneLarger(table, ps, ti, us, out, n, p);
      }
      assert exists p :: p in ps && Key(p) == k && Reported(table, n, p) == out[k] by {
        NameHasSource(table, ps, ti, us, out, n, k);
      }
    }
  }

  lemma NameHasSource(table: seq<nat>, ps: seq<Ratio>, ti: nat, us: nat, out: map<int, nat>, n: nat, k: int)
    requires n > 0 && us <= |table| && Progress(table, Goals(ps, n), ti, us, out) && k in out
    requires exists p :: p in ps && Key(p) == k
    requires forall p :: p in ps && Key(p) == k ==> Reported(table, n, p) <= out[k]
    ensures exists p :: p in ps && Key(p) == k && Reported(table, n, p) == out[k]
  {
    var goals := Goals(ps, n);
    GoalsOf(ps, n);
    assert Sourced(table, goals, ti, k, out[k]);
    hide Goals, Key, Target, Met, Ahead;
    if out[k] == 0 {
      var p :| p in ps && Key(p) == k;
      assert Reported(table, n, p) == 0;
    } else {
      var j :| 0 <= j < ti && Key(goals[j].p) == k && FirstReaching(table, goals[j].target, 0) == Some(out[k]);
      assert goals[j] in goals;
      assert Reported(table, n, goals[j].p) == out[k];
    }
  }

  /** Samples at or above the ceiling. */
  function Overflowed(samples: seq<nat>): nat
  {
    if samples == [] then 0
    else Overflowed(samples[..|samples| - 1]) + if Micros(samples[|samples| - 1]) >= US_CEILING then 1 else 0
  }

  // ----- Least, most and sum ---------------------------------------------------------------------

  const U64_MAX: nat := 0xFFFF_FFFF_FFFF_FFFF

  type U64 = n: nat | n <= U64_MAX

  /** What the running minimum comes to; it starts at the largest 64-bit number. */
  function Least(samples: seq<nat>): nat
  {
    if samples == [] then U64_MAX
    else
      var least, last := Least(samples[..|samples| - 1]), samples[|samples| - 1];
      if last < least then last else least
  }

  function Most(samples: seq<nat>): nat
  {
    if samples == [] then 0
    else
      var most, last := Most(samples[..|samples| - 1]), samples[|samples| - 1];
      if last > most then last else most
  }

  function Sum(samples: seq<nat>): nat
  {
    if samples == [] then 0 else Sum(samples[..|samples| - 1]) + samples[|samples| - 1]
  }

  lemma TotalsSnoc(samples: seq<nat>, ns: nat)
    ensures Sum(samples + [ns]) == Sum(samples) + ns
    ensures Least(samples + [ns]) == if ns < Least(samples) then ns else Least(samples)
    ensures Most(samples + [ns]) == if ns > Most(samples) then ns else Most(samples)
    ensures Overflowed(samples + [ns]) == Overflowed(samples) + if Micros(ns) >= US_CEILING then 1 else 0
  {
    assert (samples + [ns])[..|samples|] == samples;
  }

  /** One more sample is one more in its bucket. */
  lemma RecordedSample(counts: seq<nat>, samples: seq<nat>, ns: nat)
    requires Describes(counts, samples)
    ensures Describes(counts[Bucket(ns) := counts[Bucket(ns)] + 1], samples + [ns])
  {
    assert (samples + [ns])[..|samples|] == samples;
  }

  /** The running minimum and maximum are the least and the largest sample. */
  lemma {:induction false} ExtremesAreSamples(samples: seq<nat>)
    requires samples != [] && forall i :: 0 <= i < |samples| ==> samples[i] <= U64_MAX
    ensures Least(samples) in samples && Most(samples) in samples
    ensures forall i :: 0 <= i < |samples| ==> Least(samples) <= samples[i] <= Most(samples)
  {
    var front, last := samples[..|samples| - 1], samples[|samples| - 1];
    assert samples == front + [last];
    if front != [] {
      ExtremesAreSamples(front);
    }
  }

  // ----- The histogram -----------------------------------------------------------------------

  class LatencyHistogram {
    const counts: array<nat>
    var count: nat
    var overflow: nat
    var sumNs: nat
    var minNs: nat
    var maxNs: nat
    ghost var samples: seq<nat>

    ghost predicate Valid()
      reads this, counts
    {
      && counts.Length == US_CEILING
      && Describes(counts[..], samples)
      && count == |samples|
      && overflow == Overflowed(samples)
      && sumNs == Sum(samples) && minNs == Least(samples) && maxNs == Most(samples)
    }

    constructor ()
      ensures Valid() && fresh(counts) && samples == []
    {
      counts := new nat[US_CEILING](_ => 0);
      count, overflow, samples := 0, 0, [];
      sumNs, minNs, maxNs := 0, U64_MAX, 0;
    }

    method Record(ns: U64)
      requires Valid()
      modifies this, counts
      ensures Valid() && samples == old(samples) + [ns]
    {
      hide Describes, Overflowed, Sum, Least, Most;
      RecordedSample(counts[..], samples, ns);
      TotalsSnoc(samples, ns);
      var us := ns / 1000;
      if us >= US_CEILING {
        overflow := overflow + 1;
        us := US_CEILING - 1;
      }
      counts[us] := counts[us] + 1;
      count := count + 1;
      sumNs := sumNs + ns;
      minNs := if ns < minNs then ns else minNs;
      maxNs := if ns > maxNs then ns else maxNs;
      samples := samples + [ns];
      assert counts[..] == old(counts[..])[us := old(counts[us]) + 1];
    }

    method Reset()
      requires Valid()
      modifies this, counts
      ensures Valid() && samples == []
    {
      for i := 0 to counts.Length
        invariant counts.Length == US_CEILING
        invariant forall b :: 0 <= b < i ==> counts[b] == 0
      {
        counts[i] := 0;
      }
      count, overflow, samples := 0, 0, [];
      sumNs, minNs, maxNs := 0, U64_MAX, 0;
    }

    /** The scan: the loop stops at the first bucket that reaches the rank. */
    method Percentile(p: Ratio) returns (us: nat)
      requires Valid()
      ensures us == PercentileUs(counts[..], |samples|, p)
      ensures samples != [] && p.0 <= p.1 ==>
        var sorted := Sort(AllMicros(samples));
        var k := Target(p, |samples|);
        k <= |sorted| && us == if sorted[k - 1] < US_CEILING - 1 then sorted[k - 1] else US_CEILING - 1
    {
      hide Sort, AllMicros, Describes, Target, Overflowed, Sum, Least, Most;
      if count == 0 {
        return 0;
      }
      ghost var table := counts[..];
      AgreesWithSorting(table, samples, p);
      var target := Target(p, count);
      var seen := 0;
      for i := 0 to US_CEILING
        invariant seen == Seen(table, i)
        invariant FirstReaching(table, target, 0) == FirstReaching(table, target, i)
      {
        seen := seen + counts[i];
        if seen >= target {
          return i;
        }
      }
      return US_CEILING - 1;
    }

    /** The merged pass: empty buckets are skipped, and one bucket may meet several goals. */
    method Summary(ps: seq<Ratio>) returns (out: map<int, nat>)
      requires Valid()
      ensures Summarises(counts[..], |samples|, ps, out)
    {
      hide Progress, Describes, Goals, Key, Summarises, Overflowed, Sum, Least, Most;
      out := Zeros(ps);
      if count == 0 {
        NothingReported(counts[..], ps, out);
        return;
      }
      ghost var table := counts[..];
      var goals := Goals(ps, count);
      ghost var zeros := out;
      NothingMet(table, goals, ps, count, out);
      var ti: nat, seen := 0, 0;
      for us := 0 to US_CEILING
        invariant seen == Seen(table, us) && out.Keys == zeros.Keys
        invariant Progress(table, goals, ti, us, out)
      {
        if counts[us] == 0 {
          EmptyBucketPassed(table, goals, ti, us, out);
          continue;
        }
        seen := seen + counts[us];
        ti, out := PassBucket(table, goals, ti, us, seen, out);
        if ti >= |goals| {
          Settled(table, ps, ti, us + 1, out, count);
          return;
        }
      }
      Settled(table, ps, ti, US_CEILING, out, count);
    }
  }
}
