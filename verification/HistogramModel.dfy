/** Percentiles of latency samples: by sorting, and by a table of counts per microsecond. */
module HistogramModel {
  import opened Wire

  const US_CEILING: nat := 2_000_000

  /** A percentile as an exact ratio. */
  type Ratio = p: (int, nat) | p.1 > 0 witness (1, 1)

  function Ceil(a: int, d: nat): (r: int)
    requires d > 0
    ensures (r - 1) * d < a <= r * d
  {
    var q, m := -a / d, -a % d;
    assert -a == q * d + m;
    -q
  }

  /** The rank that a percentile asks for among n samples. */
  function Target(p: Ratio, n: nat): (k: nat)
    ensures k >= 1
  {
    var k := Ceil(p.0 * n, p.1);
    if k < 1 then 1 else k
  }

  lemma CancelFactor(x: int, y: int, d: nat)
    requires d > 0 && x * d < y * d
    ensures x < y
  {
  }

  /** The rank exists exactly when the percentile is at most one. */
  lemma TargetExists(p: Ratio, n: nat)
    requires n > 0
    ensures Target(p, n) <= n <==> p.0 <= p.1
  {
    var k := Ceil(p.0 * n, p.1);
    if p.0 <= p.1 {
      assert p.0 * n <= p.1 * n;
      CancelFactor(k - 1, n, p.1);
    } else {
      assert p.0 * n > p.1 * n;
      CancelFactor(n, k, p.1);
    }
  }

  // ----- Samples -----------------------------------------------------------------------

  function Micros(ns: nat): nat
  {
    ns / 1000
  }

  /** The bucket of a sample: its whole microseconds, or the last bucket. */
  function Bucket(ns: nat): (b: nat)
    ensures b < US_CEILING
  {
    if Micros(ns) >= US_CEILING then US_CEILING - 1 else Micros(ns)
  }

  /** How many samples fall in a bucket. */
  function InBucket(samples: seq<nat>, b: nat): nat
  {
    if samples == [] then 0
    else InBucket(samples[..|samples| - 1], b) + if Bucket(samples[|samples| - 1]) == b then 1 else 0
  }

  /** How many values are at most v. */
  function AtMost(values: seq<nat>, v: nat): nat
  {
    if values == [] then 0
    else AtMost(values[..|values| - 1], v) + if values[|values| - 1] <= v then 1 else 0
  }

  function AllMicros(samples: seq<nat>): (r: seq<nat>)
    ensures |r| == |samples|
  {
    if samples == [] then [] else AllMicros(samples[..|samples| - 1]) + [Micros(samples[|samples| - 1])]
  }

  // ----- Sorting --------------------------------------------------------------------------

  predicate Sorted(values: seq<nat>) {
    forall i, j :: 0 <= i < j < |values| ==> values[i] <= values[j]
  }

  function Insert(values: seq<nat>, v: nat): (r: seq<nat>)
    requires Sorted(values)
    ensures Sorted(r) && |r| == |values| + 1
    ensures forall i :: 0 <= i < |r| ==> r[i] <= v || (values != [] && r[i] <= values[|values| - 1])
  {
    if values == [] || values[|values| - 1] <= v then values + [v]
    else Insert(values[..|values| - 1], v) + [values[|values| - 1]]
  }

  function Sort(values: seq<nat>): (r: seq<nat>)
    ensures Sorted(r) && |r| == |values|
  {
    if values == [] then [] else Insert(Sort(values[..|values| - 1]), values[|values| - 1])
  }

  lemma {:induction false} InsertPermutes(values: seq<nat>, v: nat)
    requires Sorted(values)
    ensures multiset(Insert(values, v)) == multiset(values) + multiset{v}
    decreases |values|
  {
    if values != [] && values[|values| - 1] > v {
      var front, last := values[..|values| - 1], values[|values| - 1];
      InsertPermutes(front, v);
      assert values == front + [last];
    }
  }

  lemma {:induction false} SortPermutes(values: seq<nat>)
    ensures multiset(Sort(values)) == multiset(values)
  {
    if values != [] {
      var front, last := values[..|values| - 1], values[|values| - 1];
      SortPermutes(front);
      InsertPermutes(Sort(front), last);
      assert values == front + [last];
    }
  }

  lemma {:induction false} AtMostInsert(values: seq<nat>, x: nat, v: nat)
    requires Sorted(values)
    ensures AtMost(Insert(values, x), v) == AtMost(values, v) + if x <= v then 1 else 0
    decreases |values|
  {
    if values == [] || values[|values| - 1] <= x {
      assert (values + [x])[..|values|] == values;
    } else {
      var front, last := values[..|values| - 1], values[|values| - 1];
      AtMostInsert(front, x, v);
      var r := Insert(front, x);
      assert (r + [last])[..|r|] == r;
    }
  }

  lemma {:induction false} AtMostSort(values: seq<nat>, v: nat)
    ensures AtMost(Sort(values), v) == AtMost(values, v)
  {
    if values != [] {
      var front := values[..|values| - 1];
      AtMostSort(front, v);
      AtMostInsert(Sort(front), values[|values| - 1], v);
    }
  }

  /** In sorted order the value of rank k is at most v exactly when k values are. */
  lemma {:induction false} RankByCount(sorted: seq<nat>, k: nat, v: nat)
    requires Sorted(sorted) && 1 <= k <= |sorted|
    ensures AtMost(sorted, v) >= k <==> sorted[k - 1] <= v
    ensures AtMost(sorted, v) <= |sorted|
    decreases |sorted|
  {
    var n := |sorted| - 1;
    var front := sorted[..n];
    if n == 0 {
      assert front == [];
    } else if k <= n {
      RankByCount(front, k, v);
      if AtMost(sorted, v) == k && AtMost(front, v) == k - 1 {
        assert sorted[k - 1] <= sorted[n];
      }
    } else {
      RankByCount(front, n, v);
    }
  }

  // ----- The table of counts -----------------------------------------------------------------

  /** Samples in the first `n` buckets. */
  function Seen(counts: seq<nat>, n: nat): nat
    requires n <= |counts|
  {
    if n == 0 then 0 else Seen(counts, n - 1) + counts[n - 1]
  }

  /** The first bucket by which `target` samples have been seen. */
  function FirstReaching(counts: seq<nat>, target: nat, from: nat): (r: Option<nat>)
    requires from <= |counts|
    ensures r.Some? ==> from <= r.value < |counts| && Seen(counts, r.value + 1) >= target
    ensures r.Some? ==> forall n :: from < n <= r.value ==> Seen(counts, n) < target
    ensures r.None? ==> forall n :: from < n <= |counts| ==> Seen(counts, n) < target
    decreases |counts| - from
  {
    if from == |counts| then None
    else if Seen(counts, from + 1) >= target then Some(from)
    else FirstReaching(counts, target, from + 1)
  }

  lemma {:induction false} SeenMonotone(counts: seq<nat>, i: nat, j: nat)
    requires i <= j <= |counts|
    ensures Seen(counts, i) <= Seen(counts, j)
    decreases j
  {
    if i < j {
      SeenMonotone(counts, i, j - 1);
    }
  }

  /** The counts describe the samples. */
  ghost predicate Describes(counts: seq<nat>, samples: seq<nat>) {
    |counts| == US_CEILING && forall b :: 0 <= b < US_CEILING ==> counts[b] == InBucket(samples, b)
  }

  /** Samples in a bucket below `n`. */
  function Below(samples: seq<nat>, n: nat): nat
  {
    if samples == [] then 0
    else Below(samples[..|samples| - 1], n) + if Bucket(samples[|samples| - 1]) < n then 1 else 0
  }

  lemma {:induction false} BelowStep(samples: seq<nat>, n: nat)
    ensures Below(samples, n + 1) == Below(samples, n) + InBucket(samples, n)
    ensures Below(samples, 0) == 0
  {
    if samples != [] {
      BelowStep(samples[..|samples| - 1], n);
    }
  }

  lemma {:induction false} SeenIsBelow(counts: seq<nat>, samples: seq<nat>, n: nat)
    requires Describes(counts, samples) && n <= US_CEILING
    ensures Seen(counts, n) == Below(samples, n)
    decreases n
  {
    if n > 0 {
      SeenIsBelow(counts, samples, n - 1);
      BelowStep(samples, n - 1);
    } else {
      BelowStep(samples, 0);
    }
  }

  lemma {:induction false} BelowIsAtMost(samples: seq<nat>, v: nat)
    requires v < US_CEILING
    ensures Below(samples, v + 1) == if v == US_CEILING - 1 then |samples| else AtMost(AllMicros(samples), v)
  {
    if samples != [] {
      var front := samples[..|samples| - 1];
      BelowIsAtMost(front, v);
      assert AllMicros(samples)[..|front|] == AllMicros(front);
    }
  }

  /** What percentile_us returns: the bucket found by the scan, or the last one when the scan falls through. */
  function PercentileUs(counts: seq<nat>, count: nat, p: Ratio): nat
    requires |counts| == US_CEILING
  {
    if count == 0 then 0
    else
      var r := FirstReaching(counts, Target(p, count), 0);
      if r.Some? then r.value else US_CEILING - 1
  }

  /**
   * The index agrees with sorting: the percentile is the sample of the rank asked for, in whole
   * microseconds, or the last bucket if that is smaller. The scan falls through exactly for
   * percentiles above one.
   */
  lemma AgreesWithSorting(counts: seq<nat>, samples: seq<nat>, p: Ratio)
    requires Describes(counts, samples) && samples != []
    ensures FirstReaching(counts, Target(p, |samples|), 0).Some? <==> p.0 <= p.1
    ensures p.0 <= p.1 ==>
      var k := Target(p, |samples|);
      var sorted := Sort(AllMicros(samples));
      && k <= |sorted|
      && PercentileUs(counts, |samples|, p) ==
           if sorted[k - 1] < US_CEILING - 1 then sorted[k - 1] else US_CEILING - 1
  {
    hide Target, Sort, AllMicros, Seen, InBucket;
    var k := Target(p, |samples|);
    TargetExists(p, |samples|);
    SeenIsBelow(counts, samples, US_CEILING);
    BelowIsAtMost(samples, US_CEILING - 1);
    var r := FirstReaching(counts, k, 0);
    if p.0 <= p.1 {
      assert Seen(counts, US_CEILING) >= k;
      ScanFindsRank(counts, samples, k);
    } else if r.Some? {
      SeenMonotone(counts, r.value + 1, US_CEILING);
    }
  }

  lemma SeenIsRank(counts: seq<nat>, samples: seq<nat>, k: nat, i: nat)
    requires Describes(counts, samples) && 1 <= k <= |samples|
    requires i < US_CEILING - 1
    ensures Seen(counts, i + 1) >= k <==> Sort(AllMicros(samples))[k - 1] <= i
  {
    SeenIsBelow(counts, samples, i + 1);
    BelowIsAtMost(samples, i);
    AtMostSort(AllMicros(samples), i);
    RankByCount(Sort(AllMicros(samples)), k, i);
  }

  lemma ScanFindsRank(counts: seq<nat>, samples: seq<nat>, k: nat)
    requires Describes(counts, samples) && 1 <= k <= |samples|
    requires FirstReaching(counts, k, 0).Some?
    ensures var v := Sort(AllMicros(samples))[k - 1];
      FirstReaching(counts, k, 0).value == if v < US_CEILING - 1 then v else US_CEILING - 1
  {
    var v := Sort(AllMicros(samples))[k - 1];
    var r := FirstReaching(counts, k, 0).value;
    if r < US_CEILING - 1 {
      SeenIsRank(counts, samples, k, r);
      if v < r {
        SeenIsRank(counts, samples, k, v);
      }
    } else if v < US_CEILING - 1 {
      SeenIsRank(counts, samples, k, v);
    }
  }
}
