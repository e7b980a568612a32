/**
 * The statistics part of the harness's test-stop handler
 * (locust/locustfile_priority.py, on_test_stop): sorting, index-rule
 * percentiles, minimum, average and maximum, the split by job type and the
 * completion rate.  Latencies are integers (milliseconds of an abstract
 * clock); the index int(n * k / 100) is the exact floor.
 */
module LatencyStats {
  import opened Wrappers

  predicate Sorted(s: seq<int>)
  {
    forall i, j :: 0 <= i <= j < |s| ==> s[i] <= s[j]
  }

  function Insert(x: int, s: seq<int>): (r: seq<int>)
    requires Sorted(s)
    ensures Sorted(r) && multiset(r) == multiset(s) + multiset{x}
    ensures |r| == |s| + 1
  {
    if s == [] then [x]
    else if x <= s[0] then [x] + s
    else
      assert s == [s[0]] + s[1..];
      var t := Insert(x, s[1..]);
      assert forall k :: 0 <= k < |t| ==> t[k] in multiset(s[1..]) + multiset{x};
      LeadSorted(s[0], t);
      [s[0]] + t
  }

  lemma LeadSorted(x: int, t: seq<int>)
    requires Sorted(t) && forall k :: 0 <= k < |t| ==> x <= t[k]
    ensures Sorted([x] + t)
  {
    var r := [x] + t;
    forall i, j | 0 <= i <= j < |r|
      ensures r[i] <= r[j]
    {
      if i > 0 {
        assert r[i] == t[i - 1] && r[j] == t[j - 1];
      }
    }
  }

  /** Python's sorted(): an ascending permutation of its input. */
  function SortAsc(s: seq<int>): (r: seq<int>)
    ensures Sorted(r) && multiset(r) == multiset(s) && |r| == |s|
  {
    if s == [] then []
    else
      assert s == [s[0]] + s[1..];
      Insert(s[0], SortAsc(s[1..]))
  }

  /** int(n * k / 100) for a percentage k. */
  function PercentileIndex(n: nat, k: nat): nat
  {
    n * k / 100
  }

  /** Every element of a rearrangement of s comes from s. */
  lemma SortedFrom(s: seq<int>, r: seq<int>, i: nat)
    requires multiset(r) == multiset(s) && i < |r|
    ensures r[i] in s
  {
    assert r[i] in multiset(r);
  }

  /** The index rule never leaves the list, and a higher percentile never
      picks an earlier element; with 100 latencies it picks 50, 95 and 99. */
  lemma PercentileIndexBounds(n: nat, k: nat, k': nat)
    requires n >= 1 && k <= k' < 100
    ensures PercentileIndex(n, k) <= PercentileIndex(n, k') < n
    ensures PercentileIndex(100, 50) == 50 && PercentileIndex(100, 95) == 95 && PercentileIndex(100, 99) == 99
  {
    assert n * k <= n * k' by {
      MulMonotone(n, k, k');
    }
    assert n * k' < n * 100 by {
      MulMonotone(n, k', 99);
    }
  }

  lemma MulMonotone(n: nat, a: nat, b: nat)
    requires a <= b
    ensures n * a <= n * b
  {
  }

  function Sum(s: seq<int>): int
  {
    if s == [] then 0 else Sum(s[..|s| - 1]) + s[|s| - 1]
  }

  function SeqMin(s: seq<int>): (m: int)
    requires s != []
    ensures m in s && forall x :: x in s ==> m <= x
  {
    if |s| == 1 then s[0]
    else
      var rest := SeqMin(s[..|s| - 1]);
      assert forall x :: x in s ==> x in s[..|s| - 1] || x == s[|s| - 1];
      if s[|s| - 1] < rest then s[|s| - 1] else rest
  }

  function SeqMax(s: seq<int>): (m: int)
    requires s != []
    ensures m in s && forall x :: x in s ==> x <= m
  {
    if |s| == 1 then s[0]
    else
      var rest := SeqMax(s[..|s| - 1]);
      assert forall x :: x in s ==> x in s[..|s| - 1] || x == s[|s| - 1];
      if s[|s| - 1] > rest then s[|s| - 1] else rest
  }

  /** The latencies whose job type is jt, in order (the source's list
      comprehension over enumerate(task_types)). */
  function OfType<T(==)>(latencies: seq<int>, types: seq<T>, jt: T, k: nat): seq<int>
    requires k <= |types| <= |latencies|
  {
    if k == 0 then []
    else OfType(latencies, types, jt, k - 1) + (if types[k - 1] == jt then [latencies[k - 1]] else [])
  }

  /** Only the short category reports a 99th percentile. */
  datatype CategoryStats = CategoryStats(median: int, p95: int, p99: Option<int>)

  datatype Summary = Summary(
    completed: nat,
    submitted: nat,
    completionRate: real,
    minLatency: int,
    averageLatency: real,
    maxLatency: int,
    p50: int,
    p95: int,
    p99: int,
    shortTasks: nat,
    longTasks: nat,
    shortStats: CategoryStats,
    longStats: CategoryStats,
    sortedLatencies: seq<int>)

  /** No report without latencies; a division by zero if none were submitted. */
  datatype Report = NoCompletedTasks | ZeroSubmitted | Report(summary: Summary)

  /** A category's median (len // 2) and 95th (and for short jobs 99th) percentile;
      zeros stand for the section the source does not print when the category is empty. */
  function Category(latencies: seq<int>, withP99: bool): (c: CategoryStats)
    ensures c.p99.Some? <==> withP99 && latencies != []
    ensures latencies != [] ==> c.median in latencies && c.p95 in latencies
    ensures c.p99.Some? ==> c.p99.value in latencies
  {
    if latencies == [] then CategoryStats(0, 0, None)
    else
      var s := SortAsc(latencies);
      var n := |s|;
      PercentileIndexBounds(n, 50, 95);
      PercentileIndexBounds(n, 95, 99);
      SortedFrom(latencies, s, n / 2);
      SortedFrom(latencies, s, PercentileIndex(n, 95));
      SortedFrom(latencies, s, PercentileIndex(n, 99));
      CategoryStats(s[n / 2], s[PercentileIndex(n, 95)], if withP99 then Some(s[PercentileIndex(n, 99)]) else None)
  }

  function Summarize(latencies: seq<int>, types: seq<string>, submitted: nat): (r: Report)
    requires |types| <= |latencies|
    ensures r == NoCompletedTasks <==> latencies == []
    ensures r == ZeroSubmitted <==> latencies != [] && submitted == 0
  {
    if latencies == [] then NoCompletedTasks
    else if submitted == 0 then ZeroSubmitted
    else
      var s := SortAsc(latencies);
      var n := |s|;
      PercentileIndexBounds(n, 50, 95);
      PercentileIndexBounds(n, 95, 99);
      var short := OfType(latencies, types, "short", |types|);
      var long := OfType(latencies, types, "long", |types|);
      Report(Summary(
        n, submitted, (n as real) / (submitted as real),
        SeqMin(s), (Sum(s) as real) / (n as real), SeqMax(s),
        s[PercentileIndex(n, 50)], s[PercentileIndex(n, 95)], s[PercentileIndex(n, 99)],
        |short|, |long|, Category(short, true), Category(long, false), s))
  }

  // ---------------------------------------------------------------------------
  // Properties of the report
  // ---------------------------------------------------------------------------

  /** In a sorted permutation the first element is the minimum and the last the maximum. */
  lemma SortedEnds(s: seq<int>, r: seq<int>)
    requires s != [] && Sorted(r) && multiset(r) == multiset(s)
    ensures r != [] && r[0] == SeqMin(s) && r[|r| - 1] == SeqMax(s)
  {
    assert |r| == |multiset(r)| == |multiset(s)| == |s|;
    assert SeqMin(s) in multiset(r) && SeqMax(s) in multiset(r);
    assert r[0] in multiset(r) && r[|r| - 1] in multiset(r);
    assert r[0] in s && r[|r| - 1] in s;
    var i :| 0 <= i < |r| && r[i] == SeqMin(s);
    var j :| 0 <= j < |r| && r[j] == SeqMax(s);
    assert r[0] <= r[i] && r[j] <= r[|r| - 1];
  }

  lemma {:induction false} SumBounds(s: seq<int>, lo: int, hi: int)
    requires forall x :: x in s ==> lo <= x <= hi
    ensures |s| * lo <= Sum(s) <= |s| * hi
  {
    if s != [] {
      var init, last := s[..|s| - 1], s[|s| - 1];
      assert Sum(s) == Sum(init) + last;
      forall x | x in init
        ensures lo <= x <= hi
      {
        var k :| 0 <= k < |init| && init[k] == x;
        assert s[k] == x && s[k] in s;
      }
      SumBounds(init, lo, hi);
      assert s[|s| - 1] in s;
      MulSucc(|init|, lo);
      MulSucc(|init|, hi);
    }
  }

  lemma MulSucc(n: nat, a: int)
    ensures (n + 1) * a == n * a + a
  {
  }

  /** min = sorted[0] <= p50 <= p95 <= p99 <= sorted[n-1] = max, and
      min <= average <= max. */
  lemma SummaryOrdered(latencies: seq<int>, types: seq<string>, submitted: nat)
    requires |types| <= |latencies|
    requires Summarize(latencies, types, submitted).Report?
    ensures var m := Summarize(latencies, types, submitted).summary;
            && m.minLatency == m.sortedLatencies[0]
            && m.maxLatency == m.sortedLatencies[|m.sortedLatencies| - 1]
            && m.minLatency <= m.p50 <= m.p95 <= m.p99 <= m.maxLatency
            && m.minLatency as real <= m.averageLatency <= m.maxLatency as real
  {
    var m := Summarize(latencies, types, submitted).summary;
    var s := SortAsc(latencies);
    var n := |s|;
    SortedEnds(s, s);
    PercentileIndexBounds(n, 50, 95);
    PercentileIndexBounds(n, 95, 99);
    SumBounds(s, SeqMin(s), SeqMax(s));
    AverageBetween(Sum(s), n, SeqMin(s), SeqMax(s));
  }

  lemma AverageBetween(total: int, n: nat, lo: int, hi: int)
    requires n >= 1 && n * lo <= total <= n * hi
    ensures lo as real <= (total as real) / (n as real) <= hi as real
  {
    assert (n as real) * (lo as real) == (n * lo) as real;
    assert (n as real) * (hi as real) == (n * hi) as real;
  }

  /** A category's median (index len // 2) and percentiles lie in order
      between its smallest and its largest latency. */
  lemma CategoryOrdered(latencies: seq<int>, withP99: bool)
    requires latencies != []
    ensures var c := Category(latencies, withP99);
            && SeqMin(latencies) <= c.median <= c.p95 <= SeqMax(latencies)
            && (withP99 <==> c.p99.Some?)
            && (withP99 ==> c.p95 <= c.p99.value <= SeqMax(latencies))
  {
    var s := SortAsc(latencies);
    var n := |s|;
    SortedEnds(latencies, s);
    PercentileIndexBounds(n, 50, 95);
    PercentileIndexBounds(n, 95, 99);
    assert n / 2 == PercentileIndex(n, 50);
  }

  /** The completion rate n / submitted lies in [0, 1] when at most the
      submitted number of tasks completed. */
  lemma CompletionRateBounded(latencies: seq<int>, types: seq<string>, submitted: nat)
    requires |types| <= |latencies| <= submitted
    requires latencies != []
    ensures Summarize(latencies, types, submitted).Report?
    ensures 0.0 < Summarize(latencies, types, submitted).summary.completionRate <= 1.0
  {
    RateBounded(|latencies|, submitted);
  }

  /** The completion rate is 1.0 exactly when there are as many latencies as submissions. */
  lemma FullCompletionRate(latencies: seq<int>, types: seq<string>, submitted: nat)
    requires |types| <= |latencies|
    requires latencies != [] && submitted > 0
    ensures Summarize(latencies, types, submitted).Report?
    ensures Summarize(latencies, types, submitted).summary.completionRate == 1.0 <==> |latencies| == submitted
  {
    RateOne(|latencies|, submitted);
  }

  lemma RateOne(n: nat, submitted: nat)
    requires submitted > 0
    ensures (n as real) / (submitted as real) == 1.0 <==> n == submitted
  {
    if (n as real) / (submitted as real) == 1.0 {
      assert n as real == ((n as real) / (submitted as real)) * (submitted as real);
    }
  }

  lemma RateBounded(n: nat, submitted: nat)
    requires 1 <= n <= submitted
    ensures 0.0 < (n as real) / (submitted as real) <= 1.0
  {
  }

  /** When every job type is short or long, the two categories split the
      latencies between them: counts add up and no observation is lost. */
  lemma {:induction false} TypesPartition(latencies: seq<int>, types: seq<string>)
    requires |types| == |latencies|
    requires forall i :: 0 <= i < |types| ==> types[i] == "short" || types[i] == "long"
    ensures |OfType(latencies, types, "short", |types|)| + |OfType(latencies, types, "long", |types|)| == |latencies|
    ensures multiset(OfType(latencies, types, "short", |types|)) + multiset(OfType(latencies, types, "long", |types|))
            == multiset(latencies)
  {
    PrefixPartition(latencies, types, |types|, "short", "long");
    assert latencies[..|types|] == latencies;
    assert types[..|types|] == types;
  }

  lemma {:induction false} PrefixPartition<T>(latencies: seq<int>, types: seq<T>, k: nat, jt1: T, jt2: T)
    requires k <= |types| <= |latencies| && jt1 != jt2
    requires forall i :: 0 <= i < |types| ==> types[i] == jt1 || types[i] == jt2
    ensures |OfType(latencies, types, jt1, k)| + |OfType(latencies, types, jt2, k)| == k
    ensures multiset(OfType(latencies, types, jt1, k)) + multiset(OfType(latencies, types, jt2, k))
            == multiset(latencies[..k])
  {
    if k > 0 {
      var x := latencies[k - 1];
      PrefixPartition(latencies, types, k - 1, jt1, jt2);
      assert latencies[..k] == latencies[..k - 1] + [x];
      PartitionStep(OfType(latencies, types, jt1, k - 1), OfType(latencies, types, jt2, k - 1), latencies[..k - 1], x,
                    types[k - 1] == jt1);
    }
  }

  /** One more element joins one side of a split of p. */
  lemma PartitionStep(a: seq<int>, b: seq<int>, p: seq<int>, x: int, toFirst: bool)
    requires multiset(a) + multiset(b) == multiset(p)
    ensures toFirst ==> multiset(a + [x]) + multiset(b) == multiset(p + [x])
    ensures !toFirst ==> multiset(a) + multiset(b + [x]) == multiset(p + [x])
  {
    assert multiset(p + [x]) == multiset(p) + multiset{x};
    assert multiset(a + [x]) == multiset(a) + multiset{x};
    assert multiset(b + [x]) == multiset(b) + multiset{x};
  }
}
