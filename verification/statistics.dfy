/**
  The end-of-run summary: per operation kind, statistics over the latencies
  of its successful calls; then the failures, in log order.

  Latencies are integers here. The percentile positions are computed with
  exact integer division, and the average is not modelled.
*/
module Statistics {
  import opened Wrappers
  import opened Benchmark

  // ---------------------------------------------------------------------
  // Sorting
  // ---------------------------------------------------------------------

  predicate SortedAsc(s: seq<int>) {
    forall i, j :: 0 <= i <= j < |s| ==> s[i] <= s[j]
  }

  /** Every value of `s` is at least `lo`. */
  predicate AtLeast(s: seq<int>, lo: int) {
    forall i :: 0 <= i < |s| ==> lo <= s[i]
  }

  /** A lower bound holds of every value in the multiset of `s`. */
  lemma MemberAtLeast(x: int, s: seq<int>, lo: int)
    requires x in multiset(s) && AtLeast(s, lo)
    ensures lo <= x
  {
  }

  /** A lower bound depends only on the multiset of values. */
  lemma AtLeastPermutation(a: seq<int>, b: seq<int>, lo: int)
    requires multiset(a) == multiset(b) && AtLeast(b, lo)
    ensures AtLeast(a, lo)
  {
    forall i | 0 <= i < |a|
      ensures lo <= a[i]
    {
      assert a[i] in multiset(a);
      MemberAtLeast(a[i], b, lo);
    }
  }

  lemma SortedCons(h: int, t: seq<int>)
    requires SortedAsc(t) && AtLeast(t, h)
    ensures SortedAsc([h] + t)
  {
  }

  /** Places `x` into an ascending sequence. */
  function Insert(x: int, s: seq<int>): (r: seq<int>)
    requires SortedAsc(s)
    ensures SortedAsc(r)
    ensures multiset(r) == multiset(s) + multiset{x}
  {
    if s == [] then [x]
    else if x <= s[0] then
      assert AtLeast(s, x);
      SortedCons(x, s);
      [x] + s
    else
      var tail := s[1..];
      assert s == [s[0]] + tail;
      assert SortedAsc(tail);
      var rest := Insert(x, tail);
      assert AtLeast(tail + [x], s[0]);
      assert multiset(rest) == multiset(tail + [x]);
      AtLeastPermutation(rest, tail + [x], s[0]);
      SortedCons(s[0], rest);
      [s[0]] + rest
  }

  /** Ascending numeric order, the program's `sort((a, b) => a - b)`. */
  function SortAscending(s: seq<int>): (r: seq<int>)
    ensures SortedAsc(r)
    ensures multiset(r) == multiset(s)
  {
    if s == [] then []
    else
      assert s == [s[0]] + s[1..];
      Insert(s[0], SortAscending(s[1..]))
  }

  /** Two ascending arrangements of the same values start with the same,
      least, value. */
  lemma SortedHeads(a: seq<int>, b: seq<int>)
    requires SortedAsc(a) && SortedAsc(b) && multiset(a) == multiset(b)
    requires a != [] && b != []
    ensures a[0] == b[0]
  {
    assert AtLeast(a, a[0]) && AtLeast(b, b[0]);
    assert a[0] in multiset(b) && b[0] in multiset(a);
    MemberAtLeast(a[0], b, b[0]);
    MemberAtLeast(b[0], a, a[0]);
  }

  lemma SortedTail(a: seq<int>)
    requires SortedAsc(a) && a != []
    ensures SortedAsc(a[1..])
  {
  }

  lemma TailMultiset(a: seq<int>)
    requires a != []
    ensures multiset(a[1..]) == multiset(a) - multiset{a[0]}
  {
    assert a == [a[0]] + a[1..];
  }

  /** There is only one ascending arrangement of a multiset of numbers, so
      any correct sort, stable or not, yields what `SortAscending` does. */
  lemma {:induction false} SortedUnique(a: seq<int>, b: seq<int>)
    requires SortedAsc(a) && SortedAsc(b) && multiset(a) == multiset(b)
    ensures a == b
    decreases |a|
  {
    assert |a| == |multiset(a)| == |multiset(b)| == |b|;
    if a != [] {
      SortedHeads(a, b);
      TailMultiset(a);
      TailMultiset(b);
      SortedTail(a);
      SortedTail(b);
      SortedUnique(a[1..], b[1..]);
      assert a == [a[0]] + a[1..] && b == [b[0]] + b[1..];
    }
  }

  // ---------------------------------------------------------------------
  // Order statistics
  // ---------------------------------------------------------------------

  /** How many values of `s` are strictly below `v`. */
  function CountBelow(s: seq<int>, v: int): nat
  {
    if s == [] then 0 else (if s[0] < v then 1 else 0) + CountBelow(s[1..], v)
  }

  /** `v` is the value of rank `k` (counting from 0) in `s`: at most `k`
      values lie strictly below it and more than `k` lie at or below it.
      This says nothing about how, or whether, `s` is sorted. */
  predicate IsOrderStatistic(s: seq<int>, k: nat, v: int) {
    CountBelow(s, v) <= k < CountBelow(s, v + 1)
  }

  lemma {:induction false} CountBelowAppend(a: seq<int>, b: seq<int>, v: int)
    ensures CountBelow(a + b, v) == CountBelow(a, v) + CountBelow(b, v)
    decreases |a|
  {
    if a == [] {
      assert a + b == b;
    } else {
      assert (a + b)[1..] == a[1..] + b;
      CountBelowAppend(a[1..], b, v);
    }
  }

  /** Taking out the value at position `j`. */
  lemma RemoveAt(b: seq<int>, j: nat, v: int)
    requires j < |b|
    ensures multiset(b[..j] + b[j + 1..]) == multiset(b) - multiset{b[j]}
    ensures CountBelow(b, v) == CountBelow(b[..j] + b[j + 1..], v) + (if b[j] < v then 1 else 0)
  {
    assert b == b[..j] + [b[j]] + b[j + 1..];
    CountBelowAppend(b[..j] + [b[j]], b[j + 1..], v);
    CountBelowAppend(b[..j], [b[j]], v);
    CountBelowAppend(b[..j], b[j + 1..], v);
  }

  /** `CountBelow` depends only on the multiset of values. */
  lemma {:induction false} CountBelowPermutation(a: seq<int>, b: seq<int>, v: int)
    requires multiset(a) == multiset(b)
    ensures CountBelow(a, v) == CountBelow(b, v)
    decreases |a|
  {
    if a == [] {
      assert |b| == |multiset(b)| == 0;
    } else {
      assert a[0] in multiset(b);
      var j :| 0 <= j < |b| && b[j] == a[0];
      RemoveAt(b, j, v);
      TailMultiset(a);
      CountBelowPermutation(a[1..], b[..j] + b[j + 1..], v);
    }
  }

  lemma {:induction false} CountBelowLength(s: seq<int>, v: int)
    ensures CountBelow(s, v) <= |s|
    decreases |s|
  {
    if s != [] {
      CountBelowLength(s[1..], v);
    }
  }

  lemma {:induction false} CountBelowNone(s: seq<int>, v: int)
    requires AtLeast(s, v)
    ensures CountBelow(s, v) == 0
    decreases |s|
  {
    if s != [] {
      assert AtLeast(s[1..], v);
      CountBelowNone(s[1..], v);
    }
  }

  lemma {:induction false} CountBelowAll(s: seq<int>, v: int)
    requires forall i :: 0 <= i < |s| ==> s[i] < v
    ensures CountBelow(s, v) == |s|
    decreases |s|
  {
    if s != [] {
      assert forall i :: 0 <= i < |s[1..]| ==> s[1..][i] < v;
      CountBelowAll(s[1..], v);
    }
  }

  /** In an ascending sequence, position `k` holds the value of rank `k`. */
  lemma SortedOrderStatistic(s: seq<int>, k: nat)
    requires SortedAsc(s) && k < |s|
    ensures IsOrderStatistic(s, k, s[k])
  {
    var v := s[k];
    var lo, hi := s[..k], s[k..];
    assert s == lo + hi;
    CountBelowAppend(lo, hi, v);
    CountBelowLength(lo, v);
    assert AtLeast(hi, v);
    CountBelowNone(hi, v);
    var lo', hi' := s[..k + 1], s[k + 1..];
    assert s == lo' + hi';
    CountBelowAppend(lo', hi', v + 1);
    assert forall i :: 0 <= i < |lo'| ==> lo'[i] < v + 1;
    CountBelowAll(lo', v + 1);
  }

  /** Each position of the sorted latencies holds the value of that rank in
      the unsorted ones. */
  lemma OrderStatistics(latencies: seq<int>, sorted: seq<int>)
    requires SortedAsc(sorted) && multiset(sorted) == multiset(latencies)
    ensures forall k :: 0 <= k < |sorted| ==> IsOrderStatistic(latencies, k, sorted[k])
  {
    forall k | 0 <= k < |sorted|
      ensures IsOrderStatistic(latencies, k, sorted[k])
    {
      SortedOrderStatistic(sorted, k);
      CountBelowPermutation(sorted, latencies, sorted[k]);
      CountBelowPermutation(sorted, latencies, sorted[k] + 1);
    }
  }

  /** Position of the median in `n` sorted values: floor(n * 0.5). */
  function MedianIndex(n: nat): nat { n / 2 }

  /** Position of the 90th percentile, floor(n * 0.9) in exact arithmetic. */
  function P90Index(n: nat): nat { (9 * n) / 10 }

  /** Position of the 99th percentile, floor(n * 0.99) in exact arithmetic. */
  function P99Index(n: nat): nat { (99 * n) / 100 }

  /** For any non-empty sample, the percentile positions are valid indices
      and do not decrease from median to p90 to p99. */
  lemma IndicesInBounds(n: nat)
    requires n >= 1
    ensures 0 <= MedianIndex(n) <= P90Index(n) <= P99Index(n) < n
  {
  }

  /** Smallest value, the program's `Math.min(...latencies)`. */
  function Min(s: seq<int>): (m: int)
    requires |s| > 0
    ensures m in s
    ensures forall i :: 0 <= i < |s| ==> m <= s[i]
  {
    if |s| == 1 then s[0]
    else
      var rest := Min(s[1..]);
      assert forall i :: 1 <= i < |s| ==> s[i] == s[1..][i - 1];
      if s[0] <= rest then s[0] else rest
  }

  /** Largest value, the program's `Math.max(...latencies)`. */
  function Max(s: seq<int>): (m: int)
    requires |s| > 0
    ensures m in s
    ensures forall i :: 0 <= i < |s| ==> s[i] <= m
  {
    if |s| == 1 then s[0]
    else
      var rest := Max(s[1..]);
      assert forall i :: 1 <= i < |s| ==> s[i] == s[1..][i - 1];
      if s[0] >= rest then s[0] else rest
  }

  // ---------------------------------------------------------------------
  // Per-operation statistics
  // ---------------------------------------------------------------------

  /** What the summary reports for one operation kind (the average is not
      modelled). */
  datatype Stats = Stats(count: nat, median: int, p90: int, p99: int, min: int, max: int)

  /** Latencies of the successful results of kind `op`, in log order. */
  function Latencies(log: seq<BenchmarkResult>, op: Operation): (r: seq<int>)
    ensures |r| == CountSucceeded(log, op)
  {
    if log == [] then []
    else
      var last := log[|log| - 1];
      Latencies(log[..|log| - 1], op) + (if last.operation == op && last.success then [last.latencyMs] else [])
  }

  /** A value is among the latencies of kind `op` exactly when some
      successful entry of that kind in the log took that long. */
  lemma {:induction false} LatenciesFromLog(log: seq<BenchmarkResult>, op: Operation)
    ensures forall x :: x in Latencies(log, op) <==>
      exists i :: 0 <= i < |log| && log[i].operation == op && log[i].success && log[i].latencyMs == x
    decreases |log|
  {
    if log != [] {
      var init := log[..|log| - 1];
      var last := log[|log| - 1];
      LatenciesFromLog(init, op);
      forall x
        ensures x in Latencies(log, op) <==>
          exists i :: 0 <= i < |log| && log[i].operation == op && log[i].success && log[i].latencyMs == x
      {
        if x in Latencies(log, op) {
          if x in Latencies(init, op) {
            var i :| 0 <= i < |init| && init[i].operation == op && init[i].success && init[i].latencyMs == x;
            assert log[i] == init[i];
          } else {
            assert log[|log| - 1] == last;
          }
        }
        if exists i :: 0 <= i < |log| && log[i].operation == op && log[i].success && log[i].latencyMs == x {
          var i :| 0 <= i < |log| && log[i].operation == op && log[i].success && log[i].latencyMs == x;
          if i < |init| {
            assert init[i] == log[i];
          }
        }
      }
    }
  }

  /** One entry contributes its latency exactly when it is a success of
      kind `op`, and then exactly once. */
  lemma LatenciesOfEntry(x: BenchmarkResult, op: Operation)
    ensures Latencies([x], op) == (if x.operation == op && x.success then [x.latencyMs] else [])
  {
  }

  /** Taking latencies commutes with concatenation. With `LatenciesOfEntry`
      this fixes the latencies entry by entry: one value per successful
      entry of the kind, in log order, repeats included. */
  lemma {:induction false} LatenciesAppend(a: seq<BenchmarkResult>, b: seq<BenchmarkResult>, op: Operation)
    ensures Latencies(a + b, op) == Latencies(a, op) + Latencies(b, op)
    decreases |b|
  {
    if b == [] {
      assert a + b == a;
    } else {
      var b' := b[..|b| - 1];
      assert (a + b)[..|a + b| - 1] == a + b';
      LatenciesAppend(a, b', op);
    }
  }

  /** Statistics of a sample, or nothing for an empty one: the sample size,
      the values at the median, p90 and p99 positions of the sorted sample,
      and its least and greatest values. */
  function StatsOf(latencies: seq<int>): (r: Option<Stats>)
    ensures r.None? <==> latencies == []
    ensures r.Some? ==> r.value.count == |latencies|
    ensures r.Some? ==> r.value.min <= r.value.median <= r.value.p90 <= r.value.p99 <= r.value.max
  {
    if latencies == [] then None
    else
      var sorted := SortAscending(latencies);
      var n := |sorted|;
      SampleLength(latencies, sorted);
      IndicesInBounds(n);
      var st := Stats(n, sorted[MedianIndex(n)], sorted[P90Index(n)], sorted[P99Index(n)], Min(sorted), Max(sorted));
      assert st.min <= st.median && st.p99 <= st.max;
      Some(st)
  }

  /** Every value `StatsOf` reports is the value of its rank in the sample:
      min of rank 0, max of the last rank, and median, p90 and p99 of ranks
      n/2, 9n/10 and 99n/100. */
  lemma StatsAreOrderStatistics(latencies: seq<int>)
    requires latencies != []
    ensures var st := StatsOf(latencies).value; var n := |latencies|;
      && IsOrderStatistic(latencies, 0, st.min)
      && IsOrderStatistic(latencies, MedianIndex(n), st.median)
      && IsOrderStatistic(latencies, P90Index(n), st.p90)
      && IsOrderStatistic(latencies, P99Index(n), st.p99)
      && IsOrderStatistic(latencies, n - 1, st.max)
  {
    var sorted := SortAscending(latencies);
    var n := |sorted|;
    SampleLength(latencies, sorted);
    IndicesInBounds(n);
    StatsOfSorted(latencies, sorted, StatsOf(latencies).value);
  }

  lemma SampleLength(latencies: seq<int>, sorted: seq<int>)
    requires multiset(sorted) == multiset(latencies)
    ensures |sorted| == |latencies|
  {
    assert |sorted| == |multiset(sorted)| == |multiset(latencies)| == |latencies|;
  }

  /** The facts `StatsOf` promises, read off the sorted sample. */
  lemma StatsOfSorted(latencies: seq<int>, sorted: seq<int>, st: Stats)
    requires SortedAsc(sorted) && multiset(sorted) == multiset(latencies)
    requires |sorted| == |latencies| >= 1
    requires var n := |sorted|;
      && MedianIndex(n) <= P90Index(n) <= P99Index(n) < n
      && st == Stats(n, sorted[MedianIndex(n)], sorted[P90Index(n)], sorted[P99Index(n)], Min(sorted), Max(sorted))
    ensures var n := |latencies|;
      && IsOrderStatistic(latencies, 0, st.min)
      && IsOrderStatistic(latencies, MedianIndex(n), st.median)
      && IsOrderStatistic(latencies, P90Index(n), st.p90)
      && IsOrderStatistic(latencies, P99Index(n), st.p99)
      && IsOrderStatistic(latencies, n - 1, st.max)
  {
    var n := |sorted|;
    assert st.min == sorted[0] by {
      var i :| 0 <= i < n && sorted[i] == st.min;
    }
    assert st.max == sorted[n - 1] by {
      var i :| 0 <= i < n && sorted[i] == st.max;
    }
    OrderStatistics(latencies, sorted);
  }

  // ---------------------------------------------------------------------
  // The summary
  // ---------------------------------------------------------------------

  /** The kinds in the order the summary reports them. */
  const Operations: seq<Operation> := [ListObjects, PutObject, GetObject, DeleteObject]

  function Rank(op: Operation): nat {
    match op
    case ListObjects => 0
    case PutObject => 1
    case GetObject => 2
    case DeleteObject => 3
  }

  datatype Section = Section(operation: Operation, stats: Stats)

  /** The statistics sections; `failures` is absent when nothing failed. */
  datatype Summary = Summary(sections: seq<Section>, failures: Option<seq<BenchmarkResult>>)

  /** The kinds a list of sections reports, in order. */
  function OpsOf(sections: seq<Section>): (ops: seq<Operation>)
    ensures |ops| == |sections|
    ensures forall i :: 0 <= i < |sections| ==> ops[i] == sections[i].operation
  {
    if sections == [] then [] else [sections[0].operation] + OpsOf(sections[1..])
  }

  /** Kinds strictly in report order (hence without repeats). */
  predicate InReportOrder(ops: seq<Operation>) {
    forall i, j :: 0 <= i < j < |ops| ==> Rank(ops[i]) < Rank(ops[j])
  }

  lemma ReportOrderCons(op: Operation, ops: seq<Operation>)
    requires InReportOrder(ops)
    requires forall o :: o in ops ==> Rank(op) < Rank(o)
    ensures InReportOrder([op] + ops)
  {
  }

  /** One section per kind of `ops` that has a successful call, in the order
      of `ops`; kinds without one are skipped. */
  function Sections(log: seq<BenchmarkResult>, ops: seq<Operation>): (r: seq<Section>)
    requires InReportOrder(ops)
    ensures forall op :: op in OpsOf(r) <==> op in ops && CountSucceeded(log, op) > 0
    ensures forall i :: 0 <= i < |r| ==> StatsOf(Latencies(log, r[i].operation)) == Some(r[i].stats)
  {
    if ops == [] then []
    else
      var rest := Sections(log, ops[1..]);
      assert InReportOrder(ops[1..]);
      match StatsOf(Latencies(log, ops[0]))
      case None => rest
      case Some(st) =>
        var r := [Section(ops[0], st)] + rest;
        assert r[1..] == rest;
        assert OpsOf(r) == [ops[0]] + OpsOf(rest);
        r
  }

  /** The sections come in the order of `ops`. */
  lemma {:induction false} SectionsInReportOrder(log: seq<BenchmarkResult>, ops: seq<Operation>)
    requires InReportOrder(ops)
    ensures InReportOrder(OpsOf(Sections(log, ops)))
  {
    if ops != [] {
      assert InReportOrder(ops[1..]);
      SectionsInReportOrder(log, ops[1..]);
      var rest := Sections(log, ops[1..]);
      if StatsOf(Latencies(log, ops[0])).Some? {
        var r := Sections(log, ops);
        assert r[1..] == rest;
        assert OpsOf(r) == [ops[0]] + OpsOf(rest);
        forall op | op in OpsOf(rest)
          ensures Rank(ops[0]) < Rank(op)
        {
          var k :| 0 <= k < |ops[1..]| && ops[1..][k] == op;
          assert ops[k + 1] == op;
        }
        ReportOrderCons(ops[0], OpsOf(rest));
      }
    }
  }

  /** The unsuccessful results, in log order. */
  function Failures(log: seq<BenchmarkResult>): (r: seq<BenchmarkResult>)
    ensures forall i :: 0 <= i < |r| ==> !r[i].success
    ensures forall x :: multiset(r)[x] == (if x.success then 0 else multiset(log)[x])
    ensures forall op :: Count(r, op) == Count(log, op) - CountSucceeded(log, op)
  {
    if log == [] then []
    else
      var init := log[..|log| - 1];
      var last := log[|log| - 1];
      var rest := Failures(init);
      assert log == init + [last];
      if last.success then rest
      else
        var r := rest + [last];
        assert r[..|r| - 1] == rest;
        r
  }

  /** Filtering commutes with concatenation, so the failures keep the
      relative order they have in the log. */
  lemma {:induction false} FailuresAppend(a: seq<BenchmarkResult>, b: seq<BenchmarkResult>)
    ensures Failures(a + b) == Failures(a) + Failures(b)
    decreases |b|
  {
    if b == [] {
      assert a + b == a;
    } else {
      var b' := b[..|b| - 1];
      assert (a + b)[..|a + b| - 1] == a + b';
      FailuresAppend(a, b');
    }
  }

  /** The failure list is empty exactly when every call succeeded. */
  lemma NoFailuresIffAllSucceeded(log: seq<BenchmarkResult>)
    ensures Failures(log) == [] <==> forall i :: 0 <= i < |log| ==> log[i].success
  {
  }

  /** The whole summary: a section per kind with successes, in the fixed
      order List, Put, Get, Delete; then the failures, omitted when none. */
  function Summarize(log: seq<BenchmarkResult>): (s: Summary)
    ensures forall op :: op in OpsOf(s.sections) <==> CountSucceeded(log, op) > 0
    ensures forall i :: 0 <= i < |s.sections| ==>
      StatsOf(Latencies(log, s.sections[i].operation)) == Some(s.sections[i].stats)
    ensures InReportOrder(OpsOf(s.sections))
    ensures s.failures.None? <==> forall i :: 0 <= i < |log| ==> log[i].success
    ensures s.failures.Some? ==> s.failures.value == Failures(log) != []
  {
    var failures := Failures(log);
    NoFailuresIffAllSucceeded(log);
    SectionsInReportOrder(log, Operations);
    forall op
      ensures op in Operations
    {
      assert Operations[Rank(op)] == op;
    }
    Summary(Sections(log, Operations), if failures == [] then None else Some(failures))
  }
}
