/**
 * The metrics registry of the wrapper manager: counters, gauges, windowed histograms, and
 * per-operation timing statistics with percentiles. Durations and values are real numbers; a
 * tag dictionary is its sequence of (key, value) items.
 */
module Metrics {
  import opened Wrappers
  import opened Text
  import opened Sorting
  import Seqs

  type Tags = seq<(string, string)>

  /** `k=v` for one tag. */
  function TagText(t: (string, string)): string { t.0 + "=" + t.1 }

  function TagTexts(ts: Tags): (r: seq<string>)
    ensures |r| == |ts| && forall i :: 0 <= i < |ts| ==> r[i] == TagText(ts[i])
  {
    if ts == [] then [] else [TagText(ts[0])] + TagTexts(ts[1..])
  }

  /**
   * `_make_key`: the bare name without tags, else `name{k=v,...}` listing the tags in sorted
   * order.
   */
  function MakeKey(name: string, tags: Tags): (key: string)
    ensures tags == [] ==> key == name
    ensures tags != [] ==> exists sorted: Tags :: SortedBy(sorted, PairLeq) && multiset(sorted) == multiset(tags)
                                              && key == name + "{" + Join(TagTexts(sorted), ",") + "}"
  {
    if tags == [] then name
    else
      var sorted := Sort(tags, PairLeq);
      PairOrder();
      SortSorted(tags, PairLeq);
      name + "{" + Join(TagTexts(sorted), ",") + "}"
  }

  /** The key does not depend on the order in which the tags were given. */
  lemma MakeKeyOrderIndependent(name: string, tags: Tags, other: Tags)
    requires multiset(tags) == multiset(other)
    ensures MakeKey(name, tags) == MakeKey(name, other)
  {
    PairOrder();
    SortOrderIndependent(tags, other, PairLeq);
    assert |tags| == |multiset(tags)| == |multiset(other)| == |other|;
  }

  /** A counter's value: what was added under `key`, 0 for a key never incremented. */
  function CounterOf(counters: map<string, real>, key: string): real
  {
    if key in counters then counters[key] else 0.0
  }

  /** `self._counters[key] += value` on a defaultdict. */
  function Increment(counters: map<string, real>, key: string, value: real): (r: map<string, real>)
    ensures CounterOf(r, key) == CounterOf(counters, key) + value
    ensures forall k :: k != key ==> CounterOf(r, k) == CounterOf(counters, k)
  {
    counters[key := CounterOf(counters, key) + value]
  }

  function ApplyIncrements(counters: map<string, real>, incs: seq<(string, real)>): map<string, real>
    decreases incs
  {
    if incs == [] then counters else ApplyIncrements(Increment(counters, incs[0].0, incs[0].1), incs[1..])
  }

  /** The sum of the increments made under `key`. */
  function SumFor(incs: seq<(string, real)>, key: string): real
  {
    if incs == [] then 0.0 else (if incs[0].0 == key then incs[0].1 else 0.0) + SumFor(incs[1..], key)
  }

  /** From an empty registry, a counter equals the sum of all increments made under its key. */
  lemma {:induction false} CounterIsSumOfIncrements(counters: map<string, real>, incs: seq<(string, real)>, key: string)
    ensures CounterOf(ApplyIncrements(counters, incs), key) == CounterOf(counters, key) + SumFor(incs, key)
    decreases incs
  {
    if incs != [] {
      CounterIsSumOfIncrements(Increment(counters, incs[0].0, incs[0].1), incs[1..], key);
    }
  }

  /** A `deque(maxlen=w)` after appending: its last `w` entries. */
  function Window(s: seq<real>, w: nat): (r: seq<real>)
    ensures |r| <= w && |r| == if |s| <= w then |s| else w
    ensures r == s[|s| - |r|..]
  {
    if |s| <= w then s else s[|s| - w..]
  }

  /**
   * `timers[-w:]` when the list is longer than `w`. Python reads `-0` as `0`, so with a window
   * of 0 the list is kept whole.
   */
  function TrimTimers(s: seq<real>, w: nat): (r: seq<real>)
    ensures w >= 1 ==> r == Window(s, w)
    ensures w == 0 ==> r == s
  {
    if |s| > w then (if w == 0 then s[0..] else s[|s| - w..]) else s
  }

  /** `int(count * p)` for the percentile p = pct/100 (rounding of the float product left out). */
  function PercentileIndex(count: nat, pct: nat): (i: nat)
    requires pct < 100
    ensures count >= 1 ==> i < count
  {
    count * pct / 100
  }

  lemma PercentileIndexMonotone(count: nat, p: nat, q: nat)
    requires p <= q < 100
    ensures PercentileIndex(count, p) <= PercentileIndex(count, q)
  {
    assert count * p <= count * q by {
      assert count * q == count * p + count * (q - p);
    }
  }

  /** `sorted` on floats. */
  function SortReals(s: seq<real>): (r: seq<real>)
    ensures SortedBy(r, RealLeq) && multiset(r) == multiset(s) && |r| == |s|
  {
    RealOrder();
    SortSorted(s, RealLeq);
    Sort(s, RealLeq)
  }

  function SumReals(s: seq<real>): real
  {
    if s == [] then 0.0 else s[0] + SumReals(s[1..])
  }

  /** The statistics of one operation. `minDuration == None` stands for `float('inf')`. */
  datatype PerformanceStats = PerformanceStats(
    operation: string, totalCount: nat, successCount: nat, failureCount: nat,
    totalDuration: real, minDuration: Option<real>, maxDuration: real, avgDuration: real,
    p50: real, p95: real, p99: real)

  function FreshStats(operation: string): PerformanceStats
  {
    PerformanceStats(operation, 0, 0, 0, 0.0, None, 0.0, 0.0, 0.0, 0.0, 0.0)
  }

  function MinOpt(m: Option<real>, d: real): real
  {
    if m.Some? && m.value <= d then m.value else d
  }

  function MaxReal(a: real, b: real): real { if a >= b then a else b }

  /** The counting part of `record_operation`: counts, total, min, max and average. */
  function Accumulate(s: PerformanceStats, duration: real, success: bool): (r: PerformanceStats)
    ensures r.totalCount == s.totalCount + 1
    ensures r.successCount == s.successCount + (if success then 1 else 0)
    ensures r.failureCount == s.failureCount + (if success then 0 else 1)
    ensures r.avgDuration == r.totalDuration / r.totalCount as real
  {
    var total := s.totalCount + 1;
    var sum := s.totalDuration + duration;
    s.(totalCount := total,
       successCount := if success then s.successCount + 1 else s.successCount,
       failureCount := if success then s.failureCount else s.failureCount + 1,
       totalDuration := sum,
       minDuration := Some(MinOpt(s.minDuration, duration)),
       maxDuration := MaxReal(s.maxDuration, duration),
       avgDuration := sum / total as real)
  }

  /** A later position of an ascending list holds no smaller value. */
  lemma SortedRealsAt(s: seq<real>, i: nat, j: nat)
    requires SortedBy(s, RealLeq) && i <= j < |s|
    ensures s[i] <= s[j]
  {
    if i < j {
      assert RealLeq(s[i], s[j]);
    }
  }

  /** `_update_percentiles` over the operation's timer window. */
  function WithPercentiles(s: PerformanceStats, times: seq<real>): (r: PerformanceStats)
    requires times != []
    ensures r.p50 in times && r.p95 in times && r.p99 in times
    ensures r.p50 <= r.p95 <= r.p99
    ensures r.operation == s.operation && r.totalCount == s.totalCount && r.successCount == s.successCount
            && r.failureCount == s.failureCount && r.totalDuration == s.totalDuration
            && r.minDuration == s.minDuration && r.maxDuration == s.maxDuration && r.avgDuration == s.avgDuration
  {
    var sorted := SortReals(times);
    var n := |sorted|;
    PercentileIndexMonotone(n, 50, 95);
    PercentileIndexMonotone(n, 95, 99);
    SortedRealsAt(sorted, PercentileIndex(n, 50), PercentileIndex(n, 95));
    SortedRealsAt(sorted, PercentileIndex(n, 95), PercentileIndex(n, 99));
    assert sorted[PercentileIndex(n, 50)] in multiset(times);
    assert sorted[PercentileIndex(n, 95)] in multiset(times);
    assert sorted[PercentileIndex(n, 99)] in multiset(times);
    s.(p50 := sorted[PercentileIndex(n, 50)],
       p95 := sorted[PercentileIndex(n, 95)],
       p99 := sorted[PercentileIndex(n, 99)])
  }

  /** The statistics after recording `ds` (duration, success) in order onto `s`. */
  function AccumulateAll(s: PerformanceStats, ds: seq<(real, bool)>): PerformanceStats
    decreases |ds|
  {
    if ds == [] then s else Accumulate(AccumulateAll(s, ds[..|ds| - 1]), ds[|ds| - 1].0, ds[|ds| - 1].1)
  }

  function Successes(ds: seq<(real, bool)>): nat
  {
    if ds == [] then 0 else (if ds[0].1 then 1 else 0) + Successes(ds[1..])
  }

  lemma SuccessesSnoc(ds: seq<(real, bool)>, d: (real, bool))
    ensures Successes(ds + [d]) == Successes(ds) + (if d.1 then 1 else 0)
  {
    if ds != [] {
      assert (ds + [d])[1..] == ds[1..] + [d];
      SuccessesSnoc(ds[1..], d);
    }
  }

  /**
   * After recording `ds` from fresh statistics: total = success + failure = |ds|, the success
   * count counts the successes, the minimum is attained and lies below every duration, and the
   * maximum (which starts at 0) lies above every duration.
   */
  lemma {:induction false} AccumulateAllStats(operation: string, ds: seq<(real, bool)>)
    ensures var r := AccumulateAll(FreshStats(operation), ds);
      r.totalCount == |ds| == r.successCount + r.failureCount
      && r.successCount == Successes(ds)
      && (ds == [] <==> r.minDuration.None?)
      && (ds != [] ==> exists i :: 0 <= i < |ds| && ds[i].0 == r.minDuration.value)
      && (forall i :: 0 <= i < |ds| ==> r.minDuration.Some? && r.minDuration.value <= ds[i].0 <= r.maxDuration)
      && r.maxDuration >= 0.0
      && (r.maxDuration == 0.0 || exists i :: 0 <= i < |ds| && ds[i].0 == r.maxDuration)
    decreases |ds|
  {
    if ds != [] {
      var init := ds[..|ds| - 1];
      var d := ds[|ds| - 1];
      AccumulateAllStats(operation, init);
      SuccessesSnoc(init, d);
      assert init + [d] == ds;
      var prev := AccumulateAll(FreshStats(operation), init);
      var r := AccumulateAll(FreshStats(operation), ds);
      assert r == Accumulate(prev, d.0, d.1);
      forall i | 0 <= i < |ds|
        ensures r.minDuration.value <= ds[i].0 <= r.maxDuration
      {
        if i < |init| {
          assert ds[i] == init[i];
        }
      }
      if r.minDuration.value != d.0 {
        var j :| 0 <= j < |init| && init[j].0 == prev.minDuration.value;
        assert ds[j] == init[j];
      } else {
        assert ds[|ds| - 1].0 == r.minDuration.value;
      }
      if r.maxDuration != 0.0 && r.maxDuration != d.0 {
        var j :| 0 <= j < |init| && init[j].0 == prev.maxDuration;
        assert ds[j] == init[j];
      } else if r.maxDuration != 0.0 {
        assert ds[|ds| - 1].0 == r.maxDuration;
      }
    }
  }

  /** What `get_histogram_stats` reports for a non-empty histogram. */
  datatype HistogramStats = HistogramStats(count: nat, min: real, max: real, avg: real, p50: real, p95: real, p99: real)

  /** The statistics read off the sorted values. */
  function SortedStats(sorted: seq<real>): HistogramStats
    requires sorted != []
  {
    var n := |sorted|;
    var p95 := if n > 20 then sorted[PercentileIndex(n, 95)] else sorted[n - 1];
    var p99 := if n > 100 then sorted[PercentileIndex(n, 99)] else sorted[n - 1];
    HistogramStats(n, sorted[0], sorted[n - 1], SumReals(sorted) / n as real,
                   sorted[PercentileIndex(n, 50)], p95, p99)
  }

  /** `get_histogram_stats` over the values of one histogram; `None` for the empty `{}`. */
  function HistogramStatsOf(values: seq<real>): (r: Option<HistogramStats>)
    ensures r.None? <==> values == []
    ensures r.Some? ==> r.value.count == |values|
  {
    if values == [] then None else Some(SortedStats(SortReals(values)))
  }

  lemma SortedLeq(s: seq<real>, i: nat, j: nat)
    requires SortedBy(s, RealLeq) && i <= j < |s|
    ensures s[i] <= s[j]
  {
    if i < j {
      assert RealLeq(s[i], s[j]);
    }
  }

  /** On sorted values the percentiles lie in order between the first and the last. */
  lemma SortedStatsOrdered(sorted: seq<real>)
    requires sorted != [] && SortedBy(sorted, RealLeq)
    ensures var h := SortedStats(sorted);
      h.min <= h.p50 <= h.p95 <= h.p99 <= h.max
      && h.p50 in sorted && h.p95 in sorted && h.p99 in sorted
      && h.min == sorted[0] && h.max == sorted[|sorted| - 1]
  {
    var n := |sorted|;
    var i50, i95, i99 := PercentileIndex(n, 50), PercentileIndex(n, 95), PercentileIndex(n, 99);
    PercentileIndexMonotone(n, 50, 95);
    PercentileIndexMonotone(n, 95, 99);
    SortedRealsAt(sorted, PercentileIndex(n, 50), PercentileIndex(n, 95));
    SortedRealsAt(sorted, PercentileIndex(n, 95), PercentileIndex(n, 99));
    var j95 := if n > 20 then i95 else n - 1;
    var j99 := if n > 100 then i99 else n - 1;
    SortedLeq(sorted, 0, i50);
    SortedLeq(sorted, i50, j95);
    SortedLeq(sorted, j95, j99);
    SortedLeq(sorted, j99, n - 1);
  }

  /**
   * The reported minimum and maximum are the least and greatest values, the percentiles lie in
   * order between them and are values of the histogram, and the average is the sum over the
   * count.
   */
  lemma HistogramStatsBounds(values: seq<real>)
    requires values != []
    ensures var h := HistogramStatsOf(values).value;
      h.min in values && h.max in values
      && (forall v :: v in values ==> h.min <= v <= h.max)
      && h.min <= h.p50 <= h.p95 <= h.p99 <= h.max
      && h.p50 in values && h.p95 in values && h.p99 in values
      && h.avg == SumReals(values) / |values| as real
  {
    var sorted := SortReals(values);
    var n := |sorted|;
    SortedStatsOrdered(sorted);
    forall v | v in values
      ensures sorted[0] <= v <= sorted[n - 1]
    {
      assert v in multiset(sorted);
      var k :| 0 <= k < n && sorted[k] == v;
      SortedLeq(sorted, 0, k);
      SortedLeq(sorted, k, n - 1);
    }
    forall k | 0 <= k < n
      ensures sorted[k] in values
    {
      assert sorted[k] in multiset(values);
    }
    SumRealsPermutation(sorted, values);

  }

  lemma {:induction false} SumRealsRemove(s: seq<real>, i: nat)
    requires i < |s|
    ensures SumReals(s) == s[i] + SumReals(s[..i] + s[i + 1..])
  {
    if i > 0 {
      SumRealsRemove(s[1..], i - 1);
      assert s[1..][..i - 1] + s[1..][i..] == (s[..i] + s[i + 1..])[1..];
    } else {
      assert s[..0] + s[1..] == s[1..];
    }
  }

  /** The sum of a sequence does not depend on its order. */
  lemma {:induction false} SumRealsPermutation(s: seq<real>, t: seq<real>)
    requires multiset(s) == multiset(t)
    ensures SumReals(s) == SumReals(t)
    decreases |s|
  {
    if s == [] {
      assert |multiset(t)| == 0;
    } else {
      assert s[0] in multiset(t);
      var i :| 0 <= i < |t| && t[i] == s[0];
      SumRealsRemove(t, i);
      var rest := t[..i] + t[i + 1..];
      assert t == t[..i] + [t[i]] + t[i + 1..];
      assert multiset(rest) == multiset(t) - multiset{t[i]};
      assert s == [s[0]] + s[1..];
      assert multiset(s[1..]) == multiset(s) - multiset{s[0]};
      SumRealsPermutation(s[1..], rest);
    }
  }

  class MetricsCollector {
    const windowSize: nat
    var counters: map<string, real>
    var gauges: map<string, real>
    var histograms: map<string, seq<real>>
    var timers: map<string, seq<real>>
    var operationStats: map<string, PerformanceStats>

    /** Every histogram keeps at most `window_size` values; every timer list has a stats entry. */
    ghost predicate Valid()
      reads this
    {
      (forall k :: k in histograms ==> |histograms[k]| <= windowSize)
      && (windowSize >= 1 ==> forall k :: k in timers ==> |timers[k]| <= windowSize)
      && (forall k :: k in timers ==> k in operationStats)
      && (forall k :: k in operationStats ==> operationStats[k].totalCount == operationStats[k].successCount + operationStats[k].failureCount)
    }

    constructor (windowSize: nat)
      ensures this.windowSize == windowSize && Valid()
      ensures counters == map[] && gauges == map[] && histograms == map[] && timers == map[] && operationStats == map[]
    {
      this.windowSize := windowSize;
      counters := map[];
      gauges := map[];
      histograms := map[];
      timers := map[];
      operationStats := map[];
    }

    /** `increment_counter`. */
    method IncrementCounter(name: string, value: real, tags: Tags)
      requires Valid()
      modifies this
      ensures Valid()
      ensures counters == Increment(old(counters), MakeKey(name, tags), value)
      ensures gauges == old(gauges) && histograms == old(histograms) && timers == old(timers)
      ensures operationStats == old(operationStats)
    {
      counters := Increment(counters, MakeKey(name, tags), value);
    }

    /** `set_gauge`. */
    method SetGauge(name: string, value: real, tags: Tags)
      requires Valid()
      modifies this
      ensures Valid()
      ensures gauges == old(gauges)[MakeKey(name, tags) := value]
      ensures counters == old(counters) && histograms == old(histograms) && timers == old(timers)
      ensures operationStats == old(operationStats)
    {
      gauges := gauges[MakeKey(name, tags) := value];
    }

    function HistogramOf(key: string): seq<real>
      reads this
    {
      if key in histograms then histograms[key] else []
    }

    /** `record_histogram`: appends to the key's bounded deque. */
    method RecordHistogram(name: string, value: real, tags: Tags)
      requires Valid()
      modifies this
      ensures Valid()
      ensures var key := MakeKey(name, tags);
        histograms == old(histograms)[key := Window(old(HistogramOf(key)) + [value], windowSize)]
      ensures counters == old(counters) && gauges == old(gauges) && timers == old(timers)
      ensures operationStats == old(operationStats)
    {
      var key := MakeKey(name, tags);
      histograms := histograms[key := Window(HistogramOf(key) + [value], windowSize)];
    }

    function TimersOf(operation: string): seq<real>
      reads this
    {
      if operation in timers then timers[operation] else []
    }

    function StatsOf(operation: string): PerformanceStats
      reads this
    {
      if operation in operationStats then operationStats[operation] else FreshStats(operation)
    }

    /**
     * `record_operation`: counts the call, folds its duration into the totals, keeps the
     * operation's most recent durations and recomputes the percentiles from them.
     */
    method RecordOperation(operation: string, durationMs: real, success: bool)
      requires Valid()
      modifies this
      ensures Valid()
      ensures var window := TrimTimers(old(TimersOf(operation)) + [durationMs], windowSize);
        timers == old(timers)[operation := window]
        && operationStats == old(operationStats)[operation := WithPercentiles(Accumulate(old(StatsOf(operation)), durationMs, success), window)]
      ensures counters == old(counters) && gauges == old(gauges) && histograms == old(histograms)
    {
      ghost var acc := Accumulate(StatsOf(operation), durationMs, success);
      ghost var window := TrimTimers(TimersOf(operation) + [durationMs], windowSize);
      ghost var before := operationStats;
      RecordCall(operation, durationMs, success);
      assert operationStats[operation] == acc && timers[operation] == window;
      ghost var final := WithPercentiles(acc, window);
      UpdatePercentiles(operation);
      Seqs.MapOverwrite(before, operation, acc, final);
    }

    /** The part of `record_operation` before the percentiles. */
    method RecordCall(operation: string, durationMs: real, success: bool)
      requires Valid()
      modifies this
      ensures Valid()
      ensures timers == old(timers)[operation := TrimTimers(old(TimersOf(operation)) + [durationMs], windowSize)]
      ensures operationStats == old(operationStats)[operation := Accumulate(old(StatsOf(operation)), durationMs, success)]
      ensures counters == old(counters) && gauges == old(gauges) && histograms == old(histograms)
    {
      var prev := StatsOf(operation);
      assert prev.totalCount == prev.successCount + prev.failureCount;
      var window := TrimTimers(TimersOf(operation) + [durationMs], windowSize);
      assert windowSize >= 1 ==> |window| <= windowSize;
      timers := timers[operation := window];
      operationStats := operationStats[operation := Accumulate(prev, durationMs, success)];
    }

    /** `_update_percentiles`: the percentiles of the operation's timer window. */
    method UpdatePercentiles(operation: string)
      requires Valid() && operation in timers && operation in operationStats && timers[operation] != []
      modifies this
      ensures Valid()
      ensures timers == old(timers) && counters == old(counters) && gauges == old(gauges) && histograms == old(histograms)
      ensures operationStats == old(operationStats)[operation := WithPercentiles(old(operationStats[operation]), timers[operation])]
    {
      var updated := WithPercentiles(operationStats[operation], timers[operation]);
      operationStats := operationStats[operation := updated];
    }

    /** `get_counter`: 0 for a key never incremented. */
    function GetCounter(name: string, tags: Tags): (v: real)
      reads this
      ensures MakeKey(name, tags) !in counters ==> v == 0.0
      ensures MakeKey(name, tags) in counters ==> v == counters[MakeKey(name, tags)]
    {
      CounterOf(counters, MakeKey(name, tags))
    }

    /** `get_gauge`: the last value set, or None. */
    function GetGauge(name: string, tags: Tags): (v: Option<real>)
      reads this
      ensures v.Some? <==> MakeKey(name, tags) in gauges
      ensures v.Some? ==> v.value == gauges[MakeKey(name, tags)]
    {
      var key := MakeKey(name, tags);
      if key in gauges then Some(gauges[key]) else None
    }

    /** `get_histogram_stats`: `None` (the empty dict) for an unknown or empty key. */
    function GetHistogramStats(name: string, tags: Tags): (r: Option<HistogramStats>)
      reads this
      ensures r.None? <==> HistogramOf(MakeKey(name, tags)) == []
      ensures r.Some? ==> r.value.count == |HistogramOf(MakeKey(name, tags))|
    {
      HistogramStatsOf(HistogramOf(MakeKey(name, tags)))
    }

    /** `get_operation_stats`. */
    function GetOperationStats(operation: string): (r: Option<PerformanceStats>)
      reads this
      requires Valid()
      ensures r.Some? <==> operation in operationStats
      ensures r.Some? ==> r.value.totalCount == r.value.successCount + r.value.failureCount
    {
      if operation in operationStats then Some(operationStats[operation]) else None
    }

    /** `reset`: every registry empty. */
    method Reset()
      modifies this
      ensures Valid()
      ensures counters == map[] && gauges == map[] && histograms == map[] && timers == map[] && operationStats == map[]
    {
      counters := map[];
      gauges := map[];
      histograms := map[];
      timers := map[];
      operationStats := map[];
    }
  }
}
