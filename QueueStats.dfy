/**
 * Statistics of the download queue: a bounded history of finished tasks, running counters per
 * outcome, and the snapshot the queue reports. Clock readings are passed in as `now`.
 */
module QueueStats {
  import opened Wrappers
  import opened QueueTask

  /** The snapshot `get_stats` returns. */
  datatype Stats = Stats(
    totalTasks: nat,
    pendingTasks: int,
    processingTasks: int,
    completedTasks: nat,
    failedTasks: nat,
    cancelledTasks: nat,
    timeoutTasks: nat,
    avgWaitTime: real,
    avgProcessTime: real,
    queueSize: int,
    maxQueueSize: int,
    throughput: real)

  /** The snapshot of a queue that has done nothing yet: every field is zero. */
  const EmptyStats := Stats(0, 0, 0, 0, 0, 0, 0, 0.0, 0.0, 0, 0, 0.0)

  /**
   * `success_rate`: completed tasks among those that completed, failed or timed out; cancelled
   * tasks do not count either way. Zero when there is nothing to divide by.
   */
  function SuccessRate(s: Stats): (r: real)
    ensures s.completedTasks + s.failedTasks + s.timeoutTasks == 0 ==> r == 0.0
    ensures s.completedTasks + s.failedTasks + s.timeoutTasks > 0 ==>
      r * (s.completedTasks + s.failedTasks + s.timeoutTasks) as real == s.completedTasks as real
    ensures 0.0 <= r <= 1.0
    ensures r == 1.0 <==> s.completedTasks > 0 && s.failedTasks == 0 && s.timeoutTasks == 0
  {
    var total := s.completedTasks + s.failedTasks + s.timeoutTasks;
    if total == 0 then 0.0
    else
      RatioFacts(s.completedTasks, total);
      s.completedTasks as real / total as real
  }

  /** A part of a positive whole, as a fraction of it. */
  lemma RatioFacts(part: nat, whole: nat)
    requires 0 < whole && part <= whole
    ensures (part as real / whole as real) * whole as real == part as real
    ensures 0.0 <= part as real / whole as real <= 1.0
    ensures part as real / whole as real == 1.0 <==> part == whole
  {
    var r := part as real / whole as real;
    assert r * whole as real == part as real;
    if r == 1.0 {
      assert part as real == whole as real;
    }
  }

  /** Cancelled tasks leave the success rate as it was. */
  lemma SuccessRateIgnoresCancelled(s: Stats, cancelled: nat)
    ensures SuccessRate(s.(cancelledTasks := cancelled)) == SuccessRate(s)
  {
  }

  /** One finished task in the history. */
  datatype TaskTiming = TaskTiming(taskId: string, waitTime: real, processTime: real, completedAt: real, success: bool)

  /** `deque(maxlen=maxLen).append(x)`: the oldest entries fall off once the deque is full. */
  function Bounded(h: seq<TaskTiming>, x: TaskTiming, maxLen: nat): (r: seq<TaskTiming>)
    ensures |r| == if |h| + 1 <= maxLen then |h| + 1 else maxLen
    ensures forall i :: 0 <= i < |r| ==> r[i] == (h + [x])[|h| + 1 - |r| + i]
    ensures maxLen > 0 ==> r[|r| - 1] == x
    ensures |h| < maxLen ==> r == h + [x]
  {
    if |h| + 1 <= maxLen then h + [x] else (h + [x])[|h| + 1 - maxLen..]
  }

  /** Number of successful timings completed at or after `start`. */
  function SuccessesSince(h: seq<TaskTiming>, start: real): (n: nat)
    ensures n <= |h|
  {
    if h == [] then 0
    else SuccessesSince(h[..|h| - 1], start) + (if h[|h| - 1].success && h[|h| - 1].completedAt >= start then 1 else 0)
  }

  /** Only timings that are successful and inside the window are counted. */
  lemma {:induction false} SuccessesSinceCounts(h: seq<TaskTiming>, start: real)
    ensures SuccessesSince(h, start) == |h| <==> forall i :: 0 <= i < |h| ==> h[i].success && h[i].completedAt >= start
    ensures SuccessesSince(h, start) == 0 <==> forall i :: 0 <= i < |h| ==> !(h[i].success && h[i].completedAt >= start)
  {
    if h != [] {
      var init := h[..|h| - 1];
      SuccessesSinceCounts(init, start);
      assert forall i :: 0 <= i < |init| ==> init[i] == h[i];
    }
  }

  /** An earlier window start counts every success a later one counts. */
  lemma {:induction false} SuccessesSinceMonotone(h: seq<TaskTiming>, early: real, late: real)
    requires early <= late
    ensures SuccessesSince(h, late) <= SuccessesSince(h, early)
  {
    if h != [] {
      SuccessesSinceMonotone(h[..|h| - 1], early, late);
    }
  }

  /** Counting successes is additive over concatenation. */
  lemma {:induction false} SuccessesSinceAppend(a: seq<TaskTiming>, b: seq<TaskTiming>, start: real)
    ensures SuccessesSince(a + b, start) == SuccessesSince(a, start) + SuccessesSince(b, start)
    decreases |b|
  {
    if b == [] {
      assert a + b == a;
    } else {
      assert (a + b)[..|a + b| - 1] == a + b[..|b| - 1];
      SuccessesSinceAppend(a, b[..|b| - 1], start);
    }
  }

  /**
   * `_calculate_throughput`: successes per minute in the window ending at `now`; zero with an
   * empty history. With history and a zero window Python divides by zero, which is `None` here.
   */
  function Throughput(h: seq<TaskTiming>, window: real, now: real): (r: Option<real>)
    ensures h == [] ==> r == Some(0.0)
    ensures r.None? <==> h != [] && window == 0.0
    ensures h != [] && r.Some? ==> r.value * window == 60.0 * SuccessesSince(h, now - window) as real
    ensures window > 0.0 && r.Some? ==> 0.0 <= r.value <= 60.0 * |h| as real / window
  {
    if h == [] then Some(0.0)
    else if window == 0.0 then None
    else Some(SuccessesSince(h, now - window) as real / (window / 60.0))
  }

  /** Python's `s[start:]` with a possibly negative `start`. */
  function SliceFrom<T>(s: seq<T>, start: int): (r: seq<T>)
    ensures |r| <= |s| && r == s[|s| - |r|..]
  {
    if start < 0 then (if -start >= |s| then s else s[|s| + start..])
    else if start >= |s| then []
    else s[start..]
  }

  /**
   * `get_recent_timings(count)`: the last `count` timings, all of them when there are fewer.
   * Python's `[-0:]` is the whole list, so a count of zero returns the whole history, and a
   * negative count drops that many of the oldest entries.
   */
  function RecentTimings(h: seq<TaskTiming>, count: int): (r: seq<TaskTiming>)
    ensures |r| <= |h| && r == h[|h| - |r|..]
    ensures count > 0 ==> |r| == if count <= |h| then count else |h|
    ensures count == 0 ==> r == h
    ensures count < 0 ==> |r| == if -count <= |h| then |h| + count else 0
  {
    SliceFrom(h, -count)
  }

  /** `QueueStatsCollector`: the bounded timing history and the running totals. */
  class QueueStatsCollector {
    const maxHistory: nat
    const throughputWindow: real
    var timings: seq<TaskTiming>
    var totalCompleted: nat
    var totalFailed: nat
    var totalCancelled: nat
    var totalTimeout: nat
    var totalWaitTime: real
    var totalProcessTime: real

    predicate Valid()
      reads this
    {
      |timings| <= maxHistory
    }

    /** Every outcome recorded so far, whatever it was. */
    function TotalTasks(): (n: nat)
      reads this
      ensures n >= totalCompleted && n >= totalFailed && n >= totalCancelled && n >= totalTimeout
      ensures n == 0 <==> totalCompleted == 0 && totalFailed == 0 && totalCancelled == 0 && totalTimeout == 0
    {
      totalCompleted + totalFailed + totalCancelled + totalTimeout
    }

    constructor (maxHistory: nat, throughputWindow: real)
      ensures Valid()
      ensures this.maxHistory == maxHistory && this.throughputWindow == throughputWindow
      ensures timings == [] && TotalTasks() == 0 && totalWaitTime == 0.0 && totalProcessTime == 0.0
    {
      this.maxHistory := maxHistory;
      this.throughputWindow := throughputWindow;
      timings := [];
      totalCompleted, totalFailed, totalCancelled, totalTimeout := 0, 0, 0, 0;
      totalWaitTime, totalProcessTime := 0.0, 0.0;
    }

    /** `record_completion`: a successful timing joins the history and the completed counter grows. */
    method RecordCompletion(task: DownloadTask, now: real)
      requires Valid()
      modifies this
      ensures Valid()
      ensures timings == Bounded(old(timings), TaskTiming(task.taskId, task.Wait(now), task.Process(now), now, true), maxHistory)
      ensures totalCompleted == old(totalCompleted) + 1 && TotalTasks() == old(TotalTasks()) + 1
      ensures totalFailed == old(totalFailed) && totalCancelled == old(totalCancelled) && totalTimeout == old(totalTimeout)
      ensures totalWaitTime == old(totalWaitTime) + task.Wait(now)
      ensures totalProcessTime == old(totalProcessTime) + task.Process(now)
    {
      var timing := TaskTiming(task.taskId, task.Wait(now), task.Process(now), now, true);
      timings := Bounded(timings, timing, maxHistory);
      totalCompleted := totalCompleted + 1;
      totalWaitTime := totalWaitTime + task.Wait(now);
      totalProcessTime := totalProcessTime + task.Process(now);
    }

    /**
     * `record_failure`: an unsuccessful timing joins the history; `"timeout"` and `"cancelled"`
     * have their own counters and every other reason counts as a failure.
     */
    method RecordFailure(task: DownloadTask, reason: string, now: real)
      requires Valid()
      modifies this
      ensures Valid()
      ensures timings == Bounded(old(timings), TaskTiming(task.taskId, task.Wait(now), task.Process(now), now, false), maxHistory)
      ensures totalCompleted == old(totalCompleted) && TotalTasks() == old(TotalTasks()) + 1
      ensures totalTimeout == old(totalTimeout) + (if reason == "timeout" then 1 else 0)
      ensures totalCancelled == old(totalCancelled) + (if reason == "cancelled" then 1 else 0)
      ensures totalFailed == old(totalFailed) + (if reason != "timeout" && reason != "cancelled" then 1 else 0)
      ensures totalWaitTime == old(totalWaitTime) + task.Wait(now)
      ensures totalProcessTime == old(totalProcessTime) + task.Process(now)
    {
      var timing := TaskTiming(task.taskId, task.Wait(now), task.Process(now), now, false);
      timings := Bounded(timings, timing, maxHistory);
      if reason == "timeout" {
        totalTimeout := totalTimeout + 1;
      } else if reason == "cancelled" {
        totalCancelled := totalCancelled + 1;
      } else {
        totalFailed := totalFailed + 1;
      }
      totalWaitTime := totalWaitTime + task.Wait(now);
      totalProcessTime := totalProcessTime + task.Process(now);
    }

    /**
     * `get_stats`: the counters, the average wait over every recorded task, the average
     * processing time over completed tasks only, and the throughput; `None` where the
     * throughput would divide by zero.
     */
    function GetStats(pending: int, processing: int, queueSize: int, maxQueueSize: int, now: real): (r: Option<Stats>)
      reads this
      ensures r.None? <==> Throughput(timings, throughputWindow, now).None?
      ensures r.Some? ==>
        && r.value.totalTasks == r.value.completedTasks + r.value.failedTasks + r.value.cancelledTasks + r.value.timeoutTasks
        && r.value.completedTasks == totalCompleted && r.value.failedTasks == totalFailed
        && r.value.cancelledTasks == totalCancelled && r.value.timeoutTasks == totalTimeout
        && r.value.pendingTasks == pending && r.value.processingTasks == processing
        && r.value.queueSize == queueSize && r.value.maxQueueSize == maxQueueSize
        && Some(r.value.throughput) == Throughput(timings, throughputWindow, now)
      ensures r.Some? ==>
        (if r.value.totalTasks == 0 then r.value.avgWaitTime == 0.0
         else r.value.avgWaitTime * r.value.totalTasks as real == totalWaitTime)
      ensures r.Some? ==>
        (if totalCompleted == 0 then r.value.avgProcessTime == 0.0
         else r.value.avgProcessTime * totalCompleted as real == totalProcessTime)
    {
      var rate := Throughput(timings, throughputWindow, now);
      if rate.None? then None
      else
        var total := TotalTasks();
        var avgWait := if total > 0 then totalWaitTime / total as real else 0.0;
        var avgProcess := if totalCompleted > 0 then totalProcessTime / totalCompleted as real else 0.0;
        Some(Stats(total, pending, processing, totalCompleted, totalFailed, totalCancelled, totalTimeout,
                   avgWait, avgProcess, queueSize, maxQueueSize, rate.value))
    }

    /** `get_recent_timings`. */
    function GetRecentTimings(count: int): (r: seq<TaskTiming>)
      reads this
      ensures r == RecentTimings(timings, count)
    {
      RecentTimings(timings, count)
    }

    /** `reset`: the history and every counter go back to zero. */
    method Reset()
      modifies this
      ensures timings == [] && TotalTasks() == 0 && totalWaitTime == 0.0 && totalProcessTime == 0.0
      ensures Valid()
    {
      timings := [];
      totalCompleted, totalFailed, totalCancelled, totalTimeout := 0, 0, 0, 0;
      totalWaitTime, totalProcessTime := 0.0, 0.0;
    }
  }

  /** After a reset, the snapshot is all zeros but for the caller-supplied queue figures. */
  lemma ResetStats(c: QueueStatsCollector, pending: int, processing: int, queueSize: int, maxQueueSize: int, now: real)
    requires c.timings == [] && c.TotalTasks() == 0
    ensures c.GetStats(pending, processing, queueSize, maxQueueSize, now)
      == Some(EmptyStats.(pendingTasks := pending, processingTasks := processing, queueSize := queueSize, maxQueueSize := maxQueueSize))
    ensures SuccessRate(c.GetStats(pending, processing, queueSize, maxQueueSize, now).value) == 0.0
  {
  }

  /** The history never holds more successes in a window than timings. */
  lemma HistorySuccesses(h: seq<TaskTiming>, x: TaskTiming, maxLen: nat, start: real)
    requires |h| < maxLen
    ensures SuccessesSince(Bounded(h, x, maxLen), start)
      == SuccessesSince(h, start) + (if x.success && x.completedAt >= start then 1 else 0)
  {
    var r := h + [x];
    assert Bounded(h, x, maxLen) == r;
    assert r[..|r| - 1] == h;
  }
}
