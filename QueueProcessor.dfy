/**
 * The queue's task processor: its running flags, and what processing one task does to the
 * task, the statistics and the event registry. The polling loop itself is not modelled; a
 * task's run is split into its start (`Begin`) and its conclusion (`Finish`) so that other
 * operations can be applied while it is the current task.
 */
module QueueProcessor {
  import opened Wrappers
  import opened Text
  import opened Downloader
  import opened QueueTask
  import opened QueueEvents
  import opened QueueStats

  /** How the awaited download ended. */
  datatype RunOutcome =
    | Returned(result: Option<DownloadResult>)  // the download function returned, possibly `None`
    | TimedOut                                  // `asyncio.TimeoutError`
    | CancelledRun                              // `asyncio.CancelledError`
    | Raised(message: string)                   // any other exception, with `str(e)`

  /** `result and result.success`: a returned result object is always truthy. */
  predicate Succeeds(o: RunOutcome)
  {
    o.Returned? && o.result.Some? && o.result.value.success
  }

  /** The status a run settles the task in. */
  function OutcomeStatus(o: RunOutcome): TaskStatus
  {
    if Succeeds(o) then Completed
    else match o
      case Returned(_) => Failed
      case TimedOut => Timeout
      case CancelledRun => Cancelled
      case Raised(_) => Failed
  }

  /** The event announced when the run is settled. */
  function OutcomeEvent(o: RunOutcome): QueueEvent
  {
    match OutcomeStatus(o)
    case Completed => TaskCompleted
    case Timeout => TaskTimeout
    case Cancelled => TaskCancelled
    case _ => TaskFailed
  }

  /** The `reason` given to `record_failure`; unused for a success. */
  function OutcomeReason(o: RunOutcome): string
  {
    match o
    case TimedOut => "timeout"
    case CancelledRun => "cancelled"
    case _ => "failed"
  }

  /** `f"Task timed out after {self._task_timeout}s"` for a whole number of seconds. */
  function TimeoutMessage(timeout: nat): string
  {
    "Task timed out after " + NatToString(timeout) + ".0s"
  }

  /** The error the task is left with, or `None` when the run leaves it as it was. */
  function OutcomeError(o: RunOutcome, timeout: nat): Option<Option<string>>
  {
    if Succeeds(o) then None
    else match o
      case Returned(r) => Some(if r.Some? then r.value.error else Some("Unknown error"))
      case TimedOut => Some(Some(TimeoutMessage(timeout)))
      case CancelledRun => Some(Some("Task was cancelled"))
      case Raised(m) => Some(Some(m))
  }

  /**
   * The handlers agree with one another: a run completes exactly when it succeeds, every other
   * run records as its reason the value of the status it ends in, the event names that status,
   * and only a successful run leaves no error behind.
   */
  lemma OutcomeConsistent(o: RunOutcome, timeout: nat)
    ensures OutcomeStatus(o) == Completed <==> Succeeds(o)
    ensures OutcomeStatus(o) != Completed ==> OutcomeReason(o) == StatusValue(OutcomeStatus(o))
    ensures OutcomeStatus(o) in AllowedTransitions(Processing)
    ensures OutcomeEvent(o) == TaskCompleted <==> OutcomeStatus(o) == Completed
    ensures OutcomeEvent(o) == TaskTimeout <==> OutcomeStatus(o) == Timeout
    ensures OutcomeEvent(o) == TaskCancelled <==> OutcomeStatus(o) == Cancelled
    ensures OutcomeEvent(o) == TaskFailed <==> OutcomeStatus(o) == Failed
    ensures OutcomeError(o, timeout).None? <==> Succeeds(o)
  {
  }

  /** The message names the timeout, whose digits read back as the number of seconds. */
  lemma TimeoutMessageNames(timeout: nat)
    ensures TimeoutMessage(timeout)[..21] == "Task timed out after "
    ensures DigitsToNat(TimeoutMessage(timeout)[21..|TimeoutMessage(timeout)| - 3]) == timeout
  {
    var m := TimeoutMessage(timeout);
    assert m[21..|m| - 3] == NatToString(timeout);
    NatToStringRoundTrip(timeout);
  }

  /** `TaskProcessor`. */
  class TaskProcessor {
    const events: QueueEventEmitter
    const stats: QueueStatsCollector
    const taskTimeout: nat
    var running: bool
    var currentTask: DownloadTask?
    var hasLoop: bool  // `_processor_task is not None`

    ghost predicate Valid()
      reads this, events, stats
    {
      events.Valid() && stats.Valid()
    }

    constructor (events: QueueEventEmitter, stats: QueueStatsCollector, taskTimeout: nat)
      ensures this.events == events && this.stats == stats && this.taskTimeout == taskTimeout
      ensures !running && currentTask == null && !hasLoop
    {
      this.events := events;
      this.stats := stats;
      this.taskTimeout := taskTimeout;
      running := false;
      currentTask := null;
      hasLoop := false;
    }

    /** `start`: refuses when already running; otherwise starts the loop and announces it. */
    method Start(ok: nat -> bool) returns (started: bool)
      requires Valid()
      modifies this, events
      ensures Valid()
      ensures started == !old(running)
      ensures !started ==> unchanged(this) && unchanged(events)
      ensures started ==> running && hasLoop && currentTask == old(currentTask)
      ensures started ==> events.subs == Emitted(old(events.subs), ProcessorStarted, ok) && events.order == old(events.order)
    {
      if running {
        return false;
      }
      running := true;
      hasLoop := true;
      var _ := events.Emit(ProcessorStarted, ok);
      return true;
    }

    /**
     * `stop`: succeeds at once when not running. Otherwise the loop is told to stop; when it
     * does not finish within the timeout it is cancelled and the result is false, with no
     * event; otherwise the stop is announced.
     */
    method Stop(stopsInTime: bool, ok: nat -> bool) returns (stopped: bool)
      requires Valid()
      modifies this, events
      ensures Valid()
      ensures !old(running) ==> stopped && unchanged(this) && unchanged(events)
      ensures old(running) ==> !running && !hasLoop && currentTask == old(currentTask)
      ensures old(running) ==> (stopped <==> !old(hasLoop) || stopsInTime)
      ensures old(running) && stopped ==> events.subs == Emitted(old(events.subs), ProcessorStopped, ok) && events.order == old(events.order)
      ensures old(running) && !stopped ==> unchanged(events)
    {
      if !running {
        return true;
      }
      running := false;
      if hasLoop {
        hasLoop := false;
        if !stopsInTime {
          return false;
        }
      }
      var _ := events.Emit(ProcessorStopped, ok);
      return true;
    }

    /**
     * The start of `_process_task`: the task becomes current and moves to `Processing` at
     * `now`. A task that cannot make that move is dropped at once, with no event and no
     * statistics; otherwise the start is announced.
     */
    method Begin(task: DownloadTask, now: real, ok: nat -> bool) returns (started: bool)
      requires Valid()
      modifies this, task, events
      ensures Valid()
      ensures started == CanTransition(old(task.status), Processing)
      ensures running == old(running) && hasLoop == old(hasLoop)
      ensures !started ==> currentTask == null && unchanged(task) && unchanged(events)
      ensures started ==> currentTask == task && task.status == Processing && task.startedAt == Some(now)
      ensures started ==> task.completedAt == old(task.completedAt) && task.result == old(task.result) && task.error == old(task.error)
      ensures started ==> events.subs == Emitted(old(events.subs), TaskStarted, ok) && events.order == old(events.order)
    {
      currentTask := task;
      started := task.TryTransitionTo(Processing, now);
      if !started {
        currentTask := null;
        return;
      }
      var _ := events.Emit(TaskStarted, ok);
    }

    /** `_handle_success`, `_handle_failure`, `_handle_timeout` and `_handle_cancelled` in one. */
    method Settle(task: DownloadTask, o: RunOutcome, now: real, ok: nat -> bool)
      requires Valid()
      modifies task, stats, events
      ensures Valid()
      ensures task.status == (if CanTransition(old(task.status), OutcomeStatus(o)) then OutcomeStatus(o) else old(task.status))
      ensures task.startedAt == old(task.startedAt)
      ensures task.completedAt == (if CanTransition(old(task.status), OutcomeStatus(o)) then Some(now) else old(task.completedAt))
      ensures task.result == (if Succeeds(o) then o.result else old(task.result))
      ensures task.error == (if Succeeds(o) then old(task.error) else OutcomeError(o, taskTimeout).value)
      ensures stats.TotalTasks() == old(stats.TotalTasks()) + 1
      ensures stats.totalCompleted == old(stats.totalCompleted) + (if Succeeds(o) then 1 else 0)
      ensures stats.totalFailed == old(stats.totalFailed) + (if OutcomeStatus(o) == Failed then 1 else 0)
      ensures stats.totalTimeout == old(stats.totalTimeout) + (if OutcomeStatus(o) == Timeout then 1 else 0)
      ensures stats.totalCancelled == old(stats.totalCancelled) + (if OutcomeStatus(o) == Cancelled then 1 else 0)
      ensures stats.timings == Bounded(old(stats.timings), TaskTiming(task.taskId, task.Wait(now), task.Process(now), now, Succeeds(o)), stats.maxHistory)
      ensures events.subs == Emitted(old(events.subs), OutcomeEvent(o), ok) && events.order == old(events.order)
    {
      if Succeeds(o) {
        task.result := o.result;
      } else {
        task.error := OutcomeError(o, taskTimeout).value;
      }
      var _ := task.TryTransitionTo(OutcomeStatus(o), now);
      if Succeeds(o) {
        stats.RecordCompletion(task, now);
      } else {
        stats.RecordFailure(task, OutcomeReason(o), now);
      }
      var _ := events.Emit(OutcomeEvent(o), ok);
    }

    /**
     * The rest of `_process_task`: the outcome settles the task, and it stops being current.
     * The result says whether the cancellation propagates to the caller.
     */
    method Finish(task: DownloadTask, o: RunOutcome, now: real, ok: nat -> bool) returns (propagates: bool)
      requires Valid()
      modifies this, task, stats, events
      ensures Valid()
      ensures propagates == o.CancelledRun?
      ensures currentTask == null && running == old(running) && hasLoop == old(hasLoop)
      ensures old(task.status) == Processing ==> task.status == OutcomeStatus(o) && task.completedAt == Some(now)
      ensures task.startedAt == old(task.startedAt)
      ensures task.result == (if Succeeds(o) then o.result else old(task.result))
      ensures task.error == (if Succeeds(o) then old(task.error) else OutcomeError(o, taskTimeout).value)
      ensures stats.TotalTasks() == old(stats.TotalTasks()) + 1
      ensures stats.totalCompleted == old(stats.totalCompleted) + (if Succeeds(o) then 1 else 0)
      ensures stats.totalFailed == old(stats.totalFailed) + (if OutcomeStatus(o) == Failed then 1 else 0)
      ensures stats.totalTimeout == old(stats.totalTimeout) + (if OutcomeStatus(o) == Timeout then 1 else 0)
      ensures stats.totalCancelled == old(stats.totalCancelled) + (if OutcomeStatus(o) == Cancelled then 1 else 0)
      ensures events.subs == Emitted(old(events.subs), OutcomeEvent(o), ok) && events.order == old(events.order)
    {
      OutcomeConsistent(o, taskTimeout);
      Settle(task, o, now, ok);
      currentTask := null;
      propagates := o.CancelledRun?;
    }

    /** `_process_task` from start to end, with the clock read at the start and at the end. */
    method ProcessTask(task: DownloadTask, o: RunOutcome, startAt: real, endAt: real, startOk: nat -> bool, endOk: nat -> bool)
      returns (started: bool, propagates: bool)
      requires Valid()
      modifies this, task, stats, events
      ensures Valid()
      ensures currentTask == null && running == old(running) && hasLoop == old(hasLoop)
      ensures started == CanTransition(old(task.status), Processing)
      ensures !started ==> !propagates && unchanged(task) && unchanged(stats) && unchanged(events)
      ensures started ==> propagates == o.CancelledRun?
      ensures started ==> task.status == OutcomeStatus(o) && task.startedAt == Some(startAt) && task.completedAt == Some(endAt)
      ensures started ==> stats.TotalTasks() == old(stats.TotalTasks()) + 1
      ensures started ==> task.result == (if Succeeds(o) then o.result else old(task.result))
      ensures started ==> task.error == (if Succeeds(o) then old(task.error) else OutcomeError(o, taskTimeout).value)
    {
      propagates := false;
      started := Begin(task, startAt, startOk);
      if started {
        propagates := Finish(task, o, endAt, endOk);
      }
    }

    /**
     * `cancel_current`: true only while a task is current and the loop exists; it asks
     * nothing and changes nothing, since the download decides whether it stops.
     */
    function CancelCurrent(): (r: bool)
      reads this
      ensures r ==> currentTask != null
      ensures !hasLoop ==> !r
      ensures currentTask != null && hasLoop ==> r
    {
      currentTask != null && hasLoop
    }
  }

  /** A run that could start and settle goes from `Pending` through `Processing` to its status. */
  lemma ProcessedRun(o: RunOutcome)
    ensures IsRun([Pending, Processing, OutcomeStatus(o)])
    ensures IsTerminal(OutcomeStatus(o))
  {
  }
}
