/**
 * `DownloadQueue`, the facade over the storage, the event registry, the statistics and the
 * processor. Task ids, clock readings and handler outcomes are parameters.
 */
module QueueFacade {
  import opened Wrappers
  import opened Text
  import opened QueueTask
  import opened QueueStorage
  import opened QueueEvents
  import opened QueueStats
  import opened QueueProcessor

  const DefaultMaxHistory := 1000
  const DefaultThroughputWindow := 300.0

  /** The message of a cancelled queued task. */
  function CancelledMessage(taskId: string): string
  {
    "任务 " + taskId + " 已取消"
  }

  /** The message of an unknown task id. */
  function NotFoundMessage(taskId: string): string
  {
    "未找到任务 " + taskId
  }

  /** The reply of `cancel_user_tasks` for `count` removed tasks. */
  function CancelUserMessage(count: nat): string
  {
    if count > 0 then "已取消 " + IntToString(count) + " 个任务" else "没有找到该用户的任务"
  }

  class DownloadQueue {
    const storage: TaskQueue
    const events: QueueEventEmitter
    const stats: QueueStatsCollector
    const taskTimeout: nat
    var processor: TaskProcessor?

    /** The parts are sound, and a processor works on this queue's registry and statistics. */
    ghost predicate Valid()
      reads this, storage, events, stats
    {
      storage.Valid() && events.Valid() && stats.Valid()
      && (processor != null ==> processor.events == events && processor.stats == stats && processor.taskTimeout == taskTimeout)
    }

    /** A processor exists exactly when a download function is given. */
    constructor (maxSize: int, taskTimeout: nat, hasDownloadFn: bool)
      ensures Valid() && fresh(storage) && fresh(events) && fresh(stats)
      ensures storage.maxSize == maxSize && storage.tasks == [] && events.subs == map[]
      ensures stats.timings == [] && stats.TotalTasks() == 0
      ensures this.taskTimeout == taskTimeout
      ensures processor != null <==> hasDownloadFn
      ensures processor != null ==> fresh(processor) && !processor.running && processor.currentTask == null
    {
      var st := new TaskQueue(maxSize);
      var ev := new QueueEventEmitter();
      var sc := new QueueStatsCollector(DefaultMaxHistory, DefaultThroughputWindow);
      storage := st;
      events := ev;
      stats := sc;
      this.taskTimeout := taskTimeout;
      if hasDownloadFn {
        processor := new TaskProcessor(ev, sc, taskTimeout);
      } else {
        processor := null;
      }
    }

    /** `set_download_function`: a given function replaces the processor by a new, stopped one. */
    method SetDownloadFunction(fnGiven: bool)
      requires Valid()
      modifies this
      ensures Valid()
      ensures fnGiven ==> processor != null && fresh(processor) && !processor.running && processor.currentTask == null
      ensures !fnGiven ==> processor == old(processor)
    {
      if fnGiven {
        processor := new TaskProcessor(events, stats, taskTimeout);
      }
    }

    /** `is_running`. */
    function IsRunning(): (r: bool)
      reads this, processor
      ensures r ==> processor != null
    {
      processor != null && processor.running
    }

    /** `current_task`. */
    function CurrentTask(): DownloadTask?
      reads this, processor
    {
      if processor != null then processor.currentTask else null
    }

    /** `start`: fails without a processor, otherwise starts it. */
    method Start(ok: nat -> bool) returns (started: bool)
      requires Valid()
      modifies processor, events
      ensures Valid()
      ensures processor == null ==> !started && unchanged(events)
      ensures processor != null ==> started == !old(processor.running) && processor.running
    {
      if processor == null {
        return false;
      }
      started := processor.Start(ok);
    }

    /** `stop`: trivially succeeds without a processor, otherwise stops it. */
    method Stop(stopsInTime: bool, ok: nat -> bool) returns (stopped: bool)
      requires Valid()
      modifies processor, events
      ensures Valid()
      ensures processor == null ==> stopped && unchanged(events)
      ensures processor != null ==> !processor.running
      ensures processor != null && !old(processor.running) ==> stopped
    {
      if processor == null {
        return true;
      }
      stopped := processor.Stop(stopsInTime, ok);
    }

    /**
     * `enqueue`: a new pending task is offered to the storage; only an accepted task is
     * announced and returned.
     */
    method Enqueue(taskId: string, url: string, quality: string, userId: string, userName: string,
                   unifiedMsgOrigin: string, qualityDisplay: string, songName: Option<string>,
                   priority: TaskPriority, now: real, ok: nat -> bool)
      returns (success: bool, message: string, task: DownloadTask?)
      requires Valid()
      modifies storage, events
      ensures Valid()
      ensures success <==> task != null
      ensures success <==> !old(storage.IsFull()) && taskId !in old(storage.byId)
                           && old(FirstDuplicate(UserIds(storage.byUser, userId), storage.byId, url)).None?
      ensures !success ==> unchanged(storage) && unchanged(events)
      ensures success ==>
        fresh(task) && task.taskId == taskId && task.url == url && task.userId == userId
        && task.priority == priority && task.createdAt == now && task.status == Pending
        && storage.tasks == InsertByKey(task, old(storage.tasks)) && storage.byId == old(storage.byId)[taskId := task]
        && message == "已加入队列，位置：第 " + IntToString(PositionOf(storage.tasks, taskId)) + " 位"
        && events.subs == Emitted(old(events.subs), TaskEnqueued, ok)
    {
      var t := new DownloadTask(taskId, url, quality, qualityDisplay, userId, userName,
                                unifiedMsgOrigin, songName, priority, now);
      success, message := storage.Push(t);
      if success {
        var _ := events.Emit(TaskEnqueued, ok);
        task := t;
      } else {
        task := null;
      }
    }

    /** The processor's current task has this id. */
    predicate IsCurrent(taskId: string)
      reads this, processor, if processor != null then {processor.currentTask} else {}
    {
      processor != null && processor.currentTask != null && processor.currentTask.taskId == taskId
    }

    /**
     * `cancel_task`: the current task is left to `cancel_current` and the storage is not
     * touched; a queued task is removed, cancelled, announced and recorded; an unknown id fails.
     */
    method CancelTask(taskId: string, now: real, ok: nat -> bool) returns (success: bool, message: string)
      requires Valid()
      modifies storage, events, stats, storage.byId.Values
      ensures Valid()
      ensures old(IsCurrent(taskId)) ==>
        success == old(processor.CancelCurrent())
        && message == (if success then "正在取消当前任务" else "无法取消正在处理的任务")
        && unchanged(storage) && unchanged(events) && unchanged(stats) && unchanged(old(storage.byId.Values))
      ensures !old(IsCurrent(taskId)) && taskId !in old(storage.byId) ==>
        !success && message == NotFoundMessage(taskId)
        && unchanged(storage) && unchanged(events) && unchanged(stats) && unchanged(old(storage.byId.Values))
      ensures !old(IsCurrent(taskId)) && taskId in old(storage.byId) ==>
        success && message == CancelledMessage(taskId)
        && storage.byId == old(storage.byId) - {taskId}
        && (forall t :: t in storage.tasks <==> t in old(storage.tasks) && t.taskId != taskId)
        && (CanTransition(old(storage.byId[taskId].status), Cancelled) ==> old(storage.byId[taskId]).status == Cancelled)
        && events.subs == Emitted(old(events.subs), TaskCancelled, ok)
        && stats.totalCancelled == old(stats.totalCancelled) + 1 && stats.TotalTasks() == old(stats.TotalTasks()) + 1
    {
      if IsCurrent(taskId) {
        success := processor.CancelCurrent();
        message := if success then "正在取消当前任务" else "无法取消正在处理的任务";
        return;
      }
      var r := storage.Remove(taskId);
      if r.None? {
        return false, NotFoundMessage(taskId);
      }
      CancelQueued(r.value, now, ok);
      return true, CancelledMessage(taskId);
    }
  
    /**
     * `cancel_user_tasks`: every queued task of the user is removed from the storage, then
     * each is cancelled, announced and recorded; the count is how many were removed.
     * `ok(j)` gives the handler outcomes of the `j`-th announcement.
     */
    method CancelUserTasks(userId: string, now: real, ok: nat -> (nat -> bool)) returns (count: nat, message: string)
      requires Valid()
      modifies storage, events, stats, storage.byId.Values
      ensures Valid()
      ensures count == |old(storage.GetUserTasks(userId))| && message == CancelUserMessage(count)
      ensures forall t :: t in storage.tasks <==> t in old(storage.tasks) && t.userId != userId
      ensures storage.byUser == old(storage.byUser) - {userId}
      ensures forall t :: t in old(storage.GetUserTasks(userId)) ==>
        t.status == if CanTransition(old(t.status), Cancelled) then Cancelled else old(t.status)
      ensures forall t :: t in old(storage.byId).Values && t !in old(storage.GetUserTasks(userId)) ==>
        t.status == old(t.status)
      ensures events.subs == EmittedEach(old(events.subs), TaskCancelled, ok, count)
      ensures events.order == old(events.order)
      ensures stats.totalCancelled == old(stats.totalCancelled) + count
      ensures stats.TotalTasks() == old(stats.TotalTasks()) + count
      ensures stats.totalCompleted == old(stats.totalCompleted) && stats.totalFailed == old(stats.totalFailed)
      ensures stats.totalTimeout == old(stats.totalTimeout)
    {
      var removed := TakeUserTasks(userId);
      CancelEach(removed, now, ok);
      count := |removed|;
      message := CancelUserMessage(count);
    }

    /** The storage half of `cancel_user_tasks`: the user's tasks, taken out of the storage. */
    method TakeUserTasks(userId: string) returns (removed: seq<DownloadTask>)
      requires Valid()
      modifies storage
      ensures Valid()
      ensures removed == old(storage.GetUserTasks(userId))
      ensures forall t :: t in storage.tasks <==> t in old(storage.tasks) && t.userId != userId
      ensures storage.byUser == old(storage.byUser) - {userId}
      ensures forall t :: t in removed ==> t in old(storage.byId).Values
    {
      removed := storage.RemoveUserTasks(userId);
      forall t | t in removed
        ensures t in old(storage.byId).Values
      {
        assert old(storage.byId)[t.taskId] == t;
      }
    }

    /** A task taken out of the storage is cancelled, announced and recorded as cancelled. */
    method CancelQueued(task: DownloadTask, now: real, ok: nat -> bool)
      requires events.Valid() && stats.Valid()
      modifies task, events, stats
      ensures events.Valid() && stats.Valid()
      ensures task.status == if CanTransition(old(task.status), Cancelled) then Cancelled else old(task.status)
      ensures events.subs == Emitted(old(events.subs), TaskCancelled, ok) && events.order == old(events.order)
      ensures stats.totalCancelled == old(stats.totalCancelled) + 1 && stats.TotalTasks() == old(stats.TotalTasks()) + 1
      ensures stats.totalCompleted == old(stats.totalCompleted) && stats.totalFailed == old(stats.totalFailed)
      ensures stats.totalTimeout == old(stats.totalTimeout)
    {
      var _ := task.TryTransitionTo(Cancelled, now);
      var _ := events.Emit(TaskCancelled, ok);
      stats.RecordFailure(task, "cancelled", now);
    }

    /** The loop of `cancel_user_tasks`: each removed task is cancelled, announced and recorded. */
    method CancelEach(removed: seq<DownloadTask>, now: real, ok: nat -> (nat -> bool))
      requires events.Valid() && stats.Valid()
      modifies events, stats, removed
      ensures events.Valid() && stats.Valid()
      ensures forall t :: t in removed ==>
        t.status == if CanTransition(old(t.status), Cancelled) then Cancelled else old(t.status)
      ensures events.subs == EmittedEach(old(events.subs), TaskCancelled, ok, |removed|)
      ensures events.order == old(events.order)
      ensures stats.totalCancelled == old(stats.totalCancelled) + |removed|
      ensures stats.TotalTasks() == old(stats.TotalTasks()) + |removed|
      ensures stats.totalCompleted == old(stats.totalCompleted) && stats.totalFailed == old(stats.totalFailed)
      ensures stats.totalTimeout == old(stats.totalTimeout)
    {
      for j := 0 to |removed|
        invariant events.Valid() && stats.Valid()
        invariant forall t :: t in removed ==>
          t.status == if t in removed[..j] && CanTransition(old(t.status), Cancelled) then Cancelled else old(t.status)
        invariant events.subs == EmittedEach(old(events.subs), TaskCancelled, ok, j)
        invariant events.order == old(events.order)
        invariant stats.totalCancelled == old(stats.totalCancelled) + j
        invariant stats.TotalTasks() == old(stats.TotalTasks()) + j
        invariant stats.totalCompleted == old(stats.totalCompleted) && stats.totalFailed == old(stats.totalFailed)
        invariant stats.totalTimeout == old(stats.totalTimeout)
      {
        assert removed[..j + 1] == removed[..j] + [removed[j]];
        assert !CanTransition(Cancelled, Cancelled);
        CancelQueued(removed[j], now, ok(j));
      }
      assert removed[..|removed|] == removed;
    }

    /** `get_stats`: the queue's figures, with one task processing exactly while one is current. */
    function GetStats(now: real): (r: Option<Stats>)
      reads this, storage, stats, processor
      ensures r.Some? ==>
        r.value.pendingTasks == |storage.tasks| && r.value.queueSize == |storage.tasks|
        && r.value.maxQueueSize == storage.maxSize
        && (r.value.processingTasks == 1 <==> CurrentTask() != null)
        && (r.value.processingTasks == 0 <==> CurrentTask() == null)
      ensures r.None? <==> stats.timings != [] && stats.throughputWindow == 0.0
    {
      stats.GetStats(|storage.tasks|, if CurrentTask() != null then 1 else 0, |storage.tasks|, storage.maxSize, now)
    }

    /** `clear`: every queued task is dropped; the result is how many there were. */
    method Clear() returns (count: nat)
      requires Valid()
      modifies storage
      ensures Valid()
      ensures count == old(|storage.tasks|) && storage.tasks == [] && storage.byId == map[]
    {
      count := storage.Clear();
    }
  }
}
