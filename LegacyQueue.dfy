/**
 * The older single-file download queue: one pending list kept in priority order, an index of
 * tasks by id, an index of task ids by user and a bounded history. It shares the status and
 * priority enumerations with the queue package. Task ids and clock readings are parameters.
 */
module LegacyQueue {
  import opened Wrappers
  import opened Text
  import opened Seqs
  import opened Sorting
  import opened QueueTask

  /** The history is a `deque(maxlen=100)`. */
  const HistoryCap := 100

  const QueueTimeoutError := "队列等待超时"
  const ClearedError := "队列被清空"

  /** What a deque with `maxlen` `n` holds once `s` went through it: the last `n` items. */
  function Last<T>(s: seq<T>, n: nat): (r: seq<T>)
    ensures |r| == (if |s| <= n then |s| else n)
    ensures r == s[|s| - |r|..]
  {
    if |s| <= n then s else s[|s| - n..]
  }

  /** Trimming after every append holds what trimming once at the end holds. */
  lemma LastAppend<T>(s: seq<T>, xs: seq<T>, n: nat)
    ensures Last(Last(s, n) + xs, n) == Last(s + xs, n)
  {
    if |s| > n {
      var u, v := s + xs, s[|s| - n..] + xs;
      assert Last(s, n) == s[|s| - n..];
      assert v == u[|s| - n..];
      if xs != [] {
        assert Last(v, n) == v[|xs|..];
        assert v[|xs|..] == u[|s| - n + |xs|..];
      }
    }
  }

  /** `DownloadTask` of the legacy queue; what never changes after creation is a `const`. */
  class DownloadTask {
    const taskId: string
    const url: string
    const quality: string
    const singleSong: bool
    const userId: string
    const userName: string
    const unifiedMsgOrigin: string
    const songName: Option<string>
    const qualityDisplay: string
    const priority: TaskPriority
    const createdAt: real
    var status: TaskStatus
    var startedAt: Option<real>
    var completedAt: Option<real>
    var error: Option<string>
    var cancelled: bool

    /** A new task is pending, not started and not cancelled. */
    constructor (taskId: string, url: string, quality: string, singleSong: bool, userId: string,
                 userName: string, unifiedMsgOrigin: string, songName: Option<string>,
                 qualityDisplay: string, priority: TaskPriority, createdAt: real)
      ensures this.taskId == taskId && this.url == url && this.quality == quality
      ensures this.singleSong == singleSong && this.userId == userId && this.userName == userName
      ensures this.unifiedMsgOrigin == unifiedMsgOrigin && this.songName == songName
      ensures this.qualityDisplay == qualityDisplay && this.priority == priority && this.createdAt == createdAt
      ensures status == Pending && startedAt == None && completedAt == None && error == None && !cancelled
    {
      this.taskId := taskId;
      this.url := url;
      this.quality := quality;
      this.singleSong := singleSong;
      this.userId := userId;
      this.userName := userName;
      this.unifiedMsgOrigin := unifiedMsgOrigin;
      this.songName := songName;
      this.qualityDisplay := qualityDisplay;
      this.priority := priority;
      this.createdAt := createdAt;
      status := Pending;
      startedAt := None;
      completedAt := None;
      error := None;
      cancelled := false;
    }

    /** `cancel`: only a pending task is cancelled; it is then flagged and marked CANCELLED. */
    method Cancel() returns (ok: bool)
      modifies this
      ensures ok <==> old(status) == Pending
      ensures ok ==> (status == Cancelled && cancelled
        && startedAt == old(startedAt) && completedAt == old(completedAt) && error == old(error))
      ensures !ok ==> unchanged(this)
    {
      if status == Pending {
        cancelled := true;
        status := Cancelled;
        return true;
      }
      return false;
    }
  }

  /** The part of a task the queue changes, read off in one state. */
  datatype TaskState = TaskState(status: TaskStatus, startedAt: Option<real>, completedAt: Option<real>,
                                 error: Option<string>, cancelled: bool)

  function State(t: DownloadTask): TaskState
    reads t
  {
    TaskState(t.status, t.startedAt, t.completedAt, t.error, t.cancelled)
  }

  function States(s: seq<DownloadTask>): (w: seq<TaskState>)
    reads s
    ensures |w| == |s| && forall i :: 0 <= i < |s| ==> w[i] == State(s[i])
  {
    seq(|s|, i requires 0 <= i < |s| reads s => State(s[i]))
  }

  /** A queued task that `clear_queue` empties out: CANCELLED with the clearing error. */
  function ClearedState(st: TaskState): TaskState
  {
    st.(status := Cancelled, error := Some(ClearedError))
  }

  /** The state of queued task `i` (state `w[i]` before) once `clear_queue` cleared the first `j`. */
  function AfterClear(w: seq<TaskState>, j: nat, i: nat): TaskState
    requires i < |w|
  {
    if i < j then ClearedState(w[i]) else w[i]
  }

  /** A head that waited too long in `_get_next_task`: TIMEOUT with the timeout error. */
  function TimedOutState(st: TaskState): TaskState
  {
    st.(status := Timeout, error := Some(QueueTimeoutError))
  }

  /** `a` may stay ahead of `b` when the list is sorted stably by `(-priority, created_at)`. */
  predicate KeyLeq(a: DownloadTask, b: DownloadTask)
  {
    !SortKeyLess(b.priority, b.createdAt, a.priority, a.createdAt)
  }

  /**
   * `_sort_queue` after an append to a sorted list: the new task goes after every task that
   * may precede it and before every task that sorts strictly after it; the rest keep their
   * order, and the list stays sorted.
   */
  lemma InsertIsStableSort(x: DownloadTask, s: seq<DownloadTask>)
    requires SortedBy(s, KeyLeq)
    ensures var k := InsertPoint(x, s, KeyLeq);
      Insert(x, s, KeyLeq) == s[..k] + [x] + s[k..]
      && SortedBy(Insert(x, s, KeyLeq), KeyLeq)
      && (forall i :: 0 <= i < k ==> KeyLeq(s[i], x))
      && (forall i :: k <= i < |s| ==> SortKeyLess(x.priority, x.createdAt, s[i].priority, s[i].createdAt))
  {
    InsertAt(x, s, KeyLeq);
    InsertPointBetween(x, s, KeyLeq);
    var k := InsertPoint(x, s, KeyLeq);
    var r := Insert(x, s, KeyLeq);
    forall i | k <= i < |s|
      ensures SortKeyLess(x.priority, x.createdAt, s[i].priority, s[i].createdAt)
    {
      assert KeyLeq(s[k], s[i]) || k == i;
    }
    forall i, j | 0 <= i < j < |r|
      ensures KeyLeq(r[i], r[j])
    {
      assert r[i] == if i < k then s[i] else if i == k then x else s[i - 1];
      assert r[j] == if j < k then s[j] else if j == k then x else s[j - 1];
    }
  }

  /** A task not listed yet keeps the list duplicate-free. */
  lemma InsertDistinct(x: DownloadTask, s: seq<DownloadTask>)
    requires Distinct(s) && x !in s
    ensures Distinct(Insert(x, s, KeyLeq))
    ensures forall t :: t in Insert(x, s, KeyLeq) <==> t in s || t == x
  {
    InsertAt(x, s, KeyLeq);
    var k := InsertPoint(x, s, KeyLeq);
    var r := Insert(x, s, KeyLeq);
    forall i, j | 0 <= i < j < |r|
      ensures r[i] != r[j]
    {
      assert r[i] == if i < k then s[i] else if i == k then x else s[i - 1];
      assert r[j] == if j < k then s[j] else if j == k then x else s[j - 1];
    }
    assert s == s[..k] + s[k..];
  }

  /** A pending head that `_get_next_task` throws away without a trace: already cancelled. */
  predicate Withdrawn(st: TaskState)
  {
    st.cancelled || st.status == Cancelled
  }

  /** A head that waited longer than `queue_timeout` seconds. */
  predicate Expired(t: DownloadTask, now: real, queueTimeout: int)
  {
    now - t.createdAt > queueTimeout as real
  }

  /**
   * Where `_get_next_task`, looking at the heads of `s` (in states `w`) from position `from` on,
   * stops throwing heads away: everything before is withdrawn or expired, the head there is neither.
   */
  function DiscardedUpTo(s: seq<DownloadTask>, w: seq<TaskState>, from: nat, now: real, queueTimeout: int): (k: nat)
    requires |w| == |s| && from <= |s|
    ensures from <= k <= |s|
    decreases |s| - from
  {
    if from == |s| || !(Withdrawn(w[from]) || Expired(s[from], now, queueTimeout)) then from
    else DiscardedUpTo(s, w, from + 1, now, queueTimeout)
  }

  /** The heads thrown away are exactly the leading withdrawn or expired ones. */
  lemma {:induction false} DiscardedUpToSpec(s: seq<DownloadTask>, w: seq<TaskState>, from: nat, now: real, queueTimeout: int)
    requires |w| == |s| && from <= |s|
    ensures var k := DiscardedUpTo(s, w, from, now, queueTimeout);
      (forall i :: from <= i < k ==> Withdrawn(w[i]) || Expired(s[i], now, queueTimeout))
      && (k < |s| ==> !Withdrawn(w[k]) && !Expired(s[k], now, queueTimeout))
    decreases |s| - from
  {
    if !(from == |s| || !(Withdrawn(w[from]) || Expired(s[from], now, queueTimeout))) {
      DiscardedUpToSpec(s, w, from + 1, now, queueTimeout);
    }
  }

  /** Of the first `k` heads, thrown away, those that are not withdrawn: they time out into the history. */
  function TimedOut(s: seq<DownloadTask>, w: seq<TaskState>, k: nat): (r: seq<DownloadTask>)
    requires |w| == |s| && k <= |s|
    ensures |r| <= k
  {
    if k == 0 then []
    else TimedOut(s, w, k - 1) + (if Withdrawn(w[k - 1]) then [] else [s[k - 1]])
  }

  /** A task that times out is one of the heads thrown away, and was not withdrawn. */
  lemma {:induction false} TimedOutSpec(s: seq<DownloadTask>, w: seq<TaskState>, k: nat, t: DownloadTask)
    requires |w| == |s| && k <= |s|
    ensures t in TimedOut(s, w, k) <==> exists i :: 0 <= i < k && s[i] == t && !Withdrawn(w[i])
  {
    if k > 0 {
      TimedOutSpec(s, w, k - 1, t);
    }
  }

  /** The state of head `i` (state `w[i]` before) once the first `k` heads were thrown away. */
  function AfterDiscard(w: seq<TaskState>, k: nat, i: nat): TaskState
    requires i < |w|
  {
    if i < k && !Withdrawn(w[i]) then TimedOutState(w[i]) else w[i]
  }

  /** A task `cleanup_old_tasks` deletes: finished, and completed longer than `maxAge` ago. */
  predicate Stale(t: DownloadTask, now: real, maxAge: real)
    reads t
  {
    t.status != Pending && t.status != Processing && Truthy(t.completedAt) && now - t.completedAt.value > maxAge
  }

  function StaleIds(byId: map<string, DownloadTask>, now: real, maxAge: real): set<string>
    reads byId.Values
  {
    set id | id in byId && Stale(byId[id], now, maxAge)
  }

  /** A user's id list with the ids no longer indexed left out, in order. */
  function Indexed(ids: seq<string>, index: map<string, DownloadTask>): (r: seq<string>)
    ensures |r| <= |ids|
  {
    if ids == [] then []
    else (if ids[0] in index then [ids[0]] else []) + Indexed(ids[1..], index)
  }

  /** The kept ids are exactly the listed ids that are still indexed. */
  lemma {:induction false} IndexedSpec(ids: seq<string>, index: map<string, DownloadTask>, id: string)
    ensures id in Indexed(ids, index) <==> id in ids && id in index
  {
    if ids != [] {
      IndexedSpec(ids[1..], index, id);
      assert ids == [ids[0]] + ids[1..];
    }
  }

  /** The user index after pruning: every list filtered, and the users left without ids dropped. */
  function PruneUsers(byUser: map<string, seq<string>>, index: map<string, DownloadTask>): map<string, seq<string>>
  {
    map u | u in byUser && Indexed(byUser[u], index) != [] :: Indexed(byUser[u], index)
  }

  /** A pruned user index lists only indexed ids, holds no empty list and loses no indexed id. */
  lemma PruneUsersSound(byUser: map<string, seq<string>>, index: map<string, DownloadTask>)
    ensures var r := PruneUsers(byUser, index);
      r.Keys <= byUser.Keys
      && (forall u :: u in r ==> r[u] != [] && forall id :: id in r[u] ==> id in index)
      && (forall u, id :: u in byUser && id in byUser[u] && id in index ==> u in r && id in r[u])
  {
    var r := PruneUsers(byUser, index);
    forall u, id | u in byUser && id in byUser[u] && id in index
      ensures u in r && id in r[u]
    {
      IndexedSpec(byUser[u], index, id);
    }
    forall u, id | u in r && id in r[u]
      ensures id in index
    {
      IndexedSpec(byUser[u], index, id);
    }
  }

  /** A user index that agrees with the pruning user by user is the pruned one. */
  lemma PruneUsersUnique(byUser: map<string, seq<string>>, index: map<string, DownloadTask>, r: map<string, seq<string>>)
    requires r.Keys <= byUser.Keys
    requires forall u :: u in byUser ==> (u in r <==> Indexed(byUser[u], index) != [])
    requires forall u :: u in byUser && u in r ==> r[u] == Indexed(byUser[u], index)
    ensures r == PruneUsers(byUser, index)
  {
  }

  function FullMessage(maxQueueSize: int): string
  {
    "队列已满（最大 " + IntToString(maxQueueSize) + " 个任务），请稍后再试"
  }

  function DuplicateMessage(taskId: string): string
  {
    "您已有相同的下载任务在队列中（ID: " + taskId + "）"
  }

  function PositionMessage(position: int): string
  {
    "已加入队列，位置：第 " + IntToString(position) + " 位"
  }

  /** `cancel_task` with a user id refuses the task of another user; an empty id checks nothing. */
  predicate OwnedByOther(owner: string, userId: Option<string>)
  {
    userId.Some? && userId.value != "" && owner != userId.value
  }

  class DownloadQueue {
    const maxQueueSize: int
    const taskTimeout: int
    const queueTimeout: int
    var pending: seq<DownloadTask>
    var current: DownloadTask?
    var history: seq<DownloadTask>
    var byId: map<string, DownloadTask>
    var byUser: map<string, seq<string>>

    /**
     * The pending list is sorted, holds each task once and no more than the capacity; every
     * index entry is under its own id; a pending task is indexed and has not completed.
     */
    ghost predicate Valid()
      reads this, pending
    {
      SortedBy(pending, KeyLeq) && Distinct(pending)
      && (pending == [] || |pending| <= maxQueueSize)
      && |history| <= HistoryCap
      && (forall id :: id in byId ==> byId[id].taskId == id)
      && (forall t :: t in pending ==> t.taskId in byId && byId[t.taskId] == t && t.completedAt == None)
    }

    constructor (maxQueueSize: int, taskTimeout: int, queueTimeout: int)
      ensures Valid()
      ensures this.maxQueueSize == maxQueueSize && this.taskTimeout == taskTimeout && this.queueTimeout == queueTimeout
      ensures pending == [] && current == null && history == [] && byId == map[] && byUser == map[]
    {
      this.maxQueueSize := maxQueueSize;
      this.taskTimeout := taskTimeout;
      this.queueTimeout := queueTimeout;
      pending := [];
      current := null;
      history := [];
      byId := map[];
      byUser := map[];
    }

    function UserIds(userId: string): seq<string>
      reads this
    {
      if userId in byUser then byUser[userId] else []
    }

    /** The id names an indexed pending task of this url and quality. */
    predicate IsDuplicate(id: string, url: string, quality: string)
      reads this, byId.Values
    {
      id in byId && byId[id].url == url && byId[id].quality == quality && byId[id].status == Pending
    }

    /** The first of `ids` that names a duplicate, if any. */
    function FirstDuplicate(ids: seq<string>, url: string, quality: string): (r: Option<string>)
      reads this, byId.Values
      ensures r.Some? ==> exists i :: (0 <= i < |ids| && ids[i] == r.value && IsDuplicate(ids[i], url, quality)
        && forall j :: 0 <= j < i ==> !IsDuplicate(ids[j], url, quality))
      ensures r.None? <==> forall id :: id in ids ==> !IsDuplicate(id, url, quality)
    {
      if ids == [] then None
      else if IsDuplicate(ids[0], url, quality) then Some(ids[0])
      else
        var r := FirstDuplicate(ids[1..], url, quality);
        assert forall id :: id in ids[1..] ==> id in ids;
        assert r.Some? ==> exists i :: (0 <= i < |ids| && ids[i] == r.value && IsDuplicate(ids[i], url, quality)
          && forall j :: 0 <= j < i ==> !IsDuplicate(ids[j], url, quality)) by {
          if r.Some? {
            var i :| 0 <= i < |ids[1..]| && ids[1..][i] == r.value && IsDuplicate(ids[1..][i], url, quality)
              && forall j :: 0 <= j < i ==> !IsDuplicate(ids[1..][j], url, quality);
            assert ids[i + 1] == r.value;
            assert forall j :: 0 < j < i + 1 ==> ids[j] == ids[1..][j - 1];
          }
        }
        r
    }

    /** The duplicate scan of `enqueue` over the user's ids, in index order. */
    method FindDuplicate(userId: string, url: string, quality: string) returns (found: Option<string>)
      ensures found == FirstDuplicate(UserIds(userId), url, quality)
    {
      var ids := UserIds(userId);
      var i := 0;
      while i < |ids|
        invariant 0 <= i <= |ids|
        invariant FirstDuplicate(ids, url, quality) == FirstDuplicate(ids[i..], url, quality)
      {
        assert ids[i..][1..] == ids[i + 1..];
        if ids[i] in byId {
          var task := byId[ids[i]];
          if task.url == url && task.quality == quality && task.status == Pending {
            return Some(ids[i]);
          }
        }
        i := i + 1;
      }
      return None;
    }

    /** `get_position`: the 1-based position of the first task with this id, or -1. */
    method GetPosition(taskId: string) returns (p: int)
      ensures p == -1 <==> forall i :: 0 <= i < |pending| ==> pending[i].taskId != taskId
      ensures p != -1 ==> (1 <= p <= |pending| && pending[p - 1].taskId == taskId
        && forall i :: 0 <= i < p - 1 ==> pending[i].taskId != taskId)
    {
      var i := 0;
      while i < |pending|
        invariant 0 <= i <= |pending|
        invariant forall j :: 0 <= j < i ==> pending[j].taskId != taskId
      {
        if pending[i].taskId == taskId {
          return i + 1;
        }
        i := i + 1;
      }
      return -1;
    }

    /**
     * `enqueue`: refused when full, or when the user already has a pending task of this url and
     * quality, which is then returned; otherwise a new pending task is put into the sorted
     * list, indexed by id and listed for the user. `taskId` is the fresh id of the new task.
     */
    method Enqueue(taskId: string, url: string, quality: string, userId: string, userName: string,
                   unifiedMsgOrigin: string, songName: Option<string>, qualityDisplay: string,
                   priority: TaskPriority, singleSong: bool, now: real)
      returns (success: bool, message: string, task: Option<DownloadTask>)
      requires Valid() && taskId !in byId
      modifies this
      ensures Valid()
      ensures old(|pending|) >= maxQueueSize ==>
        !success && task == None && message == FullMessage(maxQueueSize) && unchanged(this)
      ensures old(|pending|) < maxQueueSize && old(FirstDuplicate(UserIds(userId), url, quality)).Some? ==>
        var id := old(FirstDuplicate(UserIds(userId), url, quality)).value;
        !success && task == Some(old(byId[id])) && message == DuplicateMessage(id) && unchanged(this)
      ensures old(|pending|) < maxQueueSize && old(FirstDuplicate(UserIds(userId), url, quality)).None? ==>
        success && task.Some? && fresh(task.value)
        && task.value.taskId == taskId && task.value.url == url && task.value.quality == quality
        && task.value.userId == userId && task.value.priority == priority && task.value.createdAt == now
        && task.value.status == Pending
        && pending == Insert(task.value, old(pending), KeyLeq)
        && byId == old(byId)[taskId := task.value]
        && byUser == old(byUser)[userId := old(UserIds(userId)) + [taskId]]
        && history == old(history) && current == old(current)
        && message == PositionMessage(InsertPoint(task.value, old(pending), KeyLeq) + 1)
    {
      if |pending| >= maxQueueSize {
        return false, FullMessage(maxQueueSize), None;
      }
      var dup := FindDuplicate(userId, url, quality);
      if dup.Some? {
        return false, DuplicateMessage(dup.value), Some(byId[dup.value]);
      }
      var t := new DownloadTask(taskId, url, quality, singleSong, userId, userName, unifiedMsgOrigin,
                                songName, qualityDisplay, priority, now);
      var position := Add(t);
      success, message, task := true, PositionMessage(position), Some(t);
    }

    /** The accepting half of `enqueue`: append, index, re-sort, and report the 1-based position. */
    method Add(task: DownloadTask) returns (position: int)
      requires Valid() && |pending| < maxQueueSize
      requires task.taskId !in byId && task !in pending && task.completedAt == None
      modifies this`pending, this`byId, this`byUser
      ensures Valid()
      ensures pending == Insert(task, old(pending), KeyLeq) && position == InsertPoint(task, old(pending), KeyLeq) + 1
      ensures byId == old(byId)[task.taskId := task]
      ensures byUser == old(byUser)[task.userId := old(UserIds(task.userId)) + [task.taskId]]
    {
      ghost var k := InsertPoint(task, pending, KeyLeq);
      Index(task);
      position := GetPosition(task.taskId);
      assert position - 1 == k by {
        if position - 1 < k {
          assert false;
        }
      }
    }

    /** Append, index and re-sort: the task lands at its stable sort position. */
    method Index(task: DownloadTask)
      requires Valid() && |pending| < maxQueueSize
      requires task.taskId !in byId && task !in pending && task.completedAt == None
      modifies this`pending, this`byId, this`byUser
      ensures Valid()
      ensures pending == Insert(task, old(pending), KeyLeq)
      ensures pending[InsertPoint(task, old(pending), KeyLeq)] == task
      ensures byId == old(byId)[task.taskId := task]
      ensures byUser == old(byUser)[task.userId := old(UserIds(task.userId)) + [task.taskId]]
    {
      InsertIsStableSort(task, pending);
      InsertDistinct(task, pending);
      ghost var before := pending;
      pending := Insert(task, pending, KeyLeq);
      byId := byId[task.taskId := task];
      byUser := byUser[task.userId := UserIds(task.userId) + [task.taskId]];
      forall t | t in pending ensures t.taskId in byId && byId[t.taskId] == t && t.completedAt == None {
        if t != task { assert t in before; }
      }
    }

    /**
     * `cancel_task`: refuses an unknown id, another user's task, a processing task and any
     * other task that is not pending; otherwise the task is cancelled, taken out of the
     * pending list and put into the history, and stays indexed.
     */
    method CancelTask(taskId: string, userId: Option<string>) returns (success: bool, message: string)
      requires Valid()
      modifies this, if taskId in byId then {byId[taskId]} else {}
      ensures Valid()
      ensures taskId !in old(byId) ==> !success && message == "任务不存在: " + taskId && unchanged(this)
      ensures taskId in old(byId) ==>
        var t := old(byId[taskId]);
        if OwnedByOther(t.userId, userId) then
          !success && message == "无权取消他人的任务" && unchanged(this) && unchanged(t)
        else if old(t.status) == Processing then
          !success && message == "任务正在处理中，无法取消" && unchanged(this) && unchanged(t)
        else if old(t.status) != Pending then
          !success && message == "任务已" + StatusValue(old(t.status)) + "，无法取消" && unchanged(this) && unchanged(t)
        else
          success && message == "任务 " + taskId + " 已取消"
          && t.status == Cancelled && t.cancelled && t.completedAt == old(t.completedAt)
          && pending == RemoveFirst(old(pending), t) && t !in pending
          && history == Last(old(history) + [t], HistoryCap)
          && byId == old(byId) && byUser == old(byUser) && current == old(current)
    {
      if taskId !in byId {
        return false, "任务不存在: " + taskId;
      }
      var task := byId[taskId];
      if OwnedByOther(task.userId, userId) {
        return false, "无权取消他人的任务";
      }
      if task.status == Processing {
        return false, "任务正在处理中，无法取消";
      }
      if task.status != Pending {
        return false, "任务已" + StatusValue(task.status) + "，无法取消";
      }
      CancelPending(task);
      return true, "任务 " + taskId + " 已取消";
    }

    /** The successful half of `cancel_task`: a pending, indexed task leaves the list for the history. */
    method CancelPending(task: DownloadTask)
      requires Valid() && task.status == Pending && task.taskId in byId && byId[task.taskId] == task
      modifies this, task
      ensures Valid()
      ensures task.status == Cancelled && task.cancelled && task.completedAt == old(task.completedAt)
      ensures pending == RemoveFirst(old(pending), task) && task !in pending
      ensures history == Last(old(history) + [task], HistoryCap)
      ensures byId == old(byId) && byUser == old(byUser) && current == old(current)
    {
      RemoveFirstDistinct(pending, task);
      RemoveFirstSorted(pending, task, KeyLeq);
      ghost var p0 := pending;
      var ok := task.Cancel();
      assert ok;
      pending := RemoveFirst(pending, task);
      history := Last(history + [task], HistoryCap);
      forall t | t in pending
        ensures t.taskId in byId && byId[t.taskId] == t && t.completedAt == None
      {
        assert t in p0 && t != task;
      }
    }

    /**
     * `_get_next_task`: cancelled heads are dropped, heads waiting longer than `queue_timeout`
     * time out into the history, and the first other head is taken off and returned.
     */
    method GetNextTask(now: real) returns (task: DownloadTask?)
      requires Valid()
      modifies this, pending
      ensures Valid()
      ensures var s, w := old(pending), old(States(pending));
        var k := DiscardedUpTo(s, w, 0, now, queueTimeout);
        (k < |s| ==> task == s[k] && pending == s[k + 1..])
        && (k == |s| ==> task == null && pending == [])
        && history == Last(old(history) + TimedOut(s, w, k), HistoryCap)
        && (forall i :: 0 <= i < |s| ==> State(s[i]) == AfterDiscard(w, k, i))
        && byId == old(byId) && byUser == old(byUser) && current == old(current)
    {
      var s := pending;
      ghost var w := States(s);
      assert forall i :: 0 <= i < |s| ==> s[i].taskId in byId && byId[s[i].taskId] == s[i] && w[i].completedAt == None;
      var k := DiscardHeads(s, now);
      forall i | 0 <= i < |s| ensures s[i].completedAt == None {
        assert State(s[i]) == AfterDiscard(w, k, i);
      }
      task := TakeAt(s, k);
    }

    /** The end of `_get_next_task`: the head at `k` is taken off, or there is none. */
    method TakeAt(s: seq<DownloadTask>, k: nat) returns (task: DownloadTask?)
      requires k <= |s| && SortedBy(s, KeyLeq) && Distinct(s) && (s == [] || |s| <= maxQueueSize)
      requires |history| <= HistoryCap && forall id :: id in byId ==> byId[id].taskId == id
      requires forall i :: 0 <= i < |s| ==> s[i].taskId in byId && byId[s[i].taskId] == s[i] && s[i].completedAt == None
      modifies this`pending
      ensures Valid()
      ensures k < |s| ==> task == s[k] && pending == s[k + 1..]
      ensures k == |s| ==> task == null && pending == []
      ensures history == old(history) && byId == old(byId) && byUser == old(byUser) && current == old(current)
    {
      SortedDrop(s, k, KeyLeq);
      DistinctDrop(s, k);
      if k < |s| {
        task := s[k];
        SortedTail(s[k..], KeyLeq);
        DistinctTail(s[k..]);
        assert s[k..][1..] == s[k + 1..];
        pending := s[k + 1..];
      } else {
        task := null;
        pending := [];
      }
      forall t | t in pending ensures t.taskId in byId && byId[t.taskId] == t && t.completedAt == None {
        var i :| 0 <= i < |pending| && pending[i] == t;
        assert t == s[k + 1 + i];
      }
    }

    /**
     * The loop of `_get_next_task` over the heads of `s`: it stops at the first head that is
     * neither withdrawn nor expired; expired heads before it time out into the history.
     */
    method DiscardHeads(s: seq<DownloadTask>, now: real) returns (k: nat)
      requires Distinct(s) && |history| <= HistoryCap
      modifies this`history, s
      ensures var w := old(States(s));
        k == DiscardedUpTo(s, w, 0, now, queueTimeout)
        && history == Last(old(history) + TimedOut(s, w, k), HistoryCap)
        && forall i :: 0 <= i < |s| ==> State(s[i]) == AfterDiscard(w, k, i)
      ensures pending == old(pending) && byId == old(byId) && byUser == old(byUser) && current == old(current)
    {
      ghost var w := States(s);
      k := 0;
      while k < |s| && (s[k].cancelled || s[k].status == Cancelled || Expired(s[k], now, queueTimeout))
        invariant k <= |s|
        invariant DiscardedUpTo(s, w, 0, now, queueTimeout) == DiscardedUpTo(s, w, k, now, queueTimeout)
        invariant history == Last(old(history) + TimedOut(s, w, k), HistoryCap)
        invariant forall i :: 0 <= i < |s| ==> State(s[i]) == AfterDiscard(w, k, i)
        decreases |s| - k
      {
        DiscardOne(s, w, k, old(history));
        k := k + 1;
      }
    }

    /** One discarded head `s[k]`: a withdrawn one is only dropped, another one times out. */
    method DiscardOne(s: seq<DownloadTask>, ghost w: seq<TaskState>, k: nat, ghost h0: seq<DownloadTask>)
      requires Distinct(s) && |w| == |s| && k < |s|
      requires history == Last(h0 + TimedOut(s, w, k), HistoryCap)
      requires forall i :: 0 <= i < |s| ==> State(s[i]) == AfterDiscard(w, k, i)
      modifies this`history, s[k]
      ensures history == Last(h0 + TimedOut(s, w, k + 1), HistoryCap)
      ensures forall i :: 0 <= i < |s| ==> State(s[i]) == AfterDiscard(w, k + 1, i)
    {
      assert State(s[k]) == w[k];
      ghost var before := h0 + TimedOut(s, w, k);
      if !(s[k].cancelled || s[k].status == Cancelled) {
        assert h0 + TimedOut(s, w, k + 1) == before + [s[k]];
        LastAppend(before, [s[k]], HistoryCap);
        TimeOutOne(s[k]);
      } else {
        assert TimedOut(s, w, k + 1) == TimedOut(s, w, k);
      }
      forall i | 0 <= i < |s| ensures State(s[i]) == AfterDiscard(w, k + 1, i) {
        if i != k { assert s[i] != s[k]; }
      }
    }

    /** One timed-out head of `_get_next_task`: TIMEOUT with the timeout error, into the history. */
    method TimeOutOne(t: DownloadTask)
      modifies this`history, t
      ensures State(t) == TimedOutState(old(State(t)))
      ensures history == Last(old(history) + [t], HistoryCap)
    {
      t.status := Timeout;
      t.error := Some(QueueTimeoutError);
      history := Last(history + [t], HistoryCap);
    }

    /** `clear_queue`: every pending task is marked CANCELLED and goes to the history; the index stays. */
    method ClearQueue() returns (count: nat)
      requires Valid()
      modifies this, pending
      ensures Valid()
      ensures count == |old(pending)| && pending == []
      ensures forall t :: t in old(pending) ==> State(t) == ClearedState(old(State(t)))
      ensures history == Last(old(history) + old(pending), HistoryCap)
      ensures byId == old(byId) && byUser == old(byUser) && current == old(current)
    {
      count := |pending|;
      ghost var tasks := pending;
      ClearAll(pending);
      pending := [];
      forall t | t in tasks
        ensures State(t) == ClearedState(old(State(t)))
      {
        var i :| 0 <= i < |tasks| && tasks[i] == t;
      }
    }

    /** The loop of `clear_queue`: the tasks are cleared one after the other, in queue order. */
    method ClearAll(tasks: seq<DownloadTask>)
      requires Distinct(tasks) && |history| <= HistoryCap
      modifies this`history, tasks
      ensures forall i :: 0 <= i < |tasks| ==> State(tasks[i]) == ClearedState(old(State(tasks[i])))
      ensures history == Last(old(history) + tasks, HistoryCap)
    {
      ghost var w := States(tasks);
      for j := 0 to |tasks|
        invariant history == Last(old(history) + tasks[..j], HistoryCap)
        invariant forall i :: 0 <= i < |tasks| ==> State(tasks[i]) == AfterClear(w, j, i)
      {
        ClearOne(tasks, w, j, old(history));
      }
      assert tasks[..|tasks|] == tasks;
    }

    /** One step of `clear_queue`: `tasks[j]` is marked CANCELLED and appended to the history. */
    method ClearOne(tasks: seq<DownloadTask>, ghost w: seq<TaskState>, j: nat, ghost h0: seq<DownloadTask>)
      requires Distinct(tasks) && |w| == |tasks| && j < |tasks|
      requires history == Last(h0 + tasks[..j], HistoryCap)
      requires forall i :: 0 <= i < |tasks| ==> State(tasks[i]) == AfterClear(w, j, i)
      modifies this`history, tasks[j]
      ensures history == Last(h0 + tasks[..j + 1], HistoryCap)
      ensures forall i :: 0 <= i < |tasks| ==> State(tasks[i]) == AfterClear(w, j + 1, i)
    {
      var t := tasks[j];
      assert State(t) == w[j];
      LastAppend(h0 + tasks[..j], [t], HistoryCap);
      assert tasks[..j + 1] == tasks[..j] + [t];
      ClearTask(t);
      forall i | 0 <= i < |tasks| ensures State(tasks[i]) == AfterClear(w, j + 1, i) {
        if i != j { assert tasks[i] != t; }
      }
    }

    /** A cleared task: CANCELLED with the clearing error, and into the history. */
    method ClearTask(t: DownloadTask)
      modifies this`history, t
      ensures State(t) == ClearedState(old(State(t)))
      ensures history == Last(old(history) + [t], HistoryCap)
    {
      t.status := Cancelled;
      t.error := Some(ClearedError);
      history := Last(history + [t], HistoryCap);
    }

    /**
     * `cleanup_old_tasks`: deletes from the id index exactly the finished tasks completed more
     * than `maxAge` seconds ago, then prunes the user index; the count is how many were deleted.
     */
    method CleanupOldTasks(maxAge: real, now: real) returns (cleaned: nat)
      requires Valid()
      modifies this
      ensures Valid()
      ensures byId == old(byId) - old(StaleIds(byId, now, maxAge))
      ensures cleaned == |old(StaleIds(byId, now, maxAge))|
      ensures byUser == PruneUsers(old(byUser), byId)
      ensures pending == old(pending) && history == old(history) && current == old(current)
    {
      var toRemove := CollectStale(maxAge, now);
      cleaned := DeleteIds(toRemove);
      PruneUserIndex();
    }

    /** The first loop of `cleanup_old_tasks`: the ids of the stale indexed tasks. */
    method CollectStale(maxAge: real, now: real) returns (toRemove: set<string>)
      ensures toRemove == StaleIds(byId, now, maxAge)
    {
      toRemove := {};
      var todo := byId.Keys;
      while todo != {}
        invariant todo <= byId.Keys
        invariant toRemove == set id | id in byId && id !in todo && Stale(byId[id], now, maxAge)
        decreases |todo|
      {
        var id :| id in todo;
        if Stale(byId[id], now, maxAge) {
          toRemove := toRemove + {id};
        }
        todo := todo - {id};
      }
    }

    /** The second loop: each collected id is deleted from the index and counted. */
    method DeleteIds(ids: set<string>) returns (cleaned: nat)
      modifies this`byId
      ensures byId == old(byId) - ids && cleaned == |ids|
    {
      var rest := ids;
      ghost var done: set<string> := {};
      cleaned := 0;
      while rest != {}
        invariant done + rest == ids && done !! rest
        invariant byId == old(byId) - done && cleaned == |done|
        decreases |rest|
      {
        var id :| id in rest;
        byId := byId - {id};
        cleaned := cleaned + 1;
        rest := rest - {id};
        done := done + {id};
      }
    }

    /** The third loop: every user's list keeps only indexed ids, and emptied users are dropped. */
    method PruneUserIndex()
      modifies this`byUser
      ensures byUser == PruneUsers(old(byUser), byId)
    {
      ghost var before := byUser;
      var users := byUser.Keys;
      while users != {}
        invariant users <= before.Keys && byUser.Keys <= before.Keys
        invariant forall u :: u in users ==> u in byUser && byUser[u] == before[u]
        invariant forall u :: u in before && u !in users ==> (u in byUser <==> Indexed(before[u], byId) != [])
        invariant forall u :: u in before && u !in users && u in byUser ==> byUser[u] == Indexed(before[u], byId)
        decreases |users|
      {
        var u :| u in users;
        PruneUser(u);
        users := users - {u};
      }
      PruneUsersUnique(before, byId, byUser);
    }

    /** One user of the third loop: the list filtered, the user dropped once it is empty. */
    method PruneUser(u: string)
      requires u in byUser
      modifies this`byUser
      ensures var kept := Indexed(old(byUser)[u], byId);
        byUser == if kept == [] then old(byUser) - {u} else old(byUser)[u := kept]
    {
      var kept := Indexed(byUser[u], byId);
      byUser := byUser[u := kept];
      if kept == [] {
        byUser := byUser - {u};
      }
    }
  }
}
