/**
 * The priority store of the download queue: a list of tasks kept in sort-key order, an index
 * by task id and an index of task ids by user. The list and both indexes are fields that
 * every operation reassigns.
 */
module QueueStorage {
  import opened Wrappers
  import opened Text
  import opened Seqs
  import opened QueueTask

  /** `FIFOWithPriorityStrategy.compare`: negative when `a` sorts first, zero on a tie. */
  function Compare(a: DownloadTask, b: DownloadTask): (r: int)
    ensures r < 0 <==> SortKeyLess(a.priority, a.createdAt, b.priority, b.createdAt)
    ensures r > 0 <==> SortKeyLess(b.priority, b.createdAt, a.priority, a.createdAt)
  {
    if PriorityValue(a.priority) != PriorityValue(b.priority) then
      PriorityValue(b.priority) as int - PriorityValue(a.priority) as int
    else if a.createdAt != b.createdAt then
      (if a.createdAt < b.createdAt then -1 else 1)
    else 0
  }

  /** `a` may stay ahead of `b` in a stable sort by `(-priority, created_at)`. */
  predicate KeyLeq(a: DownloadTask, b: DownloadTask)
  {
    !SortKeyLess(b.priority, b.createdAt, a.priority, a.createdAt)
  }

  predicate Sorted(s: seq<DownloadTask>)
  {
    forall i, j :: 0 <= i < j < |s| ==> KeyLeq(s[i], s[j])
  }

  /** No two listed tasks share an id. */
  predicate DistinctIds(s: seq<DownloadTask>)
  {
    forall i, j :: 0 <= i < j < |s| ==> s[i].taskId != s[j].taskId
  }

  predicate HasId(s: seq<DownloadTask>, id: string)
  {
    exists i :: 0 <= i < |s| && s[i].taskId == id
  }

  /**
   * Appending `x` to a sorted list and sorting it stably: `x` goes after every task that does
   * not sort strictly after it.
   */
  function InsertByKey(x: DownloadTask, s: seq<DownloadTask>): (r: seq<DownloadTask>)
    ensures |r| == |s| + 1
  {
    if s == [] then [x]
    else if KeyLeq(s[0], x) then [s[0]] + InsertByKey(x, s[1..])
    else [x] + s
  }

  /** Where the insertion puts `x`: after the leading tasks that may precede it. */
  function InsertPoint(x: DownloadTask, s: seq<DownloadTask>): (k: nat)
    ensures k <= |s|
    ensures forall i :: 0 <= i < k ==> KeyLeq(s[i], x)
    ensures k < |s| ==> !KeyLeq(s[k], x)
  {
    if s == [] || !KeyLeq(s[0], x) then 0 else 1 + InsertPoint(x, s[1..])
  }

  lemma {:induction false} InsertByKeyAt(x: DownloadTask, s: seq<DownloadTask>)
    ensures InsertByKey(x, s) == s[..InsertPoint(x, s)] + [x] + s[InsertPoint(x, s)..]
  {
    if s != [] && KeyLeq(s[0], x) {
      InsertByKeyAt(x, s[1..]);
      var k := InsertPoint(x, s[1..]);
      assert s[..k + 1] == [s[0]] + s[1..][..k];
      assert s[k + 1..] == s[1..][k..];
    }
  }

  /** Position `i` of the list with `x` put in at `k`. */
  lemma InsertedAt(x: DownloadTask, s: seq<DownloadTask>, k: nat, i: nat)
    requires k <= |s| && i <= |s|
    ensures (s[..k] + [x] + s[k..])[i] == if i < k then s[i] else if i == k then x else s[i - 1]
  {
  }

  /**
   * The stable insertion into a sorted list keeps it sorted and puts `x` after every task that
   * may precede it and before every task that sorts strictly after it.
   */
  lemma InsertByKeySorted(x: DownloadTask, s: seq<DownloadTask>)
    requires Sorted(s)
    ensures Sorted(InsertByKey(x, s))
    ensures var k := InsertPoint(x, s);
      InsertByKey(x, s) == s[..k] + [x] + s[k..]
      && (forall i :: 0 <= i < k ==> KeyLeq(s[i], x))
      && (forall i :: k <= i < |s| ==> SortKeyLess(x.priority, x.createdAt, s[i].priority, s[i].createdAt))
  {
    InsertByKeyAt(x, s);
    var k := InsertPoint(x, s);
    var r := InsertByKey(x, s);
    forall i | k <= i < |s|
      ensures SortKeyLess(x.priority, x.createdAt, s[i].priority, s[i].createdAt)
    {
      assert KeyLeq(s[k], s[i]) || k == i;
    }
    forall i, j | 0 <= i < j < |r|
      ensures KeyLeq(r[i], r[j])
    {
      InsertedAt(x, s, k, i);
      InsertedAt(x, s, k, j);
    }
  }

  /** A fresh id keeps the ids distinct. */
  lemma InsertByKeyDistinct(x: DownloadTask, s: seq<DownloadTask>)
    requires DistinctIds(s) && !HasId(s, x.taskId)
    ensures DistinctIds(InsertByKey(x, s))
  {
    InsertByKeyAt(x, s);
    var k := InsertPoint(x, s);
    var r := InsertByKey(x, s);
    forall i, j | 0 <= i < j < |r|
      ensures r[i].taskId != r[j].taskId
    {
      InsertedAt(x, s, k, i);
      InsertedAt(x, s, k, j);
    }
  }

  /** The insertion holds the old tasks and `x`. */
  lemma InsertByKeyMembers(x: DownloadTask, s: seq<DownloadTask>)
    ensures forall t :: t in InsertByKey(x, s) <==> t in s || t == x
  {
    InsertByKeyAt(x, s);
    var k := InsertPoint(x, s);
    assert s == s[..k] + s[k..];
  }

  /** The list with position `k` taken out. */
  function DeleteAt(s: seq<DownloadTask>, k: nat): (r: seq<DownloadTask>)
    requires k < |s|
    ensures |r| == |s| - 1
    ensures forall i :: 0 <= i < |r| ==> r[i] == if i < k then s[i] else s[i + 1]
  {
    s[..k] + s[k + 1..]
  }

  lemma DeleteAtSorted(s: seq<DownloadTask>, k: nat)
    requires k < |s| && Sorted(s)
    ensures Sorted(DeleteAt(s, k))
  {
  }

  /** Taking a task out keeps the ids distinct and removes only that task. */
  lemma DeleteAtMembers(s: seq<DownloadTask>, k: nat)
    requires k < |s| && DistinctIds(s)
    ensures DistinctIds(DeleteAt(s, k))
    ensures forall t :: t in DeleteAt(s, k) <==> t in s && t.taskId != s[k].taskId
  {
    var r := DeleteAt(s, k);
    forall t | t in s && t.taskId != s[k].taskId
      ensures t in r
    {
      var i :| 0 <= i < |s| && s[i] == t;
      assert r[if i < k then i else i - 1] == t;
    }
  }

  /** The first task with that id: where `list.remove`, which compares ids, takes a task out. */
  function PositionIn(s: seq<DownloadTask>, id: string): (k: nat)
    requires HasId(s, id)
    ensures k < |s| && s[k].taskId == id && forall i :: 0 <= i < k ==> s[i].taskId != id
  {
    if s[0].taskId == id then 0
    else
      assert HasId(s[1..], id) by {
        var i :| 0 <= i < |s| && s[i].taskId == id;
        assert s[1..][i - 1] == s[i];
      }
      1 + PositionIn(s[1..], id)
  }

  /** `_get_position_unlocked`: the 1-based place of the first task with that id, or -1. */
  function PositionOf(s: seq<DownloadTask>, id: string): (p: int)
    ensures p == -1 <==> !HasId(s, id)
    ensures p != -1 ==> 1 <= p <= |s| && s[p - 1].taskId == id && forall i :: 0 <= i < p - 1 ==> s[i].taskId != id
  {
    if HasId(s, id) then PositionIn(s, id) + 1 else -1
  }

  /** The id index holds exactly the listed tasks, each under its own id. */
  ghost predicate IdIndexed(s: seq<DownloadTask>, byId: map<string, DownloadTask>)
  {
    (forall t :: t in s ==> t.taskId in byId && byId[t.taskId] == t)
    && (forall id :: id in byId ==> byId[id].taskId == id && byId[id] in s)
  }

  /** The list is within capacity and in sort-key order, holds each id once, and is indexed. */
  ghost predicate Listed(s: seq<DownloadTask>, byId: map<string, DownloadTask>, maxSize: int)
  {
    (s == [] || |s| <= maxSize) && Sorted(s) && DistinctIds(s) && IdIndexed(s, byId)
  }

  lemma ListedHas(s: seq<DownloadTask>, byId: map<string, DownloadTask>, maxSize: int, id: string)
    requires Listed(s, byId, maxSize)
    ensures HasId(s, id) <==> id in byId
  {
    if id in byId {
      var i :| 0 <= i < |s| && s[i] == byId[id];
    }
  }

  lemma ListedInsert(s: seq<DownloadTask>, byId: map<string, DownloadTask>, maxSize: int, x: DownloadTask)
    requires Listed(s, byId, maxSize) && |s| < maxSize && x.taskId !in byId
    ensures Listed(InsertByKey(x, s), byId[x.taskId := x], maxSize)
  {
    ListedHas(s, byId, maxSize, x.taskId);
    InsertByKeySorted(x, s);
    InsertByKeyDistinct(x, s);
    IdIndexedInsert(s, byId, x);
  }

  lemma IdIndexedInsert(s: seq<DownloadTask>, byId: map<string, DownloadTask>, x: DownloadTask)
    requires IdIndexed(s, byId) && x.taskId !in byId
    ensures IdIndexed(InsertByKey(x, s), byId[x.taskId := x])
  {
    InsertByKeyMembers(x, s);
    var r, m := InsertByKey(x, s), byId[x.taskId := x];
    forall t: DownloadTask | t in r
      ensures t.taskId in m && m[t.taskId] == t
    {
      if t != x {
        InsertByKeyAt(x, s);
        var k := InsertPoint(x, s);
        var i :| 0 <= i < |r| && r[i] == t;
        assert i != k;
        assert t == s[if i < k then i else i - 1];
      }
    }
    forall id | id in m
      ensures m[id].taskId == id && m[id] in r
    {
      if id != x.taskId {
        assert id in byId && m[id] == byId[id];
      }
    }
  }

  lemma ListedDelete(s: seq<DownloadTask>, byId: map<string, DownloadTask>, maxSize: int, k: nat)
    requires Listed(s, byId, maxSize) && k < |s|
    ensures Listed(DeleteAt(s, k), byId - {s[k].taskId}, maxSize)
  {
    DeleteAtSorted(s, k);
    DeleteAtMembers(s, k);
  }

  /** The ids of `u` in the user index, `[]` when `u` has none. */
  function UserIds(byUser: map<string, seq<string>>, u: string): seq<string>
  {
    if u in byUser then byUser[u] else []
  }

  /** `_by_user[u].remove(id)` followed by dropping an emptied list. */
  function DropUserId(byUser: map<string, seq<string>>, u: string, id: string): map<string, seq<string>>
  {
    if u !in byUser then byUser
    else
      var rest := Without(byUser[u], id);
      if rest == [] then byUser - {u} else byUser[u := rest]
  }

  /** The user index lists, for each user with queued tasks, exactly those tasks' ids, once each. */
  ghost predicate UserIndexed(byId: map<string, DownloadTask>, byUser: map<string, seq<string>>)
  {
    (forall u :: u in byUser ==> byUser[u] != [] && Distinct(byUser[u]))
    && (forall u, id :: u in byUser && id in byUser[u] ==> id in byId && byId[id].userId == u)
    && (forall id :: id in byId ==> byId[id].userId in byUser && id in byUser[byId[id].userId])
  }

  /** Indexing a new task `t` keeps the user index in step. */
  lemma UserIndexedAdd(byId: map<string, DownloadTask>, byUser: map<string, seq<string>>, t: DownloadTask)
    requires UserIndexed(byId, byUser) && t.taskId !in byId
    ensures UserIndexed(byId[t.taskId := t], byUser[t.userId := UserIds(byUser, t.userId) + [t.taskId]])
  {
    var b := byUser[t.userId := UserIds(byUser, t.userId) + [t.taskId]];
    DistinctSnoc(UserIds(byUser, t.userId), t.taskId);
    forall u, id | u in b && id in b[u]
      ensures id in byId[t.taskId := t] && byId[t.taskId := t][id].userId == u
    {
      if u == t.userId && id != t.taskId {
        assert id in UserIds(byUser, t.userId);
      }
    }
  }

  /** Unindexing a task removes its id from its user's list, and the list once empty. */
  lemma UserIndexedDrop(byId: map<string, DownloadTask>, byUser: map<string, seq<string>>, id: string)
    requires UserIndexed(byId, byUser) && id in byId
    ensures UserIndexed(byId - {id}, DropUserId(byUser, byId[id].userId, id))
  {
    var u0 := byId[id].userId;
    WithoutSpec(byUser[u0], id);
    var b := DropUserId(byUser, u0, id);
    forall u, i | u in b && i in b[u]
      ensures i in byId - {id} && byId[i].userId == u
    {
      if u == u0 { assert i in byUser[u0]; }
    }
    forall i | i in byId - {id}
      ensures byId[i].userId in b && i in b[byId[i].userId]
    {
      if byId[i].userId == u0 { assert i in Without(byUser[u0], id); }
    }
  }

  /** The first pending task of `u` with this url, looking through the user's ids in order. */
  function FirstDuplicate(ids: seq<string>, byId: map<string, DownloadTask>, url: string): (r: Option<DownloadTask>)
    reads byId.Values
    ensures r.Some? ==> exists id :: id in ids && id in byId && byId[id] == r.value
    ensures r.Some? ==> r.value.url == url && r.value.status == Pending
    ensures r.Some? ==> exists k :: 0 <= k < |ids| && ids[k] in byId && byId[ids[k]] == r.value
                                    && forall j :: 0 <= j < k ==> !PendingWith(ids[j], byId, url)
    ensures r.None? <==> forall id :: id in ids && id in byId ==> !(byId[id].url == url && byId[id].status == Pending)
  {
    if ids == [] then None
    else if PendingWith(ids[0], byId, url) then Some(byId[ids[0]])
    else
      var r := FirstDuplicate(ids[1..], byId, url);
      assert forall id :: id in ids <==> id == ids[0] || id in ids[1..];
      assert r.Some? ==> exists k :: 1 <= k < |ids| && ids[k] in byId && byId[ids[k]] == r.value
                                     && forall j :: 0 <= j < k ==> !PendingWith(ids[j], byId, url) by {
        if r.Some? {
          var k :| 0 <= k < |ids[1..]| && ids[1..][k] in byId && byId[ids[1..][k]] == r.value
                   && forall j :: 0 <= j < k ==> !PendingWith(ids[1..][j], byId, url);
          assert forall j :: 1 <= j < k + 1 ==> ids[j] == ids[1..][j - 1];
        }
      }
      r
  }

  /** The id names a pending task with this url. */
  predicate PendingWith(id: string, byId: map<string, DownloadTask>, url: string)
    reads byId.Values
  {
    id in byId && byId[id].url == url && byId[id].status == Pending
  }

  class TaskQueue {
    const maxSize: int
    var tasks: seq<DownloadTask>
    var byId: map<string, DownloadTask>
    var byUser: map<string, seq<string>>

    /** The list and the id index agree, the list is in order, and the user index is in step. */
    ghost predicate Valid()
      reads this
    {
      Listed(tasks, byId, maxSize) && UserIndexed(byId, byUser)
    }

    constructor (maxSize: int)
      ensures this.maxSize == maxSize && tasks == [] && byId == map[] && byUser == map[] && Valid()
    {
      this.maxSize := maxSize;
      tasks := [];
      byId := map[];
      byUser := map[];
    }

    function Len(): nat
      reads this
    {
      |tasks|
    }

    predicate IsEmpty()
      reads this
    {
      |tasks| == 0
    }

    predicate IsFull()
      reads this
    {
      |tasks| >= maxSize
    }

    /** `push`: refused when full, on a known id, or on a pending task of the user with the same url. */
    method Push(task: DownloadTask) returns (ok: bool, message: string)
      requires Valid()
      modifies this
      ensures Valid()
      ensures old(IsFull()) ==>
        !ok && message == "队列已满（最大 " + IntToString(maxSize) + " 个任务）" && unchanged(this)
      ensures !old(IsFull()) && task.taskId in old(byId) ==>
        !ok && message == "任务已存在: " + task.taskId && unchanged(this)
      ensures !old(IsFull()) && task.taskId !in old(byId)
              && old(FirstDuplicate(UserIds(byUser, task.userId), byId, task.url)).Some? ==>
        !ok && unchanged(this)
        && message == "您已有相同的下载任务在队列中（ID: "
                      + old(FirstDuplicate(UserIds(byUser, task.userId), byId, task.url)).value.taskId + "）"
      ensures ok <==> !old(IsFull()) && task.taskId !in old(byId)
                      && old(FirstDuplicate(UserIds(byUser, task.userId), byId, task.url)).None?
      ensures ok ==>
        tasks == InsertByKey(task, old(tasks)) && byId == old(byId)[task.taskId := task]
        && byUser == old(byUser)[task.userId := UserIds(old(byUser), task.userId) + [task.taskId]]
        && message == "已加入队列，位置：第 " + IntToString(PositionOf(tasks, task.taskId)) + " 位"
    {
      if IsFull() {
        return false, "队列已满（最大 " + IntToString(maxSize) + " 个任务）";
      }
      if task.taskId in byId {
        return false, "任务已存在: " + task.taskId;
      }
      var duplicate := HasDuplicate(task.userId, task.url);
      if duplicate {
        var existing := FindDuplicate(task.userId, task.url);
        return false, "您已有相同的下载任务在队列中（ID: " + existing.value.taskId + "）";
      }
      Index(task);
      var position := GetPosition(task.taskId);
      return true, "已加入队列，位置：第 " + IntToString(position) + " 位";
    }

    /** The accepted push: append and re-sort, then index by id and by user. */
    method Index(task: DownloadTask)
      requires Valid() && !IsFull() && task.taskId !in byId
      modifies this
      ensures Valid()
      ensures tasks == InsertByKey(task, old(tasks)) && byId == old(byId)[task.taskId := task]
      ensures byUser == old(byUser)[task.userId := UserIds(old(byUser), task.userId) + [task.taskId]]
    {
      ListedInsert(tasks, byId, maxSize, task);
      UserIndexedAdd(byId, byUser, task);
      tasks := InsertByKey(task, tasks);
      byId := byId[task.taskId := task];
      byUser := byUser[task.userId := UserIds(byUser, task.userId) + [task.taskId]];
    }

    /** `pop`: the head, which no queued task precedes, taken out of the list and both indexes. */
    method Pop() returns (r: Option<DownloadTask>)
      requires Valid()
      modifies this
      ensures Valid()
      ensures old(tasks) == [] ==> r.None? && unchanged(this)
      ensures old(tasks) != [] ==>
        r == Some(old(tasks)[0]) && tasks == old(tasks)[1..]
        && byId == old(byId) - {r.value.taskId}
        && byUser == DropUserId(old(byUser), r.value.userId, r.value.taskId)
        && forall t :: t in tasks ==> KeyLeq(r.value, t)
    {
      if tasks == [] {
        return None;
      }
      var task := tasks[0];
      Unindex(0);
      assert DeleteAt(old(tasks), 0) == old(tasks)[1..];
      return Some(task);
    }

    /** Takes the task at position `k` out of the list and both indexes. */
    method Unindex(k: nat)
      requires Valid() && k < |tasks|
      modifies this
      ensures Valid()
      ensures tasks == DeleteAt(old(tasks), k) && byId == old(byId) - {old(tasks)[k].taskId}
      ensures byUser == DropUserId(old(byUser), old(tasks)[k].userId, old(tasks)[k].taskId)
    {
      var task := tasks[k];
      ListedDelete(tasks, byId, maxSize, k);
      UserIndexedDrop(byId, byUser, task.taskId);
      tasks := DeleteAt(tasks, k);
      byId := byId - {task.taskId};
      byUser := DropUserId(byUser, task.userId, task.taskId);
    }

    /** `peek`: the head, left in place. */
    function Peek(): (r: Option<DownloadTask>)
      reads this
      requires Valid()
      ensures tasks == [] <==> r.None?
      ensures r.Some? ==> r.value in tasks && forall t :: t in tasks ==> KeyLeq(r.value, t)
    {
      if tasks == [] then None else Some(tasks[0])
    }

    /** `remove`: an unknown id gives None; a known one is taken out of the list and both indexes. */
    method Remove(taskId: string) returns (r: Option<DownloadTask>)
      requires Valid()
      modifies this
      ensures Valid()
      ensures taskId !in old(byId) ==> r.None? && unchanged(this)
      ensures taskId in old(byId) ==>
        r == Some(old(byId)[taskId]) && byId == old(byId) - {taskId}
        && old(HasId(tasks, taskId)) && tasks == DeleteAt(old(tasks), PositionIn(old(tasks), taskId))
        && (forall t :: t in tasks <==> t in old(tasks) && t.taskId != taskId)
        && byUser == DropUserId(old(byUser), r.value.userId, taskId)
    {
      if taskId !in byId {
        return None;
      }
      var task := byId[taskId];
      ListedHas(tasks, byId, maxSize, taskId);
      var k := PositionIn(tasks, taskId);
      DeleteAtMembers(tasks, k);
      Unindex(k);
      return Some(task);
    }

    /** `get`. */
    function Get(taskId: string): (r: Option<DownloadTask>)
      reads this
      requires Valid()
      ensures r.Some? <==> HasId(tasks, taskId)
      ensures r.Some? ==> r.value in tasks && r.value.taskId == taskId
    {
      ListedHas(tasks, byId, maxSize, taskId);
      if taskId in byId then Some(byId[taskId]) else None
    }

    /** `get_user_tasks`: the user's indexed tasks, in the order they were pushed. */
    function GetUserTasks(userId: string): (r: seq<DownloadTask>)
      reads this
      requires Valid()
      ensures forall t :: t in r ==> t in tasks && t.userId == userId
      ensures forall t :: t in tasks && t.userId == userId ==> t in r
    {
      var ids := UserIds(byUser, userId);
      var r := Lookup(ids, byId);
      assert forall t :: t in tasks && t.userId == userId ==> t.taskId in ids;
      r
    }

    /** `get_position` / `_get_position_unlocked`: a scan of the list. */
    method GetPosition(taskId: string) returns (p: int)
      ensures p == PositionOf(tasks, taskId)
    {
      for i := 0 to |tasks|
        invariant forall j :: 0 <= j < i ==> tasks[j].taskId != taskId
      {
        if tasks[i].taskId == taskId {
          assert PositionIn(tasks, taskId) == i by {
            var k := PositionIn(tasks, taskId);
            assert !(k < i) && !(i < k);
          }
          return i + 1;
        }
      }
      return -1;
    }

    /** `has_duplicate` / `has_duplicate_unlocked`. */
    method HasDuplicate(userId: string, url: string) returns (b: bool)
      ensures b <==> FirstDuplicate(UserIds(byUser, userId), byId, url).Some?
    {
      var d := FindDuplicate(userId, url);
      return d.Some?;
    }

    /** `_find_duplicate_unlocked`: a scan of the user's ids. */
    method FindDuplicate(userId: string, url: string) returns (d: Option<DownloadTask>)
      ensures d == FirstDuplicate(UserIds(byUser, userId), byId, url)
    {
      var ids := UserIds(byUser, userId);
      for i := 0 to |ids|
        invariant FirstDuplicate(ids, byId, url) == FirstDuplicate(ids[i..], byId, url)
      {
        assert ids[i..][1..] == ids[i + 1..];
        if ids[i] in byId && byId[ids[i]].url == url && byId[ids[i]].status == Pending {
          return Some(byId[ids[i]]);
        }
      }
      return None;
    }

    /** `list_tasks`: a copy of the list, cut to `limit` as a Python slice would. */
    function ListTasks(limit: Option<int>): (r: seq<DownloadTask>)
      reads this
      ensures limit.None? ==> r == tasks
      ensures limit.Some? && 0 <= limit.value ==> r == tasks[..if limit.value < |tasks| then limit.value else |tasks|]
      ensures limit.Some? && limit.value < 0 ==> r == tasks[..if |tasks| + limit.value > 0 then |tasks| + limit.value else 0]
    {
      if limit.None? then tasks
      else if limit.value >= 0 then tasks[..if limit.value < |tasks| then limit.value else |tasks|]
      else tasks[..if |tasks| + limit.value > 0 then |tasks| + limit.value else 0]
    }

    /** `clear`: the old length, and nothing left. */
    method Clear() returns (count: nat)
      modifies this
      ensures count == old(|tasks|) && tasks == [] && byId == map[] && byUser == map[] && Valid()
    {
      count := |tasks|;
      tasks := [];
      byId := map[];
      byUser := map[];
    }

    /** Takes the listed task with id `id` out of the list and the id index only. */
    method Unlist(id: string) returns (task: DownloadTask)
      requires Listed(tasks, byId, maxSize) && id in byId
      modifies this
      ensures Listed(tasks, byId, maxSize) && byUser == old(byUser)
      ensures task == old(byId)[id] && byId == old(byId) - {id}
      ensures forall t :: t in tasks <==> t in old(tasks) && t.taskId != id
    {
      task := byId[id];
      ListedHas(tasks, byId, maxSize, id);
      var k := PositionIn(tasks, id);
      ListedDelete(tasks, byId, maxSize, k);
      DeleteAtMembers(tasks, k);
      tasks := DeleteAt(tasks, k);
      byId := byId - {id};
    }

    /**
     * `remove_user_tasks`: every task of the user is taken out, in the order of the user's
     * index, and the user's index entry goes.
     */
    method RemoveUserTasks(userId: string) returns (removed: seq<DownloadTask>)
      requires Valid()
      modifies this
      ensures Valid()
      ensures removed == old(GetUserTasks(userId))
      ensures forall t :: t in tasks <==> t in old(tasks) && t.userId != userId
      ensures byId == old(byId) - Elems(old(UserIds(byUser, userId)))
      ensures byUser == old(byUser) - {userId}
    {
      var ids := UserIds(byUser, userId);
      UserIndexedRemoveUser(byId, byUser, userId);
      removed := UnlistAll(ids);
      LookupAll(ids, old(byId));
      byUser := byUser - {userId};
    }

    /** The loop of `remove_user_tasks`: takes each listed id out of the list and the id index. */
    method UnlistAll(ids: seq<string>) returns (removed: seq<DownloadTask>)
      requires Listed(tasks, byId, maxSize) && Distinct(ids) && forall id :: id in ids ==> id in byId
      modifies this
      ensures Listed(tasks, byId, maxSize) && byUser == old(byUser)
      ensures byId == old(byId) - Elems(ids)
      ensures forall t :: t in tasks <==> t in old(tasks) && t.taskId !in Elems(ids)
      ensures |removed| == |ids| && forall j :: 0 <= j < |ids| ==> removed[j] == old(byId)[ids[j]]
    {
      ghost var before := tasks;
      ghost var beforeId := byId;
      ghost var done: set<string> := {};
      removed := [];
      for i := 0 to |ids|
        invariant Listed(tasks, byId, maxSize) && byUser == old(byUser)
        invariant done == Elems(ids[..i]) && byId == beforeId - done
        invariant forall t :: t in tasks <==> t in before && t.taskId !in done
        invariant |removed| == i && forall j :: 0 <= j < i ==> removed[j] == beforeId[ids[j]]
      {
        ElemsPrefix(ids, i);
        DistinctAt(ids, i);
        MapMinusStep(beforeId, done, ids[i]);
        ghost var mid := tasks;
        var task := Unlist(ids[i]);
        UnlistStep(before, mid, tasks, done, ids[i]);
        assert task == beforeId[ids[i]];
        RemovedStep(removed, task, ids, beforeId, i);
        removed := removed + [task];
        done := done + {ids[i]};
      }
      assert ids[..|ids|] == ids;
    }
  }

  lemma RemovedStep(removed: seq<DownloadTask>, task: DownloadTask, ids: seq<string>, byId: map<string, DownloadTask>, i: nat)
    requires i < |ids| && ids[i] in byId && task == byId[ids[i]]
    requires |removed| == i && forall j :: 0 <= j < i ==> ids[j] in byId && removed[j] == byId[ids[j]]
    ensures |removed + [task]| == i + 1 && forall j :: 0 <= j < i + 1 ==> ids[j] in byId && (removed + [task])[j] == byId[ids[j]]
  {
  }

  lemma UnlistStep(before: seq<DownloadTask>, mid: seq<DownloadTask>, after: seq<DownloadTask>, done: set<string>, id: string)
    requires forall t :: t in mid <==> t in before && t.taskId !in done
    requires forall t :: t in after <==> t in mid && t.taskId != id
    ensures forall t :: t in after <==> t in before && t.taskId !in done + {id}
  {
  }

  /** Dropping every id of `u` from the id index, and `u` from the user index, keeps them in step. */
  lemma UserIndexedRemoveUser(byId: map<string, DownloadTask>, byUser: map<string, seq<string>>, u: string)
    requires UserIndexed(byId, byUser)
    ensures UserIndexed(byId - Elems(UserIds(byUser, u)), byUser - {u})
    ensures forall id :: id in byId ==> (id in Elems(UserIds(byUser, u)) <==> byId[id].userId == u)
  {
    var gone := Elems(UserIds(byUser, u));
    var b := byUser - {u};
    forall id | id in byId
      ensures id in gone <==> byId[id].userId == u
    {
      if id in gone { assert id in byUser[u]; }
    }
    forall v, id | v in b && id in b[v]
      ensures id in byId - gone && (byId - gone)[id].userId == v
    {
      assert id in byUser[v];
    }
  }

  /** `[by_id[tid] for tid in ids if tid in by_id]`. */
  function Lookup(ids: seq<string>, byId: map<string, DownloadTask>): (r: seq<DownloadTask>)
    ensures forall t :: t in r ==> exists id :: id in ids && id in byId && byId[id] == t
    ensures forall id :: id in ids && id in byId ==> byId[id] in r
  {
    if ids == [] then []
    else
      var rest := Lookup(ids[1..], byId);
      assert forall id :: id in ids <==> id == ids[0] || id in ids[1..];
      if ids[0] in byId then [byId[ids[0]]] + rest else rest
  }

  /** With every id indexed, the lookup is the indexed task of each id in turn. */
  lemma {:induction false} LookupAll(ids: seq<string>, byId: map<string, DownloadTask>)
    requires forall id :: id in ids ==> id in byId
    ensures |Lookup(ids, byId)| == |ids| && forall j :: 0 <= j < |ids| ==> Lookup(ids, byId)[j] == byId[ids[j]]
  {
    if ids != [] {
      LookupAll(ids[1..], byId);
    }
  }

  lemma {:induction false} LookupSnoc(ids: seq<string>, id: string, byId: map<string, DownloadTask>)
    ensures Lookup(ids + [id], byId) == Lookup(ids, byId) + (if id in byId then [byId[id]] else [])
  {
    if ids != [] {
      assert (ids + [id])[1..] == ids[1..] + [id];
      LookupSnoc(ids[1..], id, byId);
    }
  }
}
