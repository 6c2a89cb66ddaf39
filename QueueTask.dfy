/**
 * A queued download: its status machine, its priority order and its timing. The status and the
 * timestamps of a `DownloadTask` object are updated in place as the task moves through the
 * queue; everything fixed at creation is a `const`. Clock readings are seconds as `real`.
 */
module QueueTask {
  import opened Wrappers
  import opened Text
  import opened Downloader

  datatype TaskStatus = Pending | Processing | Completed | Failed | Cancelled | Timeout

  /** The enum's string value. */
  function StatusValue(s: TaskStatus): string
  {
    match s
    case Pending => "pending"
    case Processing => "processing"
    case Completed => "completed"
    case Failed => "failed"
    case Cancelled => "cancelled"
    case Timeout => "timeout"
  }

  predicate IsTerminal(s: TaskStatus)
  {
    s == Completed || s == Failed || s == Cancelled || s == Timeout
  }

  predicate IsActive(s: TaskStatus)
  {
    s == Pending || s == Processing
  }

  /** Every status is either terminal or active, never both; the string values are distinct. */
  lemma StatusPartition(s: TaskStatus, t: TaskStatus)
    ensures IsTerminal(s) <==> !IsActive(s)
    ensures StatusValue(s) == StatusValue(t) ==> s == t
  {
    if s != t {
      assert StatusValue(s)[0] != StatusValue(t)[0] || StatusValue(s)[1] != StatusValue(t)[1]
        || |StatusValue(s)| != |StatusValue(t)|;
    }
  }

  datatype TaskPriority = Low | Normal | High | Urgent

  function PriorityValue(p: TaskPriority): (v: nat)
    ensures v <= 3
  {
    match p
    case Low => 0
    case Normal => 1
    case High => 2
    case Urgent => 3
  }

  /** The transition table: what each status may move to. */
  function AllowedTransitions(s: TaskStatus): set<TaskStatus>
  {
    match s
    case Pending => {Processing, Cancelled, Timeout}
    case Processing => {Completed, Failed, Timeout, Cancelled}
    case _ => {}
  }

  predicate CanTransition(from: TaskStatus, to: TaskStatus)
  {
    to in AllowedTransitions(from)
  }

  /** How far along its life a status is: waiting, running, finished. */
  function Stage(s: TaskStatus): nat
  {
    if s == Pending then 0 else if s == Processing then 1 else 2
  }

  /**
   * The table read as rules: only an active status moves, always to a later stage, and a task
   * cannot complete or fail without having been processed.
   */
  lemma TransitionRules(from: TaskStatus, to: TaskStatus)
    ensures CanTransition(from, to) <==>
      IsActive(from) && Stage(from) < Stage(to) && !(from == Pending && (to == Completed || to == Failed))
  {
  }

  /** Terminal statuses are final, and every terminal status can be reached from `Pending`. */
  lemma TerminalIsFinal(s: TaskStatus, t: TaskStatus)
    ensures IsTerminal(s) ==> AllowedTransitions(s) == {} && !CanTransition(s, t)
    ensures IsTerminal(t) ==> CanTransition(Pending, Processing) && CanTransition(Processing, t)
  {
  }

  /** A sequence of statuses in which each step is an allowed transition. */
  predicate IsRun(run: seq<TaskStatus>)
  {
    forall i :: 0 <= i < |run| - 1 ==> CanTransition(run[i], run[i + 1])
  }

  /** No status repeats along a run, so a task changes status at most twice. */
  lemma {:induction false} RunIsShort(run: seq<TaskStatus>)
    requires run != [] && IsRun(run)
    ensures |run| + Stage(run[0]) <= 3
    ensures IsTerminal(run[|run| - 1]) || IsActive(run[|run| - 1])
    decreases |run|
  {
    StatusPartition(run[|run| - 1], run[|run| - 1]);
    if |run| > 1 {
      assert IsRun(run[1..]) by {
        forall i | 0 <= i < |run[1..]| - 1
          ensures CanTransition(run[1..][i], run[1..][i + 1])
        {
          assert run[1..][i] == run[i + 1] && run[1..][i + 1] == run[i + 2];
        }
      }
      RunIsShort(run[1..]);
      TransitionRules(run[0], run[1]);
    }
  }

  /** The error raised for a disallowed move. */
  function TransitionError(from: TaskStatus, to: TaskStatus): string
  {
    "Invalid state transition: " + StatusValue(from) + " -> " + StatusValue(to)
  }

  /** Python's truth value of an optional timestamp: `None` and `0.0` are false. */
  predicate Truthy(t: Option<real>)
  {
    t.Some? && t.value != 0.0
  }

  /** `wait_time`: until the start, or until `now` while not started. */
  function WaitTime(createdAt: real, startedAt: Option<real>, now: real): real
  {
    if Truthy(startedAt) then startedAt.value - createdAt else now - createdAt
  }

  /** `process_time`: 0 before the start, then until completion or `now`. */
  function ProcessTime(startedAt: Option<real>, completedAt: Option<real>, now: real): real
  {
    if !Truthy(startedAt) then 0.0
    else (if Truthy(completedAt) then completedAt.value else now) - startedAt.value
  }

  /** `total_time`: until completion, or until `now` while not completed. */
  function TotalTime(createdAt: real, completedAt: Option<real>, now: real): real
  {
    if !Truthy(completedAt) then now - createdAt else completedAt.value - createdAt
  }

  /**
   * Waiting and processing make up the whole life of a task once it has started, whether it
   * has finished or not; before the start, all of it is waiting.
   */
  lemma TimesAddUp(createdAt: real, startedAt: Option<real>, completedAt: Option<real>, now: real)
    ensures Truthy(startedAt) ==>
      WaitTime(createdAt, startedAt, now) + ProcessTime(startedAt, completedAt, now) == TotalTime(createdAt, completedAt, now)
    ensures !Truthy(startedAt) ==>
      ProcessTime(startedAt, completedAt, now) == 0.0 && WaitTime(createdAt, startedAt, now) == now - createdAt
  {
  }

  /** `__lt__`: a higher priority first, then the earlier creation. */
  predicate RunsBefore(p1: TaskPriority, c1: real, p2: TaskPriority, c2: real)
  {
    if PriorityValue(p1) != PriorityValue(p2) then PriorityValue(p1) > PriorityValue(p2) else c1 < c2
  }

  /** The storage's sort key `(-priority, created_at)`, compared as a Python tuple. */
  predicate SortKeyLess(p1: TaskPriority, c1: real, p2: TaskPriority, c2: real)
  {
    var k1, k2 := -(PriorityValue(p1) as int), -(PriorityValue(p2) as int);
    k1 < k2 || (k1 == k2 && c1 < c2)
  }

  /** `__lt__` and the storage's sort key order tasks the same way, as a strict order. */
  lemma RunsBeforeIsSortKeyOrder(p1: TaskPriority, c1: real, p2: TaskPriority, c2: real, p3: TaskPriority, c3: real)
    ensures RunsBefore(p1, c1, p2, c2) <==> SortKeyLess(p1, c1, p2, c2)
    ensures !RunsBefore(p1, c1, p1, c1)
    ensures RunsBefore(p1, c1, p2, c2) && RunsBefore(p2, c2, p3, c3) ==> RunsBefore(p1, c1, p3, c3)
  {
  }

  /** `_truncate_url` with the default width of 50. */
  const UrlDisplayWidth := 50

  /**
   * `_truncate_url`: the url when it fits in `maxLength`, else its first `maxLength - 3`
   * characters and "..."; a width under 3 slices from the end, as Python's negative index does.
   */
  function TruncateUrl(url: string, maxLength: nat): (r: string)
    ensures |url| <= maxLength ==> r == url
    ensures |url| > maxLength && maxLength >= 3 ==> |r| == maxLength && r == url[..maxLength - 3] + "..."
    ensures |url| > maxLength ==> EndsWith(r, "...") && StartsWith(url, r[..|r| - 3])
  {
    if |url| <= maxLength then url
    else
      var cut := if maxLength >= 3 then maxLength - 3 else if |url| >= 3 - maxLength then |url| - (3 - maxLength) else 0;
      var r := url[..cut] + "...";
      assert r[..|r| - 3] == url[..cut];
      r
  }

  class DownloadTask {
    const taskId: string
    const url: string
    const quality: string
    const qualityDisplay: string
    const userId: string
    const userName: string
    const unifiedMsgOrigin: string
    const songName: Option<string>
    const priority: TaskPriority
    const createdAt: real
    var status: TaskStatus
    var startedAt: Option<real>
    var completedAt: Option<real>
    var result: Option<DownloadResult>
    var error: Option<string>

    /** A new pending task; `taskId` stands for the first 8 characters of a random uuid. */
    constructor (taskId: string, url: string, quality: string, qualityDisplay: string, userId: string,
                 userName: string, unifiedMsgOrigin: string, songName: Option<string>,
                 priority: TaskPriority, createdAt: real)
      ensures this.taskId == taskId && this.url == url && this.quality == quality
      ensures this.qualityDisplay == qualityDisplay && this.userId == userId && this.userName == userName
      ensures this.unifiedMsgOrigin == unifiedMsgOrigin && this.songName == songName
      ensures this.priority == priority && this.createdAt == createdAt
      ensures status == Pending && startedAt.None? && completedAt.None? && result.None? && error.None?
    {
      this.taskId := taskId;
      this.url := url;
      this.quality := quality;
      this.qualityDisplay := qualityDisplay;
      this.userId := userId;
      this.userName := userName;
      this.unifiedMsgOrigin := unifiedMsgOrigin;
      this.songName := songName;
      this.priority := priority;
      this.createdAt := createdAt;
      status := Pending;
      startedAt := None;
      completedAt := None;
      result := None;
      error := None;
    }

    /**
     * `transition_to` at clock reading `now`: a disallowed move raises (the message returned)
     * and changes nothing; an allowed one records the start or the completion time.
     */
    method TransitionTo(newStatus: TaskStatus, now: real) returns (raised: Option<string>)
      modifies this
      ensures raised.Some? <==> !CanTransition(old(status), newStatus)
      ensures raised.Some? ==> raised.value == TransitionError(old(status), newStatus) && unchanged(this)
      ensures raised.None? ==>
        status == newStatus && result == old(result) && error == old(error)
        && startedAt == (if newStatus == Processing then Some(now) else old(startedAt))
        && completedAt == (if IsTerminal(newStatus) then Some(now) else old(completedAt))
    {
      if !CanTransition(status, newStatus) {
        return Some(TransitionError(status, newStatus));
      }
      status := newStatus;
      if newStatus == Processing {
        startedAt := Some(now);
      } else if IsTerminal(newStatus) {
        completedAt := Some(now);
      }
      return None;
    }

    /** `try_transition_to`: true iff the move is allowed, and the status changes only then. */
    method TryTransitionTo(newStatus: TaskStatus, now: real) returns (moved: bool)
      modifies this
      ensures moved == CanTransition(old(status), newStatus)
      ensures !moved ==> unchanged(this)
      ensures moved ==>
        status == newStatus && result == old(result) && error == old(error)
        && startedAt == (if newStatus == Processing then Some(now) else old(startedAt))
        && completedAt == (if IsTerminal(newStatus) then Some(now) else old(completedAt))
    {
      if CanTransition(status, newStatus) {
        var raised := TransitionTo(newStatus, now);
        return true;
      }
      return false;
    }

    function Wait(now: real): real
      reads this
    {
      WaitTime(createdAt, startedAt, now)
    }

    function Process(now: real): real
      reads this
    {
      ProcessTime(startedAt, completedAt, now)
    }

    /** `__eq__`/`__hash__`: two tasks are the same task when their ids agree. */
    predicate SameTask(other: DownloadTask)
    {
      taskId == other.taskId
    }
  }
}
