/**
 * The health monitor: classifies probe outcomes, keeps a bounded per-instance history, counts
 * trailing failures, and drives restart-based recovery with an attempt limit and exponential
 * back-off.
 */
module HealthMonitor {
  import opened Wrappers
  import opened Text
  import opened WrapperProxy
  import opened InstanceManager

  datatype HealthStatus = Healthy | Degraded | Unhealthy | Recovering

  /** One health check. Times are integer clock readings; the response time is milliseconds. */
  datatype HealthCheckResult = HealthCheckResult(
    instanceId: string, status: HealthStatus, timestamp: int,
    error: Option<string>, responseTimeMs: Option<int>, consecutiveFailures: int)

  /** What awaiting the proxy's health check produced. */
  datatype ProbeOutcome =
    | Answered(healthy: bool, responseTimeMs: int)  // health_check() returned in time
    | TimedOut                                      // the 5-second wait_for expired
    | Raised(message: string)                       // any other exception, with its text

  const MaxHistory := 100
  const BackoffBaseSeconds := 30

  const NoProxyAvailable := "No proxy available"
  const ReturnedFalse := "Health check returned false"
  const CheckTimeout := "Health check timeout"

  /** The number of results at the end of `h` that are not HEALTHY. */
  function TrailingFailures(h: seq<HealthCheckResult>): (n: nat)
    ensures n <= |h|
    ensures forall k :: |h| - n <= k < |h| ==> h[k].status != Healthy
    ensures n < |h| ==> h[|h| - 1 - n].status == Healthy
  {
    if h == [] || h[|h| - 1].status == Healthy then 0 else TrailingFailures(h[..|h| - 1]) + 1
  }

  /** `_check_instance_health` given the earlier failure count `prev`. */
  function Classify(id: string, hasProxy: bool, outcome: ProbeOutcome, prev: nat, now: int): HealthCheckResult
  {
    if !hasProxy then HealthCheckResult(id, Unhealthy, now, Some(NoProxyAvailable), None, 0)
    else match outcome
      case Answered(true, ms) => HealthCheckResult(id, Healthy, now, None, Some(ms), 0)
      case Answered(false, ms) => HealthCheckResult(id, Degraded, now, Some(ReturnedFalse), Some(ms), prev + 1)
      case TimedOut => HealthCheckResult(id, Unhealthy, now, Some(CheckTimeout), None, prev + 1)
      case Raised(msg) => HealthCheckResult(id, Unhealthy, now, Some(msg), None, prev + 1)
  }

  /**
   * A probe of an instance with a proxy records, as its failure count, exactly the trailing
   * failures of the history once the result is appended: 0 after a HEALTHY answer, one more than
   * before otherwise. Only a DEGRADED answer is a non-HEALTHY result that is not UNHEALTHY.
   */
  lemma {:induction false} ClassifyCountsHistory(h: seq<HealthCheckResult>, id: string, outcome: ProbeOutcome, now: int)
    ensures var r := Classify(id, true, outcome, TrailingFailures(h), now);
      r.consecutiveFailures == TrailingFailures(h + [r])
      && (r.status == Healthy <==> outcome.Answered? && outcome.healthy)
      && (r.status == Degraded <==> outcome.Answered? && !outcome.healthy)
  {
    var r := Classify(id, true, outcome, TrailingFailures(h), now);
    assert (h + [r])[..|h + [r]| - 1] == h;
  }

  /** A missing proxy is UNHEALTHY yet records no failures. */
  lemma MissingProxyRecordsZero(id: string, outcome: ProbeOutcome, prev: nat, now: int)
    ensures Classify(id, false, outcome, prev, now).status == Unhealthy
    ensures Classify(id, false, outcome, prev, now).consecutiveFailures == 0
  {
  }

  /** `history[-100:]` once it grew past 100. */
  function Recent(h: seq<HealthCheckResult>): (r: seq<HealthCheckResult>)
    ensures |r| == if |h| > MaxHistory then MaxHistory else |h|
    ensures r == h[|h| - |r|..]
  {
    if |h| > MaxHistory then h[|h| - MaxHistory..] else h
  }

  function Pow2(n: nat): (p: nat)
    ensures p >= 1
  {
    if n == 0 then 1 else 2 * Pow2(n - 1)
  }

  /** Which way `_trigger_recovery` goes before doing anything. */
  datatype RecoveryDecision = Disabled | GiveUp | TooSoon | Attempt

  function Decide(enabled: bool, attempts: nat, maxAttempts: int, last: Option<int>, now: int): (d: RecoveryDecision)
    ensures d == Attempt <==>
      enabled && attempts < maxAttempts && (last.Some? ==> now - last.value >= BackoffBaseSeconds * Pow2(attempts))
    ensures d == TooSoon ==> enabled && attempts < maxAttempts && last.Some?
                             && now - last.value < BackoffBaseSeconds * Pow2(attempts)
    ensures d == GiveUp <==> enabled && attempts >= maxAttempts
    ensures d == Disabled <==> !enabled
  {
    if !enabled then Disabled
    else if attempts >= maxAttempts then GiveUp
    else if last.Some? && now - last.value < BackoffBaseSeconds * Pow2(attempts) then TooSoon
    else Attempt
  }

  /** The back-off doubles with every recorded attempt. */
  lemma BackoffDoubles(attempts: nat)
    ensures BackoffBaseSeconds * Pow2(attempts + 1) == 2 * (BackoffBaseSeconds * Pow2(attempts))
  {
  }

  /** Python's `str()` of an optional error. */
  function OptionText(e: Option<string>): string
  {
    match e
    case None => "None"
    case Some(s) => s
  }

  datatype RecoveryAction = RecoveryAction(instanceId: string, actionType: string, reason: string, timestamp: int)

  /** The arguments of one `on_recovery_complete` call. */
  datatype RecoveryNotice = RecoveryNotice(instanceId: string, success: bool, message: string)

  function RecoveryActionFor(id: string, failures: int, error: Option<string>, now: int): RecoveryAction
  {
    RecoveryAction(id, "restart", "Consecutive failures: " + IntToString(failures) + ", error: " + OptionText(error), now)
  }

  /**
   * The (success, message) of `_perform_recovery`. `found` is whether the id is registered,
   * `hasProxy` whether that instance has a proxy, `startError` what restarting the proxy raises and
   * `probe` what the re-check's HTTP request gets.
   */
  function RecoveryOutcome(found: bool, hasProxy: bool, startError: Option<string>, probe: HttpProbe): (bool, string)
  {
    if !found then (false, "Instance not found")
    else if !hasProxy then (false, "No proxy to restart")
    else if startError.Some? then (false, "Recovery exception: " + startError.value)
    else if probe == Status(200) then (true, "Instance restarted successfully")
    else (false, "Instance restart failed health check")
  }

  /** The instance status `_perform_recovery` leaves behind, starting from `before`. */
  function StatusAfterRecovery(before: InstanceStatus, hasProxy: bool, startError: Option<string>, probe: HttpProbe): InstanceStatus
  {
    if !hasProxy then before
    else if startError.Some? then Failed
    else if probe == Status(200) then Active
    else before
  }

  /**
   * A recovery succeeds exactly when the restarted proxy answers 200, and then the instance is
   * ACTIVE; a restart that raises leaves it FAILED; any other failure restores the old status.
   */
  lemma RecoveryOutcomeStatus(before: InstanceStatus, hasProxy: bool, startError: Option<string>, probe: HttpProbe)
    ensures RecoveryOutcome(true, hasProxy, startError, probe).0
            <==> hasProxy && startError.None? && probe == Status(200)
    ensures RecoveryOutcome(true, hasProxy, startError, probe).0 ==>
              StatusAfterRecovery(before, hasProxy, startError, probe) == Active
    ensures !RecoveryOutcome(true, hasProxy, startError, probe).0 ==>
              StatusAfterRecovery(before, hasProxy, startError, probe) == (if hasProxy && startError.Some? then Failed else before)
  {
  }

  datatype HealthMetrics = HealthMetrics(
    totalChecks: nat, healthyCount: nat, unhealthyCount: nat,
    consecutiveFailures: int, recoveryAttempts: nat, lastCheck: Option<int>, lastStatus: Option<HealthStatus>)

  function CountStatus(h: seq<HealthCheckResult>, s: HealthStatus): (n: nat)
    ensures n <= |h|
  {
    if h == [] then 0 else (if h[0].status == s then 1 else 0) + CountStatus(h[1..], s)
  }

  /** The positions in a history of the results with status s. */
  function StatusIndices(h: seq<HealthCheckResult>, s: HealthStatus): set<nat>
  {
    set i: nat | i < |h| && h[i].status == s
  }

  lemma {:induction false} CountStatusSnoc(h: seq<HealthCheckResult>, x: HealthCheckResult, s: HealthStatus)
    ensures CountStatus(h + [x], s) == CountStatus(h, s) + (if x.status == s then 1 else 0)
  {
    if h != [] {
      assert (h + [x])[1..] == h[1..] + [x];
      CountStatusSnoc(h[1..], x, s);
    } else {
      assert [x][1..] == [];
    }
  }

  /** `sum(1 for r in history if r.status == s)`: the count is the number of such results. */
  lemma {:induction false} CountStatusIndices(h: seq<HealthCheckResult>, s: HealthStatus)
    ensures CountStatus(h, s) == |StatusIndices(h, s)|
  {
    if h != [] {
      var n := |h| - 1;
      var init := h[..n];
      assert h == init + [h[n]];
      CountStatusSnoc(init, h[n], s);
      CountStatusIndices(init, s);
      if h[n].status == s {
        assert StatusIndices(h, s) == StatusIndices(init, s) + {n};
      } else {
        assert StatusIndices(h, s) == StatusIndices(init, s);
      }
    }
  }

  /** HEALTHY and UNHEALTHY results together never outnumber the checks (DEGRADED is neither). */
  lemma {:induction false} HealthyUnhealthyBounded(h: seq<HealthCheckResult>)
    ensures CountStatus(h, Healthy) + CountStatus(h, Unhealthy) + CountStatus(h, Degraded) <= |h|
  {
    if h != [] { HealthyUnhealthyBounded(h[1..]); }
  }

  class HealthMonitor {
    const manager: InstanceManager
    const checkInterval: int
    const failureThreshold: int
    const recoveryEnabled: bool
    const maxRecoveryAttempts: int
    var history: map<string, seq<HealthCheckResult>>
    var recoveryAttempts: map<string, nat>
    var lastRecovery: map<string, int>
    /** Whether the recovery-start / recovery-complete callbacks are set. */
    var onRecoveryStart: bool
    var onRecoveryComplete: bool
    /** The calls made to those callbacks, oldest first. */
    var startNotices: seq<RecoveryAction>
    var completeNotices: seq<RecoveryNotice>
    var running: bool

    /** Histories are capped, and no recorded attempt count exceeds the configured maximum. */
    ghost predicate Valid()
      reads this
    {
      (forall id :: id in history ==> |history[id]| <= MaxHistory)
      && (forall id :: id in recoveryAttempts ==> recoveryAttempts[id] <= maxRecoveryAttempts)
    }

    constructor (manager: InstanceManager, checkInterval: int, failureThreshold: int, recoveryEnabled: bool,
                 maxRecoveryAttempts: int)
      ensures Valid() && this.manager == manager && this.checkInterval == checkInterval
      ensures this.failureThreshold == failureThreshold && this.recoveryEnabled == recoveryEnabled
      ensures this.maxRecoveryAttempts == maxRecoveryAttempts
      ensures history == map[] && recoveryAttempts == map[] && lastRecovery == map[]
      ensures !onRecoveryStart && !onRecoveryComplete && startNotices == [] && completeNotices == [] && !running
    {
      this.manager := manager;
      this.checkInterval := checkInterval;
      this.failureThreshold := failureThreshold;
      this.recoveryEnabled := recoveryEnabled;
      this.maxRecoveryAttempts := maxRecoveryAttempts;
      history := map[];
      recoveryAttempts := map[];
      lastRecovery := map[];
      onRecoveryStart := false;
      onRecoveryComplete := false;
      startNotices := [];
      completeNotices := [];
      running := false;
    }

    method SetRecoveryStartCallback()
      modifies this
      ensures onRecoveryStart && onRecoveryComplete == old(onRecoveryComplete)
      ensures history == old(history) && recoveryAttempts == old(recoveryAttempts) && lastRecovery == old(lastRecovery)
      ensures startNotices == old(startNotices) && completeNotices == old(completeNotices) && running == old(running)
    {
      onRecoveryStart := true;
    }

    method SetRecoveryCompleteCallback()
      modifies this
      ensures onRecoveryComplete && onRecoveryStart == old(onRecoveryStart)
      ensures history == old(history) && recoveryAttempts == old(recoveryAttempts) && lastRecovery == old(lastRecovery)
      ensures startNotices == old(startNotices) && completeNotices == old(completeNotices) && running == old(running)
    {
      onRecoveryComplete := true;
    }

    /** `start`: a second start is a no-op; otherwise the monitor is marked running. */
    method Start() returns (started: bool)
      modifies this
      ensures started <==> !old(running)
      ensures running
      ensures history == old(history) && recoveryAttempts == old(recoveryAttempts) && lastRecovery == old(lastRecovery)
      ensures startNotices == old(startNotices) && completeNotices == old(completeNotices)
      ensures onRecoveryStart == old(onRecoveryStart) && onRecoveryComplete == old(onRecoveryComplete)
    {
      if running {
        return false;
      }
      running := true;
      return true;
    }

    /** `stop`: always leaves the monitor stopped. */
    method Stop()
      modifies this
      ensures !running
      ensures history == old(history) && recoveryAttempts == old(recoveryAttempts) && lastRecovery == old(lastRecovery)
      ensures startNotices == old(startNotices) && completeNotices == old(completeNotices)
      ensures onRecoveryStart == old(onRecoveryStart) && onRecoveryComplete == old(onRecoveryComplete)
    {
      if !running {
        return;
      }
      running := false;
    }

    function HistoryOf(id: string): seq<HealthCheckResult>
      reads this
    {
      if id in history then history[id] else []
    }

    function AttemptsOf(id: string): nat
      reads this
    {
      if id in recoveryAttempts then recoveryAttempts[id] else 0
    }

    function LastRecoveryOf(id: string): Option<int>
      reads this
    {
      if id in lastRecovery then Some(lastRecovery[id]) else None
    }

    /** `_get_consecutive_failures`: walks the history backwards until a HEALTHY result. */
    method GetConsecutiveFailures(id: string) returns (failures: nat)
      ensures failures == TrailingFailures(HistoryOf(id))
    {
      var h := HistoryOf(id);
      if h == [] {
        return 0;
      }
      failures := 0;
      var i := |h|;
      while i > 0
        invariant 0 <= i <= |h| && failures == |h| - i
        invariant TrailingFailures(h) >= failures
        invariant forall k :: i <= k < |h| ==> h[k].status != Healthy
      {
        if h[i - 1].status == Healthy {
          break;
        }
        failures := failures + 1;
        i := i - 1;
      }
      TrailingFromSuffix(h, i);
    }

    /** `_check_instance_health` for `inst`, given what its probe produced. */
    method CheckInstanceHealth(inst: WrapperInstance, outcome: ProbeOutcome, now: int) returns (r: HealthCheckResult)
      ensures r == Classify(inst.instanceId, inst.proxy != null, outcome, TrailingFailures(HistoryOf(inst.instanceId)), now)
    {
      var prev := 0;
      if inst.proxy != null && !(outcome.Answered? && outcome.healthy) {
        prev := GetConsecutiveFailures(inst.instanceId);
      }
      r := Classify(inst.instanceId, inst.proxy != null, outcome, prev, now);
    }

    /** `get_health_status`: the status of the last recorded result, if any. */
    function GetHealthStatus(id: string): (s: Option<HealthStatus>)
      reads this
      ensures s.None? <==> HistoryOf(id) == []
      ensures s.Some? ==> s.value == HistoryOf(id)[|HistoryOf(id)| - 1].status
    {
      var h := HistoryOf(id);
      if h == [] then None else Some(h[|h| - 1].status)
    }

    /** `get_health_metrics` without the (floating-point) average response time. */
    function GetHealthMetrics(id: string): (m: HealthMetrics)
      reads this
      ensures m.totalChecks == |HistoryOf(id)|
      ensures m.healthyCount == |StatusIndices(HistoryOf(id), Healthy)|
      ensures m.unhealthyCount == |StatusIndices(HistoryOf(id), Unhealthy)|
      ensures m.healthyCount + m.unhealthyCount <= m.totalChecks
      ensures HistoryOf(id) == [] ==> m.consecutiveFailures == 0 && m.lastCheck == None
      ensures HistoryOf(id) != [] ==>
        var last := HistoryOf(id)[|HistoryOf(id)| - 1];
        m.consecutiveFailures == last.consecutiveFailures && m.lastCheck == Some(last.timestamp)
      ensures m.recoveryAttempts == (if HistoryOf(id) == [] then 0 else AttemptsOf(id))
      ensures m.lastStatus == GetHealthStatus(id)
    {
      var h := HistoryOf(id);
      if h == [] then HealthMetrics(0, 0, 0, 0, 0, None, None)
      else
        HealthyUnhealthyBounded(h);
        CountStatusIndices(h, Healthy);
        CountStatusIndices(h, Unhealthy);
        HealthMetrics(|h|, CountStatus(h, Healthy), CountStatus(h, Unhealthy), h[|h| - 1].consecutiveFailures,
                      AttemptsOf(id), Some(h[|h| - 1].timestamp), Some(h[|h| - 1].status))
    }

    /** `get_all_metrics`: one entry per instance with a history. */
    function GetAllMetrics(): (all: map<string, HealthMetrics>)
      reads this
      ensures all.Keys == history.Keys
      ensures forall id :: id in all ==> all[id] == GetHealthMetrics(id)
    {
      map id | id in history :: GetHealthMetrics(id)
    }

    /**
     * `_perform_recovery`: marks the instance INITIALIZING, stops and restarts its proxy and
     * re-checks it. `startError` is what the restart raises, `probe` what the re-check gets.
     */
    method PerformRecovery(id: string, startError: Option<string>, probe: HttpProbe)
      returns (success: bool, message: string)
      modifies manager.instances.Values, manager.Proxies()
      ensures var found := id in manager.instances;
        (success, message) == RecoveryOutcome(found, found && manager.instances[id].proxy != null, startError, probe)
      ensures id in manager.instances ==>
        var inst := manager.instances[id];
        inst.status == StatusAfterRecovery(old(inst.status), inst.proxy != null, startError, probe)
        && inst.lastUsed == old(inst.lastUsed) && inst.noRestart == old(inst.noRestart) && inst.error == old(inst.error)
        && (inst.proxy != null ==>
              inst.proxy.lastAdamId == old(inst.proxy.lastAdamId) && (inst.proxy.IsActive() <==> startError.None?))
      ensures forall x | x in manager.instances.Values && x != manager.GetInstance(id) :: unchanged(x)
      ensures forall p | p in manager.Proxies() && p !in manager.ProxyOf(id) :: unchanged(p)
    {
      var inst := manager.GetInstance(id);
      if inst == null {
        return false, "Instance not found";
      }
      var oldStatus := inst.status;
      inst.status := Initializing;
      var proxy := inst.proxy;
      if proxy == null {
        inst.status := oldStatus;
        return false, "No proxy to restart";
      }
      manager.ProxyOfInSet(id);
      proxy.Stop();
      var raised := proxy.Start(startError);
      if raised.Some? {
        inst.status := Failed;
        return false, "Recovery exception: " + raised.value;
      }
      var healthy := proxy.HealthCheck(probe);
      if healthy {
        inst.status := Active;
        return true, "Instance restarted successfully";
      }
      inst.status := oldStatus;
      return false, "Instance restart failed health check";
    }
    /**
     * `_trigger_recovery` for `result`, at clock reading `now`. Disabled recovery and a recovery
     * attempted too recently change nothing; at the attempt limit the instance is marked FAILED
     * with no_restart set and nothing is counted; otherwise the instance is restarted, the attempt
     * is counted and timed, the callbacks that are set are notified, and success resets the count.
     */
    method TriggerRecovery(result: HealthCheckResult, now: int, startError: Option<string>, probe: HttpProbe)
      returns (decision: RecoveryDecision, success: bool, message: string)
      requires Valid()
      modifies this, manager.instances.Values, manager.Proxies()
      ensures Valid()
      ensures var id := result.instanceId;
        decision == Decide(recoveryEnabled, old(AttemptsOf(id)), maxRecoveryAttempts, old(LastRecoveryOf(id)), now)
      ensures history == old(history) && running == old(running)
      ensures onRecoveryStart == old(onRecoveryStart) && onRecoveryComplete == old(onRecoveryComplete)
      ensures decision != Attempt ==>
        recoveryAttempts == old(recoveryAttempts) && lastRecovery == old(lastRecovery)
        && startNotices == old(startNotices) && completeNotices == old(completeNotices)
      ensures decision == GiveUp && result.instanceId in manager.instances ==>
        var inst := manager.instances[result.instanceId];
        inst.status == Failed && inst.noRestart && inst.lastUsed == old(inst.lastUsed) && inst.error == old(inst.error)
      ensures decision != Attempt ==> forall p | p in manager.Proxies() :: unchanged(p)
      ensures decision == Disabled || decision == TooSoon ==> forall x | x in manager.instances.Values :: unchanged(x)
      ensures decision == Attempt ==>
        var id := result.instanceId;
        var found := id in manager.instances;
        (success, message) == RecoveryOutcome(found, found && manager.instances[id].proxy != null, startError, probe)
        && recoveryAttempts == old(recoveryAttempts)[id := if success then 0 else old(AttemptsOf(id)) + 1]
        && lastRecovery == old(lastRecovery)[id := now]
        && startNotices == old(startNotices)
             + (if onRecoveryStart then [RecoveryActionFor(id, result.consecutiveFailures, result.error, now)] else [])
        && completeNotices == old(completeNotices)
             + (if onRecoveryComplete then [RecoveryNotice(id, success, message)] else [])
        && (found ==> manager.instances[id].status
                      == StatusAfterRecovery(old(manager.instances[id].status), manager.instances[id].proxy != null,
                                             startError, probe))
      ensures forall x | x in manager.instances.Values && x != manager.GetInstance(result.instanceId) :: unchanged(x)
      ensures forall p | p in manager.Proxies() && p !in manager.ProxyOf(result.instanceId) :: unchanged(p)
    {
      var id := result.instanceId;
      decision := Decide(recoveryEnabled, AttemptsOf(id), maxRecoveryAttempts, LastRecoveryOf(id), now);
      success, message := false, "";
      if decision == Disabled || decision == TooSoon {
        return;
      }
      if decision == GiveUp {
        MarkFailed(id);
        return;
      }
      success, message := AttemptRecovery(result, now, startError, probe);
    }

    /** The attempt branch of `_trigger_recovery`: restart, count and time the attempt, notify. */
    method AttemptRecovery(result: HealthCheckResult, now: int, startError: Option<string>, probe: HttpProbe)
      returns (success: bool, message: string)
      requires Valid() && AttemptsOf(result.instanceId) < maxRecoveryAttempts
      modifies this, manager.instances.Values, manager.Proxies()
      ensures Valid()
      ensures history == old(history) && running == old(running)
      ensures onRecoveryStart == old(onRecoveryStart) && onRecoveryComplete == old(onRecoveryComplete)
      ensures var id := result.instanceId;
        var found := id in manager.instances;
        (success, message) == RecoveryOutcome(found, found && manager.instances[id].proxy != null, startError, probe)
      ensures recoveryAttempts
              == old(recoveryAttempts)[result.instanceId := if success then 0 else old(AttemptsOf(result.instanceId)) + 1]
      ensures lastRecovery == old(lastRecovery)[result.instanceId := now]
      ensures startNotices == old(startNotices)
        + (if onRecoveryStart then [RecoveryActionFor(result.instanceId, result.consecutiveFailures, result.error, now)] else [])
      ensures completeNotices == old(completeNotices)
        + (if onRecoveryComplete then [RecoveryNotice(result.instanceId, success, message)] else [])
      ensures var id := result.instanceId;
        id in manager.instances ==>
          manager.instances[id].status
          == StatusAfterRecovery(old(manager.instances[id].status), manager.instances[id].proxy != null, startError, probe)
      ensures forall x | x in manager.instances.Values && x != manager.GetInstance(result.instanceId) :: unchanged(x)
      ensures forall p | p in manager.Proxies() && p !in manager.ProxyOf(result.instanceId) :: unchanged(p)
    {
      var id := result.instanceId;
      var attempts := AttemptsOf(id);
      if onRecoveryStart {
        startNotices := startNotices + [RecoveryActionFor(id, result.consecutiveFailures, result.error, now)];
      }
      success, message := PerformRecovery(id, startError, probe);
      RecordAttempt(id, attempts, success, message, now);
    }

    /**
     * The bookkeeping after a performed recovery: the attempt is counted and timed, the complete
     * callback (if set) is notified, and a success resets the count to 0.
     */
    method RecordAttempt(id: string, attempts: nat, success: bool, message: string, now: int)
      requires Valid() && attempts < maxRecoveryAttempts
      modifies this
      ensures Valid()
      ensures recoveryAttempts == old(recoveryAttempts)[id := if success then 0 else attempts + 1]
      ensures lastRecovery == old(lastRecovery)[id := now]
      ensures completeNotices == old(completeNotices) + (if onRecoveryComplete then [RecoveryNotice(id, success, message)] else [])
      ensures history == old(history) && startNotices == old(startNotices) && running == old(running)
      ensures onRecoveryStart == old(onRecoveryStart) && onRecoveryComplete == old(onRecoveryComplete)
    {
      recoveryAttempts := recoveryAttempts[id := attempts + 1];
      lastRecovery := lastRecovery[id := now];
      if onRecoveryComplete {
        completeNotices := completeNotices + [RecoveryNotice(id, success, message)];
      }
      if success {
        recoveryAttempts := recoveryAttempts[id := 0];
      }
    }

    /** The attempt limit is reached: the instance, if registered, is FAILED and never restarted. */
    method MarkFailed(id: string)
      modifies manager.instances.Values
      ensures id in manager.instances ==>
        var inst := manager.instances[id];
        inst.status == Failed && inst.noRestart && inst.lastUsed == old(inst.lastUsed) && inst.error == old(inst.error)
      ensures forall x | x in manager.instances.Values && x != manager.GetInstance(id) :: unchanged(x)
    {
      var inst := manager.GetInstance(id);
      if inst != null {
        inst.status := Failed;
        inst.noRestart := true;
      }
    }

    /**
     * `_process_health_result`: appends `result` to its instance's history, keeps the last 100,
     * and triggers recovery exactly for an UNHEALTHY result whose failure count reached the
     * threshold. `now`, `startError` and `probe` are what a triggered recovery sees.
     */
    method ProcessHealthResult(result: HealthCheckResult, now: int, startError: Option<string>, probe: HttpProbe)
      returns (triggered: bool)
      requires Valid()
      modifies this, manager.instances.Values, manager.Proxies()
      ensures Valid()
      ensures triggered <==> result.status == Unhealthy && result.consecutiveFailures >= failureThreshold
      ensures history == old(history)[result.instanceId := Recent(old(HistoryOf(result.instanceId)) + [result])]
      ensures !triggered ==>
        recoveryAttempts == old(recoveryAttempts) && lastRecovery == old(lastRecovery)
        && startNotices == old(startNotices) && completeNotices == old(completeNotices)
        && (forall x | x in manager.instances.Values :: unchanged(x))
        && (forall p | p in manager.Proxies() :: unchanged(p))
      ensures running == old(running)
    {
      var id := result.instanceId;
      history := history[id := Recent(HistoryOf(id) + [result])];
      triggered := result.status == Unhealthy && result.consecutiveFailures >= failureThreshold;
      if triggered {
        var _, _, _ := TriggerRecovery(result, now, startError, probe);
      }
    }
  }

  /** Counting back from a HEALTHY result (or the start) gives the trailing failures. */
  lemma TrailingFromSuffix(h: seq<HealthCheckResult>, i: nat)
    requires i <= |h|
    requires forall k :: i <= k < |h| ==> h[k].status != Healthy
    requires i > 0 ==> h[i - 1].status == Healthy
    ensures TrailingFailures(h) == |h| - i
  {
  }
}
