/**
 * The decrypt dispatcher: picks a wrapper instance for a decrypt task (sticky to the instance that
 * last served the same adam id, else an idle one, else any active one) and forwards the task to
 * that instance's proxy.
 */
module Dispatcher {
  import opened Wrappers
  import opened WrapperProxy
  import opened InstanceManager

  datatype DecryptTask = DecryptTask(adamId: string, key: string, sample: Bytes, sampleIndex: int)

  datatype DecryptResult = DecryptResult(success: bool, data: Bytes, error: Option<string>, instanceId: Option<string>)

  const NoAvailableInstance := "没有可用的 wrapper 实例"
  const NoProxy := "实例代理未初始化"

  /** The proxies attached to the instances of `xs`. */
  function ProxiesIn(xs: seq<WrapperInstance>): set<Proxy>
  {
    set x | x in xs && x.proxy != null :: x.proxy
  }

  /** `inst.proxy and inst.proxy.get_last_adam_id() == adam_id`. */
  predicate LastServed(x: WrapperInstance, adamId: string)
    reads x.proxy
  {
    x.proxy != null && x.proxy.lastAdamId == adamId
  }

  /** `[inst for inst in xs if inst.is_active()]`. */
  function Actives(xs: seq<WrapperInstance>): (r: seq<WrapperInstance>)
    reads xs
    ensures |r| <= |xs|
    ensures forall k :: 0 <= k < |r| ==> r[k] in xs && r[k].IsActive()
    ensures forall k :: 0 <= k < |xs| && xs[k].IsActive() ==> xs[k] in r
  {
    if xs == [] then [] else (if xs[0].IsActive() then [xs[0]] else []) + Actives(xs[1..])
  }

  /** The instances whose proxy has not served any adam id yet. */
  function Idles(xs: seq<WrapperInstance>): (r: seq<WrapperInstance>)
    reads ProxiesIn(xs)
    ensures forall k :: 0 <= k < |r| ==> r[k] in xs && LastServed(r[k], "")
    ensures forall k :: 0 <= k < |xs| && LastServed(xs[k], "") ==> xs[k] in r
  {
    if xs == [] then []
    else
      assert ProxiesIn(xs[1..]) <= ProxiesIn(xs);
      (if LastServed(xs[0], "") then [xs[0]] else []) + Idles(xs[1..])
  }

  /** The position of the first instance in `xs` whose proxy last served `adamId`. */
  function FirstServing(xs: seq<WrapperInstance>, adamId: string): (r: Option<nat>)
    reads ProxiesIn(xs)
    ensures r.Some? ==> r.value < |xs| && LastServed(xs[r.value], adamId)
                        && forall k :: 0 <= k < r.value ==> !LastServed(xs[k], adamId)
    ensures r.None? ==> forall k :: 0 <= k < |xs| ==> !LastServed(xs[k], adamId)
  {
    if xs == [] then None
    else if LastServed(xs[0], adamId) then Some(0)
    else
      assert ProxiesIn(xs[1..]) <= ProxiesIn(xs);
      match FirstServing(xs[1..], adamId)
      case None => None
      case Some(k) => Some(k + 1)
  }

  lemma FirstServingAt(xs: seq<WrapperInstance>, adamId: string, i: nat)
    requires i < |xs| && LastServed(xs[i], adamId)
    requires forall k :: 0 <= k < i ==> !LastServed(xs[k], adamId)
    ensures FirstServing(xs, adamId) == Some(i)
  {
  }

  lemma FirstServingNone(xs: seq<WrapperInstance>, adamId: string)
    requires forall k :: 0 <= k < |xs| ==> !LastServed(xs[k], adamId)
    ensures FirstServing(xs, adamId) == None
  {
  }

  /**
   * The three strategies of `_select_instance` over a non-empty list of active instances: the
   * first one whose proxy last served `adamId`, else a random idle one, else a random one.
   */
  method ChooseFrom(active: seq<WrapperInstance>, adamId: string) returns (r: WrapperInstance)
    requires active != []
    ensures r in active
    ensures FirstServing(active, adamId).Some? ==> r == active[FirstServing(active, adamId).value]
    ensures FirstServing(active, adamId).None? && Idles(active) != [] ==> r in Idles(active)
  {
    var i := 0;
    while i < |active|
      invariant 0 <= i <= |active|
      invariant forall k :: 0 <= k < i ==> !LastServed(active[k], adamId)
    {
      if LastServed(active[i], adamId) {
        FirstServingAt(active, adamId, i);
        return active[i];
      }
      i := i + 1;
    }
    FirstServingNone(active, adamId);
    var idle := Idles(active);
    if idle != [] {
      assert idle[0] in idle;
      r :| r in idle;
      return r;
    }
    assert active[0] in active;
    r :| r in active;
  }

  /** The counters `get_statistics` reports. */
  datatype DispatchStats = DispatchStats(total: nat, active: nat, idle: nat, busy: nat)

  /** `sum(1 for inst in xs if pred(inst))` for the three predicates of `get_statistics`. */
  function CountActive(xs: seq<WrapperInstance>): nat
    reads xs
  {
    if xs == [] then 0 else (if xs[0].IsActive() then 1 else 0) + CountActive(xs[1..])
  }

  function CountIdle(xs: seq<WrapperInstance>): nat
    reads xs, ProxiesIn(xs)
  {
    if xs == [] then 0
    else
      assert ProxiesIn(xs[1..]) <= ProxiesIn(xs);
      (if xs[0].IsActive() && LastServed(xs[0], "") then 1 else 0) + CountIdle(xs[1..])
  }

  function CountBusy(xs: seq<WrapperInstance>): nat
    reads xs, ProxiesIn(xs)
  {
    if xs == [] then 0
    else
      assert ProxiesIn(xs[1..]) <= ProxiesIn(xs);
      (if xs[0].IsActive() && xs[0].proxy != null && xs[0].proxy.lastAdamId != "" then 1 else 0)
      + CountBusy(xs[1..])
  }

  /** Every active instance is either idle or busy, and no more instances are active than exist. */
  lemma {:induction false} CountsBalance(xs: seq<WrapperInstance>)
    ensures CountIdle(xs) + CountBusy(xs) == CountActive(xs) <= |xs|
  {
    if xs != [] {
      assert ProxiesIn(xs[1..]) <= ProxiesIn(xs);
      CountsBalance(xs[1..]);
    }
  }

  class DecryptDispatcher {
    const manager: InstanceManager

    constructor (manager: InstanceManager)
      ensures this.manager == manager
    {
      this.manager := manager;
    }

    /** The active instances, in the manager's list order. */
    function ActiveList(): (r: seq<WrapperInstance>)
      reads manager, manager.instances.Values
      requires manager.Valid()
      ensures forall k :: 0 <= k < |r| ==> r[k].IsActive() && r[k] in manager.instances.Values
    {
      Actives(manager.ListInstances())
    }

    /**
     * `_select_instance`: None when no instance is active; otherwise the first active instance
     * whose proxy last served `adamId`; failing that a random idle active instance; failing
     * that a random active instance.
     */
    method SelectInstance(adamId: string) returns (r: WrapperInstance?)
      requires manager.Valid()
      ensures var a := ActiveList();
        (r == null <==> a == [])
        && (r != null ==> r in a)
        && (FirstServing(a, adamId).Some? ==> r == a[FirstServing(a, adamId).value])
        && (FirstServing(a, adamId).None? && Idles(a) != [] ==> r in Idles(a))
      ensures r != null ==> r.IsActive() && r in manager.instances.Values
    {
      var active := ActiveList();
      if active == [] {
        return null;
      }
      r := ChooseFrom(active, adamId);
    }

    /**
     * `dispatch`: select an instance, stamp its last use with `now`, and forward the task to its
     * proxy; `conn` is how that proxy's worker behaves. When the proxy raises (its worker dropped
     * the connection), the exception branch gives the same failure: no data and the text of the
     * exception as the error.
     */
    method Dispatch(task: DecryptTask, now: int, conn: Connection<WorkerReply>)
      returns (result: DecryptResult, ghost chosen: WrapperInstance?)
      requires manager.Valid()
      modifies manager.instances.Values
      ensures chosen == null <==> old(ActiveList()) == []
      ensures chosen == null ==> result == DecryptResult(false, [], Some(NoAvailableInstance), None)
      ensures chosen != null ==> chosen in old(ActiveList()) && chosen.lastUsed == now && chosen.proxy != null
      ensures chosen != null ==>
        var p := chosen.proxy;
        result.instanceId == Some(chosen.instanceId)
        && (result.success <==> p.IsActive() && conn.Accepts? && Handshake(task.adamId, task.key).Some?
                                && |task.sample| < U32Limit && ReadsFully(ReplyAt(conn.replies, 0), |task.sample|))
        && (result.success ==> result.data == ReadBytes(ReplyAt(conn.replies, 0), |task.sample|) && result.error == None)
        && (!result.success ==> result.data == [] && result.error.Some?)
        && (!p.IsActive() ==> result.error == Some(NotActive))
        && (p.IsActive() && conn.Accepts? && Handshake(task.adamId, task.key).Some?
            && |task.sample| < U32Limit && ReplyAt(conn.replies, 0).Drops?
            ==> result.error == Some(ReplyAt(conn.replies, 0).reason))
      ensures chosen != null ==> chosen.status == old(chosen.status) && chosen.error == old(chosen.error)
                                 && chosen.noRestart == old(chosen.noRestart)
      ensures forall x | x in old(manager.instances.Values) && x != chosen :: unchanged(x)
    {
      var inst := SelectInstance(task.adamId);
      chosen := inst;
      if inst == null {
        return DecryptResult(false, [], Some(NoAvailableInstance), None), chosen;
      }
      var proxy := inst.proxy;
      if proxy == null {
        return DecryptResult(false, [], Some(NoProxy), None), chosen;
      }
      inst.UpdateLastUsed(now);
      var _, ok, data, error, _ := proxy.Decrypt(task.adamId, task.key, task.sample, conn);
      return DecryptResult(ok, data, error, Some(inst.instanceId)), chosen;
    }

    /** `get_statistics`, over the manager's instance list. */
    function GetStatistics(): (s: DispatchStats)
      reads manager, manager.instances.Values, manager.Proxies()
      requires manager.Valid()
      ensures s.total == |manager.instances|
      ensures s.idle + s.busy == s.active <= s.total
    {
      var xs := manager.ListInstances();
      assert ProxiesIn(xs) <= manager.Proxies();
      CountsBalance(xs);
      DispatchStats(|xs|, CountActive(xs), CountIdle(xs), CountBusy(xs))
    }
  }
}
