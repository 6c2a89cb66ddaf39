/**
 * The registry of wrapper account instances: instances by id, id by username, and the
 * add/remove/cleanup operations that keep the two indexes consistent.
 */
module InstanceManager {
  import opened Wrappers
  import opened WrapperProxy
  import opened Seqs

  datatype InstanceStatus = Initializing | Active | Failed | Stopped

  /** One wrapper account. The id, username, region and proxy are fixed at creation. */
  class WrapperInstance {
    const instanceId: string
    const username: string
    const region: string
    const createdAt: int
    const proxy: Proxy?
    var status: InstanceStatus
    var lastUsed: int
    var error: Option<string>
    var noRestart: bool

    constructor (instanceId: string, username: string, region: string, status: InstanceStatus, now: int, proxy: Proxy?)
      ensures this.instanceId == instanceId && this.username == username && this.region == region
      ensures this.status == status && this.proxy == proxy
      ensures createdAt == now && lastUsed == now && error == None && !noRestart
    {
      this.instanceId := instanceId;
      this.username := username;
      this.region := region;
      this.status := status;
      this.createdAt := now;
      this.lastUsed := now;
      this.error := None;
      this.noRestart := false;
      this.proxy := proxy;
    }

    method UpdateLastUsed(now: int)
      modifies this
      ensures lastUsed == now
      ensures status == old(status) && noRestart == old(noRestart) && error == old(error)
    {
      lastUsed := now;
    }

    /** `is_active`: status ACTIVE and a proxy attached. */
    predicate IsActive()
      reads this
    {
      status == Active && proxy != null
    }
  }

  const NoInstance := "实例不存在"

  class InstanceManager {
    const proxyConfig: ProxyConfig
    var instances: map<string, WrapperInstance>
    /** The ids in the dictionary's insertion order. */
    var order: seq<string>
    var usernameToId: map<string, string>

    /** Both indexes agree, and every instance sits under its own id. */
    ghost predicate Valid()
      reads this
    {
      Consistent(instances, order, usernameToId)
    }

    constructor (proxyConfig: ProxyConfig)
      ensures Valid() && this.proxyConfig == proxyConfig
      ensures instances == map[] && usernameToId == map[] && order == []
    {
      this.proxyConfig := proxyConfig;
      instances := map[];
      order := [];
      usernameToId := map[];
    }

    /** The proxy of instance `id`, as a frame. */
    function ProxyOf(id: string): set<Proxy>
      reads this
    {
      if id in instances && instances[id].proxy != null then {instances[id].proxy} else {}
    }

    /** Every proxy the registry holds, as a frame. */
    function Proxies(): set<Proxy>
      reads this
    {
      ProxySet(instances)
    }

    /**
     * `add_instance`. `startError` is what creating the proxy's session raises, if anything.
     */
    method AddInstance(username: string, password: string, region: string, now: int, startError: Option<string>)
      returns (ok: bool, msg: string, inst: WrapperInstance?)
      requires Valid()
      modifies this
      ensures Valid()
      ensures var id := CreateInstanceId(username);
        (id in old(instances) ==>
           !ok && msg == "账户 " + username + " 已存在" && inst == old(instances)[id]
           && instances == old(instances) && usernameToId == old(usernameToId) && order == old(order))
        && (id !in old(instances) && startError.Some? ==>
           !ok && msg == "添加账户失败: " + startError.value && inst == null
           && instances == old(instances) && usernameToId == old(usernameToId) && order == old(order))
        && (id !in old(instances) && startError.None? ==>
           ok && msg == "成功添加账户 " + username && inst != null && fresh(inst)
           && instances == old(instances)[id := inst] && usernameToId == old(usernameToId)[username := id]
           && order == old(order) + [id])
      ensures ok ==> inst.instanceId == CreateInstanceId(username) && inst.username == username
                     && inst.region == region && inst.status == Active && inst.lastUsed == now
                     && inst.proxy != null && fresh(inst.proxy) && inst.proxy.IsActive()
                     && inst.proxy.lastAdamId == "" && !inst.noRestart
    {
      var id := CreateInstanceId(username);
      if id in instances {
        return false, "账户 " + username + " 已存在", instances[id];
      }
      var proxy := new Proxy(id, username, region, proxyConfig);
      var raised := proxy.Start(startError);
      if raised.Some? {
        return false, "添加账户失败: " + raised.value, null;
      }
      inst := new WrapperInstance(id, username, region, Active, now, proxy);
      ConsistentAdd(instances, order, usernameToId, inst);
      instances := instances[id := inst];
      usernameToId := usernameToId[username := id];
      order := order + [id];
      return true, "成功添加账户 " + username, inst;
    }

    /** `remove_instance`: stops the proxy and drops the instance from both indexes. */
    method RemoveInstance(id: string) returns (ok: bool, msg: string)
      requires Valid()
      modifies this, ProxyOf(id)
      ensures Valid()
      ensures ok <==> id in old(instances)
      ensures instances == old(instances) - {id}
      ensures !ok ==> msg == NoInstance && instances == old(instances) && usernameToId == old(usernameToId)
                      && order == old(order)
      ensures ok ==> msg == "成功移除账户 " + old(instances)[id].username
                     && usernameToId == old(usernameToId) - {old(instances)[id].username}
                     && order == Without(old(order), id)
      ensures ok && old(instances)[id].proxy != null ==> !old(instances)[id].proxy.IsActive()
    {
      if id !in instances {
        assert instances - {id} == instances;
        return false, NoInstance;
      }
      var inst := instances[id];
      var proxy := inst.proxy;
      if proxy != null {
        proxy.Stop();
      }
      ConsistentRemove(instances, order, usernameToId, id);
      instances := instances - {id};
      // The source guards on the username being mapped; removing an absent key changes nothing.
      usernameToId := usernameToId - {inst.username};
      order := Without(order, id);
      return true, "成功移除账户 " + inst.username;
    }

    function GetInstance(id: string): (r: WrapperInstance?)
      reads this
      ensures r != null <==> id in instances
      ensures r != null ==> r == instances[id]
    {
      if id in instances then instances[id] else null
    }

    /** `get_instance_by_username`: an empty mapped id counts as missing. */
    function GetInstanceByUsername(username: string): (r: WrapperInstance?)
      reads this
      requires Valid()
      ensures r != null ==> r.username == username && r in instances.Values
      ensures r == null <==> username !in usernameToId || usernameToId[username] == ""
    {
      if username in usernameToId && usernameToId[username] != "" then instances[usernameToId[username]] else null
    }

    /** `list_instances`: the instances in insertion order. */
    function ListInstances(): (r: seq<WrapperInstance>)
      reads this
      requires Valid()
      ensures |r| == |order| && |r| == |instances|
      ensures forall k :: 0 <= k < |r| ==> r[k] == instances[order[k]]
    {
      DistinctCardFromOrder();
      InstancesAt(order)
    }

    function InstancesAt(ids: seq<string>): (r: seq<WrapperInstance>)
      reads this
      requires forall id :: id in ids ==> id in instances
      ensures |r| == |ids| && forall k :: 0 <= k < |ids| ==> r[k] == instances[ids[k]]
    {
      if ids == [] then [] else [instances[ids[0]]] + InstancesAt(ids[1..])
    }

    /** The ids of instances that are ACTIVE with a proxy. */
    function ActiveIds(): set<string>
      reads this, instances.Values
    {
      set id | id in instances && instances[id].IsActive()
    }

    /** `get_regions` (as a set: the source returns `list(set(...))`). */
    function GetRegions(): set<string>
      reads this, instances.Values
    {
      set id | id in ActiveIds() :: instances[id].region
    }

    /** `get_client_count`: active instances counted in dictionary order. */
    function GetClientCount(): nat
      reads this, instances.Values
    {
      CountIn(order, ActiveIds())
    }

    /** The client count is the number of active instances, and it is 0 exactly when no region is served. */
    lemma ClientCountMatchesRegions()
      requires Valid()
      ensures GetClientCount() == |ActiveIds()|
      ensures GetClientCount() == 0 <==> GetRegions() == {}
    {
      CountInIsCardinality(order, ActiveIds());
      assert Elems(order) * ActiveIds() == ActiveIds();
      if ActiveIds() != {} {
        var id :| id in ActiveIds();
        assert instances[id].region in GetRegions();
      }
    }

    /**
     * `health_check_all`: one entry per instance with a proxy; `probe(id)` is what the
     * account endpoint of that instance answers.
     */
    method HealthCheckAll(probe: string -> HttpProbe) returns (results: map<string, bool>)
      requires Valid()
      ensures results.Keys == set id | id in instances && instances[id].proxy != null
      ensures forall id :: id in results ==>
                results[id] == (instances[id].proxy.IsActive() && probe(id) == Status(200))
    {
      results := map[];
      var i := 0;
      while i < |order|
        invariant 0 <= i <= |order|
        invariant results.Keys == set id | id in order[..i] && instances[id].proxy != null
        invariant forall id :: id in results ==>
                    id in instances && instances[id].proxy != null
                    && results[id] == (instances[id].proxy.IsActive() && probe(id) == Status(200))
      {
        var id := order[i];
        var inst := instances[id];
        if inst.proxy != null {
          var healthy := inst.proxy.HealthCheck(probe(id));
          results := results[id := healthy];
        }
        assert order[..i + 1] == order[..i] + [id];
        i := i + 1;
      }
      assert order[..i] == order;
    }

    /** Idle longer than the limit and not pinned by `no_restart`. */
    predicate Idle(inst: WrapperInstance, now: int, maxIdleSeconds: int)
      reads inst
    {
      now - inst.lastUsed > maxIdleSeconds && !inst.noRestart
    }

    /** The first loop of `cleanup_inactive`: the ids to remove, in dictionary order. */
    method CollectIdle(now: int, maxIdleSeconds: int) returns (toRemove: seq<string>)
      requires Valid()
      ensures Distinct(toRemove)
      ensures forall id :: id in toRemove <==> id in instances && Idle(instances[id], now, maxIdleSeconds)
    {
      toRemove := [];
      var i := 0;
      while i < |order|
        invariant 0 <= i <= |order|
        invariant forall id :: id in toRemove <==> id in order[..i] && Idle(instances[id], now, maxIdleSeconds)
        invariant forall k :: 0 <= k < |toRemove| ==> toRemove[k] in order[..i]
        invariant Distinct(toRemove)
      {
        var id := order[i];
        assert order[..i + 1] == order[..i] + [id];
        DistinctAt(order, i);
        if Idle(instances[id], now, maxIdleSeconds) {
          toRemove := toRemove + [id];
        }
        i := i + 1;
      }
      assert order[..i] == order;
    }

    /** Calls `remove_instance` on each id in turn; ids already gone are skipped. */
    method RemoveAll(ids: seq<string>)
      requires Valid()
      modifies this, Proxies()
      ensures Valid()
      ensures instances == old(instances) - Elems(ids)
    {
      var i := 0;
      while i < |ids|
        invariant Valid()
        invariant 0 <= i <= |ids|
        invariant instances == old(instances) - Elems(ids[..i])
      {
        ghost var prev := instances;
        ProxySetShrinks(old(instances), prev);
        ProxyOfInSet(ids[i]);
        var _, _ := RemoveInstance(ids[i]);
        ElemsPrefix(ids, i);
        MapMinusStep(old(instances), Elems(ids[..i]), ids[i]);
        i := i + 1;
      }
      assert ids[..i] == ids;
    }

    lemma ProxyOfInSet(id: string)
      ensures ProxyOf(id) <= ProxySet(instances)
    {
      if id in instances && instances[id].proxy != null {
        assert instances[id].proxy in ProxySet(instances);
      }
    }

    /** `cleanup_inactive`: removes exactly the idle instances whose no_restart is false. */
    method CleanupInactive(now: int, maxIdleSeconds: int)
      requires Valid()
      modifies this, Proxies()
      ensures Valid()
      ensures forall id :: id in instances <==> id in old(instances) && !old(Idle(instances[id], now, maxIdleSeconds))
      ensures forall id :: id in instances ==> instances[id] == old(instances[id])
    {
      var toRemove := CollectIdle(now, maxIdleSeconds);
      RemoveAll(toRemove);
    }

    /** `shutdown_all`: removes every instance, leaving both indexes empty. */
    method ShutdownAll()
      requires Valid()
      modifies this, Proxies()
      ensures Valid()
      ensures instances == map[] && usernameToId == map[] && order == []
    {
      RemoveAll(order);
      assert instances.Keys == {};
      assert usernameToId.Keys == {};
      DistinctCardFromOrder();
    }

    lemma DistinctCardFromOrder()
      requires Valid()
      ensures |order| == |instances|
    {
      DistinctCard(order, instances.Keys);
    }
  }

  /**
   * The registry invariant on values: the id order is duplicate-free and lists exactly the
   * instances; each instance sits under its own id, derived from its username, with its proxy
   * carrying the same id; the username index maps each username to its instance and nothing else.
   */
  ghost predicate Consistent(instances: map<string, WrapperInstance>, order: seq<string>, usernameToId: map<string, string>)
  {
    Distinct(order)
    && (forall id :: id in instances <==> id in order)
    && (forall id :: id in instances ==> instances[id].instanceId == id && id == CreateInstanceId(instances[id].username))
    && (forall id :: id in instances && instances[id].proxy != null ==> instances[id].proxy.instanceId == id)
    && (forall u :: u in usernameToId ==> usernameToId[u] in instances && instances[usernameToId[u]].username == u)
    && (forall id :: id in instances ==> instances[id].username in usernameToId && usernameToId[instances[id].username] == id)
  }

  /** Registering a new instance under its derived id keeps the invariant. */
  lemma ConsistentAdd(instances: map<string, WrapperInstance>, order: seq<string>, usernameToId: map<string, string>,
                      inst: WrapperInstance)
    requires Consistent(instances, order, usernameToId)
    requires inst.instanceId !in instances && inst.instanceId == CreateInstanceId(inst.username)
    requires inst.proxy != null ==> inst.proxy.instanceId == inst.instanceId
    ensures inst.username !in usernameToId
    ensures Consistent(instances[inst.instanceId := inst], order + [inst.instanceId],
                       usernameToId[inst.username := inst.instanceId])
  {
    DistinctSnoc(order, inst.instanceId);
  }

  /** Dropping an instance from the map, the order and the username index keeps the invariant. */
  lemma ConsistentRemove(instances: map<string, WrapperInstance>, order: seq<string>, usernameToId: map<string, string>,
                         id: string)
    requires Consistent(instances, order, usernameToId) && id in instances
    ensures Consistent(instances - {id}, Without(order, id), usernameToId - {instances[id].username})
  {
    WithoutSpec(order, id);
  }

  /** The proxies attached to the instances of `m`; proxies are fixed at creation, so this reads nothing. */
  function ProxySet(m: map<string, WrapperInstance>): set<Proxy>
  {
    set id | id in m && m[id].proxy != null :: m[id].proxy
  }

  lemma ProxySetShrinks(m: map<string, WrapperInstance>, m': map<string, WrapperInstance>)
    requires exists e: set<string> :: m' == m - e
    ensures ProxySet(m') <= ProxySet(m)
  {
  }
}
