/**
 * The download queue's event registry: for each event, the subscriptions in descending
 * priority, plus the order in which events were first subscribed to (Python's dict order).
 * Handlers are opaque callables; a handler is its identity, and whether a call to it returns
 * normally is given to `Emit` per position in the snapshot.
 */
module QueueEvents {
  import opened Wrappers
  import opened Seqs
  import opened Sorting

  datatype QueueEvent =
    | TaskEnqueued | TaskStarted | TaskCompleted | TaskFailed | TaskCancelled | TaskTimeout
    | QueuePositionChanged | QueueEmpty | QueueFull
    | ProcessorStarted | ProcessorStopped

  /** `EventSubscription`; dataclass equality compares all four fields. */
  datatype Subscription = Subscription(event: QueueEvent, handler: nat, priority: int, once: bool)

  /**
   * The order `list.sort` keeps under `__lt__` (a higher priority sorts first): `a` may stay
   * before `b` exactly when `b` does not sort before it.
   */
  predicate PriorityLeq(a: Subscription, b: Subscription)
  {
    !(b.priority > a.priority)
  }

  lemma PriorityOrder()
    ensures Total(PriorityLeq) && Transitive(PriorityLeq)
  {
  }

  /** `_add_subscription`'s append-then-sort on an already sorted list: a stable insertion. */
  function AddSorted(sub: Subscription, s: seq<Subscription>): seq<Subscription>
  {
    Insert(sub, s, PriorityLeq)
  }

  /**
   * A new subscription keeps the list in descending priority, goes after every subscription of
   * its own or a higher priority and before the first of a lower one, and moves nothing else.
   */
  lemma AddSortedPlacement(sub: Subscription, s: seq<Subscription>)
    requires SortedBy(s, PriorityLeq)
    ensures SortedBy(AddSorted(sub, s), PriorityLeq)
    ensures multiset(AddSorted(sub, s)) == multiset(s) + multiset{sub}
    ensures var k := InsertPoint(sub, s, PriorityLeq);
      && AddSorted(sub, s) == s[..k] + [sub] + s[k..]
      && (forall i :: 0 <= i < k ==> s[i].priority >= sub.priority)
      && (k < |s| ==> s[k].priority < sub.priority)
  {
    PriorityOrder();
    InsertSorted(sub, s, PriorityLeq);
    InsertAt(sub, s, PriorityLeq);
    InsertPointBetween(sub, s, PriorityLeq);
  }

  /** The list comprehension in `off`: the subscriptions whose handler is not `h`. */
  function DropHandler(s: seq<Subscription>, h: nat): (r: seq<Subscription>)
    ensures forall y :: y in r <==> y in s && y.handler != h
    ensures |r| + CountHandler(s, h) == |s|
  {
    if s == [] then []
    else
      assert s == [s[0]] + s[1..];
      (if s[0].handler != h then [s[0]] else []) + DropHandler(s[1..], h)
  }

  /** How many subscriptions in `s` have handler `h`. */
  function CountHandler(s: seq<Subscription>, h: nat): nat
  {
    if s == [] then 0 else (if s[0].handler == h then 1 else 0) + CountHandler(s[1..], h)
  }

  /** No subscription of `h` means nothing to count. */
  lemma {:induction false} CountHandlerZero(s: seq<Subscription>, h: nat)
    ensures CountHandler(s, h) == 0 <==> forall i :: 0 <= i < |s| ==> s[i].handler != h
  {
    if s != [] {
      CountHandlerZero(s[1..], h);
      assert forall i :: 0 < i < |s| ==> s[i] == s[1..][i - 1];
    }
  }

  /** Filtering keeps the descending order. */
  lemma {:induction false} DropHandlerSorted(s: seq<Subscription>, h: nat)
    requires SortedBy(s, PriorityLeq)
    ensures SortedBy(DropHandler(s, h), PriorityLeq)
  {
    if s != [] {
      SortedTail(s, PriorityLeq);
      DropHandlerSorted(s[1..], h);
      if s[0].handler != h {
        assert s == [s[0]] + s[1..];
        HeadAbove(s[0], s[1..], DropHandler(s[1..], h), PriorityLeq);
      }
    }
  }

  /** How many of the first `n` handler calls returned normally. */
  function Succeeded(outcome: nat -> bool, n: nat): nat
  {
    if n == 0 then 0 else Succeeded(outcome, n - 1) + (if outcome(n - 1) then 1 else 0)
  }

  /** `Succeeded` counts the successful calls, wherever the failing ones fall. */
  lemma {:induction false} SucceededIsCount(outcome: nat -> bool, n: nat)
    ensures Succeeded(outcome, n) == |set i: nat | i < n && outcome(i)|
  {
    if n > 0 {
      SucceededIsCount(outcome, n - 1);
      var prev := set i: nat | i < n - 1 && outcome(i);
      var cur := set i: nat | i < n && outcome(i);
      if outcome(n - 1) {
        assert cur == prev + {n - 1};
      } else {
        assert cur == prev;
      }
    }
  }

  /** The `to_remove` list of `emit`: once-subscriptions among the first `n` whose call returned. */
  function OnceSucceeded(snap: seq<Subscription>, outcome: nat -> bool, n: nat): (r: seq<Subscription>)
    requires n <= |snap|
    ensures |r| <= Succeeded(outcome, n)
    ensures forall y :: y in r ==> y.once && y in snap[..n]
  {
    if n == 0 then []
    else
      var prev := OnceSucceeded(snap, outcome, n - 1);
      assert snap[..n - 1] <= snap[..n];
      if outcome(n - 1) && snap[n - 1].once then prev + [snap[n - 1]] else prev
  }

  /** `to_remove` holds each once-subscription at most as often as the snapshot does. */
  lemma {:induction false} OnceSucceededSub(snap: seq<Subscription>, outcome: nat -> bool, n: nat)
    requires n <= |snap|
    ensures multiset(OnceSucceeded(snap, outcome, n)) <= multiset(snap[..n])
  {
    if n > 0 {
      OnceSucceededSub(snap, outcome, n - 1);
      assert snap[..n] == snap[..n - 1] + [snap[n - 1]];
    }
  }

  /** Every entry of `to_remove` is a once-subscription at a position whose call returned. */
  lemma {:induction false} OnceSucceededFrom(snap: seq<Subscription>, outcome: nat -> bool, n: nat, y: Subscription)
    requires n <= |snap| && y in OnceSucceeded(snap, outcome, n)
    ensures y.once && exists i :: 0 <= i < n && snap[i] == y && outcome(i)
  {
    var prev := OnceSucceeded(snap, outcome, n - 1);
    if y in prev {
      OnceSucceededFrom(snap, outcome, n - 1, y);
    }
  }

  lemma RemoveEachStep(s: seq<Subscription>, xs: seq<Subscription>, j: nat)
    requires j < |xs|
    ensures RemoveEach(s, xs[..j + 1]) == RemoveFirst(RemoveEach(s, xs[..j]), xs[j])
  {
    assert xs[..j + 1][..j] == xs[..j];
  }

  /** The list an event keeps after `emit`. */
  function AfterEmit(snap: seq<Subscription>, outcome: nat -> bool): seq<Subscription>
  {
    RemoveEach(snap, OnceSucceeded(snap, outcome, |snap|))
  }

  /** Removing `to_remove` takes out exactly that multiset and keeps the descending order. */
  lemma AfterEmitRemoves(snap: seq<Subscription>, outcome: nat -> bool)
    requires SortedBy(snap, PriorityLeq)
    ensures SortedBy(AfterEmit(snap, outcome), PriorityLeq)
    ensures multiset(AfterEmit(snap, outcome)) == multiset(snap) - multiset(OnceSucceeded(snap, outcome, |snap|))
    ensures |AfterEmit(snap, outcome)| == |snap| - |OnceSucceeded(snap, outcome, |snap|)|
  {
    var rs := OnceSucceeded(snap, outcome, |snap|);
    assert snap[..|snap|] == snap;
    OnceSucceededSub(snap, outcome, |snap|);
    RemoveEachMultiset(snap, rs);
    RemoveEachSorted(snap, rs, PriorityLeq);
  }

  /**
   * After `emit`, exactly the once-subscriptions whose call returned are gone: every other
   * subscription stays, a once-subscription stays when none of its calls returned, and nothing
   * new appears.
   */
  lemma AfterEmitKeeps(snap: seq<Subscription>, outcome: nat -> bool)
    requires SortedBy(snap, PriorityLeq)
    ensures forall y :: y in snap && !y.once ==> y in AfterEmit(snap, outcome)
    ensures forall y :: y in snap && (forall i :: 0 <= i < |snap| && snap[i] == y ==> !outcome(i)) ==> y in AfterEmit(snap, outcome)
    ensures forall y :: y in AfterEmit(snap, outcome) ==> y in snap
  {
    var rs := OnceSucceeded(snap, outcome, |snap|);
    var after := AfterEmit(snap, outcome);
    assert snap[..|snap|] == snap;
    AfterEmitRemoves(snap, outcome);
    forall y | y in snap && (!y.once || forall i :: 0 <= i < |snap| && snap[i] == y ==> !outcome(i))
      ensures y in after
    {
      assert y !in rs by {
        if y in rs {
          OnceSucceededFrom(snap, outcome, |snap|, y);
          assert false;
        }
      }
      assert multiset(rs)[y] == 0 && y in multiset(snap);
      assert multiset(after)[y] == multiset(snap)[y];
    }
    forall y | y in after
      ensures y in snap
    {
      assert y in multiset(after);
    }
  }

  /** The registry after `emit(event)`: unchanged for an event nobody subscribed to. */
  function Emitted(subs: map<QueueEvent, seq<Subscription>>, event: QueueEvent, outcome: nat -> bool): (r: map<QueueEvent, seq<Subscription>>)
    ensures r.Keys == subs.Keys
    ensures forall e :: e in subs && e != event ==> r[e] == subs[e]
  {
    if event in subs then subs[event := AfterEmit(subs[event], outcome)] else subs
  }

  /**
   * `n` emissions of one event in turn, the `j`-th with handler outcomes `outcomes(j)`:
   * only that event's list changes.
   */
  function EmittedEach(subs: map<QueueEvent, seq<Subscription>>, event: QueueEvent, outcomes: nat -> (nat -> bool), n: nat)
    : (r: map<QueueEvent, seq<Subscription>>)
    ensures r.Keys == subs.Keys
    ensures forall e :: e in subs && e != event ==> r[e] == subs[e]
  {
    if n == 0 then subs else Emitted(EmittedEach(subs, event, outcomes, n - 1), event, outcomes(n - 1))
  }

  /** The events of `order`, in that order, whose list is not empty. */
  function NonEmpty(order: seq<QueueEvent>, subs: map<QueueEvent, seq<Subscription>>): (r: seq<QueueEvent>)
    ensures forall e :: e in r <==> e in order && e in subs && subs[e] != []
    ensures Distinct(order) ==> Distinct(r)
  {
    if order == [] then []
    else
      var rest := NonEmpty(order[1..], subs);
      assert order == [order[0]] + order[1..];
      var e := order[0];
      if e in subs && subs[e] != [] then [e] + rest else rest
  }

  /**
   * The registry: each event appears once in `order`, exactly the registered events do, and
   * each event's list is in descending priority and holds only subscriptions to that event.
   */
  ghost predicate Registry(subs: map<QueueEvent, seq<Subscription>>, order: seq<QueueEvent>)
  {
    && Distinct(order)
    && (forall e :: e in subs <==> e in order)
    && (forall e :: e in subs ==> SortedBy(subs[e], PriorityLeq))
    && (forall e, y :: e in subs && y in subs[e] ==> y.event == e)
  }

  /** Replacing a list by a sorted one of the same event's subscriptions keeps the registry. */
  lemma RegistryReplace(subs: map<QueueEvent, seq<Subscription>>, order: seq<QueueEvent>, e: QueueEvent, l: seq<Subscription>)
    requires Registry(subs, order) && e in subs
    requires SortedBy(l, PriorityLeq) && forall y :: y in l ==> y.event == e
    ensures Registry(subs[e := l], order)
  {
  }

  /** Every subscription of the new list is to `sub`'s event, and the list stays sorted. */
  lemma AddSortedEvents(sub: Subscription, l: seq<Subscription>)
    requires SortedBy(l, PriorityLeq) && forall y :: y in l ==> y.event == sub.event
    ensures SortedBy(AddSorted(sub, l), PriorityLeq)
    ensures forall y :: y in AddSorted(sub, l) ==> y.event == sub.event
  {
    AddSortedPlacement(sub, l);
    forall y | y in AddSorted(sub, l)
      ensures y.event == sub.event
    {
      assert y in multiset(AddSorted(sub, l));
    }
  }

  /** Registering a subscription, adding its event last when it is new, keeps the registry. */
  lemma RegistryAdd(subs: map<QueueEvent, seq<Subscription>>, order: seq<QueueEvent>, sub: Subscription)
    requires Registry(subs, order)
    ensures var l := if sub.event in subs then subs[sub.event] else [];
      var order' := if sub.event in subs then order else order + [sub.event];
      Registry(subs[sub.event := AddSorted(sub, l)], order')
  {
    var l := if sub.event in subs then subs[sub.event] else [];
    AddSortedEvents(sub, l);
    if sub.event in subs {
      RegistryReplace(subs, order, sub.event, AddSorted(sub, l));
    } else {
      DistinctSnoc(order, sub.event);
      RegistryNew(subs, order, sub.event, AddSorted(sub, l));
    }
  }

  /** A new event, added last to the order with a sorted list of its own subscriptions. */
  lemma RegistryNew(subs: map<QueueEvent, seq<Subscription>>, order: seq<QueueEvent>, e: QueueEvent, l: seq<Subscription>)
    requires Registry(subs, order) && e !in subs && Distinct(order + [e])
    requires SortedBy(l, PriorityLeq) && forall y :: y in l ==> y.event == e
    ensures Registry(subs[e := l], order + [e])
  {
  }

  /** `QueueEventEmitter`. */
  class QueueEventEmitter {
    var subs: map<QueueEvent, seq<Subscription>>
    var order: seq<QueueEvent>

    ghost predicate Valid()
      reads this
    {
      Registry(subs, order)
    }

    constructor ()
      ensures Valid() && subs == map[] && order == []
    {
      subs := map[];
      order := [];
    }

    /** `_subscriptions.get(event, [])`. */
    function Listeners(event: QueueEvent): seq<Subscription>
      reads this
    {
      if event in subs then subs[event] else []
    }

    /** `_add_subscription`: creates the event's list if needed, then inserts in priority order. */
    method AddSubscription(sub: Subscription)
      requires Valid()
      modifies this
      ensures Valid()
      ensures subs == old(subs)[sub.event := AddSorted(sub, old(Listeners(sub.event)))]
      ensures order == if sub.event in old(subs) then old(order) else old(order) + [sub.event]
    {
      RegistryAdd(subs, order, sub);
      if sub.event !in subs {
        subs := subs[sub.event := []];
        order := order + [sub.event];
      }
      var l := subs[sub.event];
      subs := subs[sub.event := AddSorted(sub, l)];
    }

    /** `on`: a lasting subscription. */
    method On(event: QueueEvent, handler: nat, priority: int) returns (sub: Subscription)
      requires Valid()
      modifies this
      ensures Valid()
      ensures sub == Subscription(event, handler, priority, false)
      ensures subs == old(subs)[event := AddSorted(sub, old(Listeners(event)))]
      ensures order == if event in old(subs) then old(order) else old(order) + [event]
    {
      sub := Subscription(event, handler, priority, false);
      AddSubscription(sub);
    }

    /** `once`: a subscription dropped after its first call that returns. */
    method Once(event: QueueEvent, handler: nat, priority: int) returns (sub: Subscription)
      requires Valid()
      modifies this
      ensures Valid()
      ensures sub == Subscription(event, handler, priority, true)
      ensures subs == old(subs)[event := AddSorted(sub, old(Listeners(event)))]
      ensures order == if event in old(subs) then old(order) else old(order) + [event]
    {
      sub := Subscription(event, handler, priority, true);
      AddSubscription(sub);
    }

    /**
     * `off`: an unknown event removes nothing; without a handler the event's whole list is
     * emptied; with one, exactly its subscriptions go. The result is how many went.
     */
    method Off(event: QueueEvent, handler: Option<nat>) returns (count: int)
      requires Valid()
      modifies this
      ensures Valid() && order == old(order)
      ensures event !in old(subs) ==> count == 0 && subs == old(subs)
      ensures event in old(subs) && handler.None? ==>
        count == |old(subs)[event]| && subs == old(subs)[event := []]
      ensures event in old(subs) && handler.Some? ==>
        count == CountHandler(old(subs)[event], handler.value)
        && subs == old(subs)[event := DropHandler(old(subs)[event], handler.value)]
    {
      if event !in subs {
        return 0;
      }
      if handler.None? {
        count := |subs[event]|;
        RegistryReplace(subs, order, event, []);
        subs := subs[event := []];
        return;
      }
      var original := subs[event];
      var kept := DropHandler(original, handler.value);
      DropHandlerSorted(original, handler.value);
      RegistryReplace(subs, order, event, kept);
      subs := subs[event := kept];
      count := |original| - |kept|;
    }

    /** `remove_subscription`: true exactly when an equal subscription was registered; one copy goes. */
    method RemoveSubscription(sub: Subscription) returns (removed: bool)
      requires Valid()
      modifies this
      ensures Valid() && order == old(order)
      ensures removed <==> sub.event in old(subs) && sub in old(subs)[sub.event]
      ensures removed ==> subs == old(subs)[sub.event := RemoveFirst(old(subs)[sub.event], sub)]
      ensures !removed ==> subs == old(subs)
    {
      if sub.event !in subs {
        return false;
      }
      var l := subs[sub.event];
      if sub !in l {
        return false;
      }
      var rest := RemoveFirst(l, sub);
      RemoveFirstSorted(l, sub, PriorityLeq);
      forall y | y in rest
        ensures y.event == sub.event
      {
        assert y in multiset(rest);
      }
      RegistryReplace(subs, order, sub.event, rest);
      subs := subs[sub.event := rest];
      removed := true;
    }

    /**
     * `emit`: calls the snapshot's handlers in list order, counting those that return, and then
     * removes each once-subscription whose call returned. `outcome(i)` says whether the call to
     * the `i`-th handler returns normally; a raising one is skipped and the rest still run.
     */
    method Emit(event: QueueEvent, outcome: nat -> bool) returns (called: nat)
      requires Valid()
      modifies this
      ensures Valid() && order == old(order)
      ensures event !in old(subs) ==> called == 0 && subs == old(subs)
      ensures event in old(subs) ==>
        called == Succeeded(outcome, |old(subs)[event]|)
        && subs == old(subs)[event := AfterEmit(old(subs)[event], outcome)]
    {
      if event !in subs {
        return 0;
      }
      var snapshot := subs[event];
      var toRemove;
      called, toRemove := RunHandlers(snapshot, outcome);
      assert snapshot[..|snapshot|] == snapshot;
      RemoveSucceeded(event, snapshot, toRemove);
    }

    /** The handler loop of `emit`: how many calls return, and the once-subscriptions among them. */
    static method RunHandlers(snapshot: seq<Subscription>, outcome: nat -> bool)
      returns (called: nat, toRemove: seq<Subscription>)
      ensures called == Succeeded(outcome, |snapshot|)
      ensures toRemove == OnceSucceeded(snapshot, outcome, |snapshot|)
    {
      called := 0;
      toRemove := [];
      for i := 0 to |snapshot|
        invariant called == Succeeded(outcome, i)
        invariant toRemove == OnceSucceeded(snapshot, outcome, i)
      {
        if outcome(i) {
          called := called + 1;
          if snapshot[i].once {
            toRemove := toRemove + [snapshot[i]];
          }
        }
      }
    }

    /** The clean-up loop of `emit`: each collected once-subscription is removed in turn. */
    method RemoveSucceeded(event: QueueEvent, snapshot: seq<Subscription>, toRemove: seq<Subscription>)
      requires Valid() && event in subs && subs[event] == snapshot
      requires forall y :: y in toRemove ==> y.event == event
      modifies this
      ensures Valid() && order == old(order)
      ensures subs == old(subs)[event := RemoveEach(snapshot, toRemove)]
    {
      for j := 0 to |toRemove|
        invariant Valid() && order == old(order)
        invariant subs == old(subs)[event := RemoveEach(snapshot, toRemove[..j])]
      {
        RemoveEachStep(snapshot, toRemove, j);
        ghost var cur := subs[event];
        MapOverwrite(old(subs), event, cur, RemoveFirst(cur, toRemove[j]));
        var removed := RemoveSubscription(toRemove[j]);
      }
      assert toRemove[..|toRemove|] == toRemove;
    }

    /** `has_listeners`. */
    function HasListeners(event: QueueEvent): (r: bool)
      reads this
      ensures r <==> ListenerCount(event) > 0
    {
      event in subs && subs[event] != []
    }

    /** `listener_count`. */
    function ListenerCount(event: QueueEvent): nat
      reads this
    {
      |Listeners(event)|
    }

    /** `clear`: no event has any subscription left. */
    method Clear()
      modifies this
      ensures Valid() && subs == map[] && order == []
      ensures forall e :: !HasListeners(e)
    {
      subs := map[];
      order := [];
    }

    /** `events_with_listeners`: in first-subscription order, the events whose list is not empty. */
    function EventsWithListeners(): (r: seq<QueueEvent>)
      requires Valid()
      reads this
      ensures Distinct(r)
      ensures forall e :: e in r <==> HasListeners(e)
    {
      NonEmpty(order, subs)
    }
  }
}
