/**
 * Decryption bookkeeping of the download pipeline: which key decrypts a sample, the
 * per-sample state of a download task, the registry of tasks awaiting decrypted samples,
 * and the fast path that groups the samples by key and scatters the decrypted chunks back
 * to their original positions.
 */
module Rip {
  import opened Wrappers
  import opened Text
  import opened Seqs
  import opened CoreTypes

  /** One media sample: its encrypted bytes, its duration and its 0-based description index. */
  datatype SampleInfo = SampleInfo(data: Bytes, duration: int, descIndex: int)

  // ---------------------------------------------------------------- resolve_decrypt_key

  /** The first key that is not the prefetch key. */
  function FirstRealKey(keys: seq<string>): (r: Option<string>)
    ensures r.Some? ==> r.value in keys && r.value != PrefetchKey
  {
    if keys == [] then None
    else if keys[0] != PrefetchKey then Some(keys[0])
    else FirstRealKey(keys[1..])
  }

  /** The key at the first position that is not the prefetch key is the one picked. */
  lemma {:induction false} FirstRealKeyAt(keys: seq<string>, i: nat)
    requires i < |keys| && keys[i] != PrefetchKey
    requires forall j :: 0 <= j < i ==> keys[j] == PrefetchKey
    ensures FirstRealKey(keys) == Some(keys[i])
  {
    if i > 0 {
      assert keys[0] == PrefetchKey;
      assert forall j :: 0 <= j < i - 1 ==> keys[1..][j] == keys[j + 1];
      FirstRealKeyAt(keys[1..], i - 1);
    }
  }

  /** A list made of prefetch keys only has no real key. */
  lemma {:induction false} FirstRealKeyNone(keys: seq<string>)
    requires forall j :: 0 <= j < |keys| ==> keys[j] == PrefetchKey
    ensures FirstRealKey(keys) == None
  {
    if keys != [] {
      assert forall j :: 0 <= j < |keys| - 1 ==> keys[1..][j] == keys[j + 1];
      FirstRealKeyNone(keys[1..]);
    }
  }

  /** A resolved key and whether it is the prefetch key. */
  datatype KeyChoice = KeyChoice(key: Option<string>, isPrefetch: bool)

  /** `resolve_decrypt_key`: the key for a sample description index. */
  function ResolveDecryptKey(keys: seq<string>, descIndex: int): (r: KeyChoice)
    ensures keys == [] ==> r == KeyChoice(None, false)
    ensures 0 <= descIndex < |keys| ==> r == KeyChoice(Some(keys[descIndex]), keys[descIndex] == PrefetchKey)
    ensures keys != [] ==> r.key.Some? && r.key.value in keys
  {
    if keys == [] then KeyChoice(None, false)
    else if 0 <= descIndex < |keys| then KeyChoice(Some(keys[descIndex]), keys[descIndex] == PrefetchKey)
    else
      var first := FirstRealKey(keys);
      if first.Some? && first.value != "" then KeyChoice(first, false)
      else KeyChoice(Some(keys[0]), true)
  }

  /** Out of range, the first non-prefetch key is used when it is not empty. */
  lemma ResolveOutOfRange(keys: seq<string>, descIndex: int, i: nat)
    requires !(0 <= descIndex < |keys|)
    requires i < |keys| && keys[i] != PrefetchKey && keys[i] != ""
    requires forall j :: 0 <= j < i ==> keys[j] == PrefetchKey
    ensures ResolveDecryptKey(keys, descIndex) == KeyChoice(Some(keys[i]), false)
  {
    FirstRealKeyAt(keys, i);
  }

  /** Out of range with nothing but prefetch keys, the prefetch key is used and flagged. */
  lemma ResolveAllPrefetch(keys: seq<string>, descIndex: int)
    requires keys != [] && !(0 <= descIndex < |keys|)
    requires forall j :: 0 <= j < |keys| ==> keys[j] == PrefetchKey
    ensures ResolveDecryptKey(keys, descIndex) == KeyChoice(Some(PrefetchKey), true)
  {
    FirstRealKeyNone(keys);
  }

  /**
   * Out of range, an empty first non-prefetch key is falsy, so the first key is used and
   * flagged as the prefetch key whatever it is.
   */
  lemma ResolveEmptyRealKey(keys: seq<string>, descIndex: int, i: nat)
    requires !(0 <= descIndex < |keys|)
    requires i < |keys| && keys[i] == ""
    requires forall j :: 0 <= j < i ==> keys[j] == PrefetchKey
    ensures ResolveDecryptKey(keys, descIndex) == KeyChoice(Some(keys[0]), true)
  {
    FirstRealKeyAt(keys, i);
  }

  /** `if not key`: no key, or an empty one, cannot be used. */
  predicate Usable(c: KeyChoice)
  {
    c.key.Some? && c.key.value != ""
  }

  /** The key a sample is decrypted with, when one can be used. */
  function KeyOf(keys: seq<string>, s: SampleInfo): (r: Option<string>)
    ensures r.Some? ==> r.value != "" && r == ResolveDecryptKey(keys, s.descIndex).key
    ensures r.None? <==> !Usable(ResolveDecryptKey(keys, s.descIndex))
  {
    var c := ResolveDecryptKey(keys, s.descIndex);
    if Usable(c) then c.key else None
  }

  // ---------------------------------------------------------------- per-sample bookkeeping

  /** Python's `list[i] = v` position: negative indexes count from the end; others raise. */
  function PyIndex(i: int, n: nat): (r: Option<nat>)
    ensures r.Some? <==> -(n as int) <= i < n
    ensures r.Some? ==> r.value < n && r.value == (if i >= 0 then i else n + i)
  {
    if 0 <= i < n then Some(i) else if -(n as int) <= i < 0 then Some(n + i) else None
  }

  function Nones(n: nat): (r: seq<Option<Bytes>>)
    ensures |r| == n && forall j :: 0 <= j < n ==> r[j].None?
  {
    seq(n, _ => None)
  }

  /** How many slots hold a decrypted sample. */
  function Filled(slots: seq<Option<Bytes>>): (r: nat)
    ensures r <= |slots|
  {
    if slots == [] then 0 else Filled(slots[..|slots| - 1]) + (if slots[|slots| - 1].Some? then 1 else 0)
  }

  /** The decrypt state of a task: slots, counter, whether an event exists and is set, the error. */
  datatype DecryptState = DecryptState(slots: seq<Option<Bytes>>, count: int, hasEvent: bool,
                                       eventSet: bool, error: Option<string>)

  /** `is_decrypt_complete`. */
  predicate Complete(st: DecryptState)
  {
    st.count == |st.slots|
  }

  /** The state `init_decrypted_samples` leaves for `n` samples: a fresh, unset event. */
  function Init(n: nat): DecryptState
  {
    DecryptState(Nones(n), 0, true, false, None)
  }

  /** `on_sample_decrypted`; an index out of range raises and changes nothing. */
  function Deliver(st: DecryptState, i: int, sample: Bytes): (r: DecryptState)
    ensures |r.slots| == |st.slots| && r.hasEvent == st.hasEvent && r.error == st.error
  {
    match PyIndex(i, |st.slots|)
    case None => st
    case Some(p) =>
      var next := st.(slots := st.slots[p := Some(sample)], count := st.count + 1);
      next.(eventSet := st.eventSet || (Complete(next) && st.hasEvent))
  }

  /** `on_decrypt_failed`. */
  function Fail(st: DecryptState, error: string): DecryptState
  {
    st.(error := Some(error), eventSet := st.eventSet || st.hasEvent)
  }

  /** A run of success callbacks, in arrival order. */
  function DeliverAll(st: DecryptState, arrivals: seq<(int, Bytes)>): (r: DecryptState)
    ensures |r.slots| == |st.slots| && r.hasEvent == st.hasEvent && r.error == st.error
  {
    if arrivals == [] then st
    else
      var last := arrivals[|arrivals| - 1];
      Deliver(DeliverAll(st, arrivals[..|arrivals| - 1]), last.0, last.1)
  }

  /**
   * A delivery writes the sample at its (Python) position and counts it, sets the event once
   * the count reaches the number of slots, and leaves everything else as it was; one out of
   * range changes nothing.
   */
  lemma DeliverWrites(st: DecryptState, i: int, sample: Bytes)
    ensures var r := Deliver(st, i, sample);
      match PyIndex(i, |st.slots|)
      case None => r == st
      case Some(p) =>
        |r.slots| == |st.slots| && r.slots[p] == Some(sample)
        && (forall q :: 0 <= q < |st.slots| && q != p ==> r.slots[q] == st.slots[q])
        && r.count == st.count + 1 && r.error == st.error && r.hasEvent == st.hasEvent
        && (r.eventSet <==> st.eventSet || (r.count == |st.slots| && st.hasEvent))
  {
  }

  lemma {:induction false} FilledNones(n: nat)
    ensures Filled(Nones(n)) == 0
  {
    if n > 0 {
      assert Nones(n)[..n - 1] == Nones(n - 1);
      FilledNones(n - 1);
    }
  }

  /** Filling an empty slot adds one to the number of filled slots. */
  lemma {:induction false} FilledUpdate(slots: seq<Option<Bytes>>, p: nat, x: Bytes)
    requires p < |slots| && slots[p].None?
    ensures Filled(slots[p := Some(x)]) == Filled(slots) + 1
  {
    var u := slots[p := Some(x)];
    var n := |slots|;
    if p == n - 1 {
      assert u[..n - 1] == slots[..n - 1];
    } else {
      assert u[..n - 1] == slots[..n - 1][p := Some(x)];
      FilledUpdate(slots[..n - 1], p, x);
    }
  }

  /** All slots are filled exactly when the filled count reaches the length. */
  lemma {:induction false} FilledAll(slots: seq<Option<Bytes>>)
    ensures Filled(slots) == |slots| <==> forall q :: 0 <= q < |slots| ==> slots[q].Some?
  {
    if slots != [] {
      var n := |slots|;
      FilledAll(slots[..n - 1]);
      assert forall q :: 0 <= q < n - 1 ==> slots[..n - 1][q] == slots[q];
    }
  }

  /** While the counter equals the number of filled slots, completion means every slot is filled. */
  lemma CompleteMeansFilled(st: DecryptState)
    requires st.count == Filled(st.slots)
    ensures Complete(st) <==> forall q :: 0 <= q < |st.slots| ==> st.slots[q].Some?
  {
    FilledAll(st.slots);
  }

  predicate DistinctIndexes(arrivals: seq<(int, Bytes)>, n: nat)
  {
    (forall k :: 0 <= k < |arrivals| ==> 0 <= arrivals[k].0 < n)
    && forall k, l :: 0 <= k < l < |arrivals| ==> arrivals[k].0 != arrivals[l].0
  }

  /**
   * After the callbacks `arrivals` from a fresh state for `n` samples: exactly their slots are
   * filled, each with its sample, the counter equals the number of filled slots, and the event
   * and error are as they started.
   */
  ghost predicate FilledExactly(r: DecryptState, n: nat, arrivals: seq<(int, Bytes)>)
  {
    |r.slots| == n && r.count == |arrivals| && r.count == Filled(r.slots)
    && r.hasEvent && r.error == None
    && (forall k :: 0 <= k < |arrivals| ==> 0 <= arrivals[k].0 < n && r.slots[arrivals[k].0] == Some(arrivals[k].1))
    && (forall q :: 0 <= q < n && (forall k :: 0 <= k < |arrivals| ==> arrivals[k].0 != q) ==> r.slots[q].None?)
  }

  /** Callbacks for distinct positions from a fresh state fill exactly those slots. */
  lemma {:induction false} DeliverAllDistinct(n: nat, arrivals: seq<(int, Bytes)>)
    requires DistinctIndexes(arrivals, n)
    ensures FilledExactly(DeliverAll(Init(n), arrivals), n, arrivals)
  {
    if arrivals == [] {
      FilledNones(n);
    } else {
      var m := |arrivals| - 1;
      var front := arrivals[..m];
      assert arrivals == front + [arrivals[m]];
      DeliverAllDistinct(n, front);
      DeliverFilled(DeliverAll(Init(n), front), n, front, arrivals[m]);
    }
  }

  /** One more callback for a position not seen yet fills its slot and counts it. */
  lemma DeliverFilled(st: DecryptState, n: nat, front: seq<(int, Bytes)>, x: (int, Bytes))
    requires FilledExactly(st, n, front) && 0 <= x.0 < n
    requires forall k :: 0 <= k < |front| ==> front[k].0 != x.0
    ensures FilledExactly(Deliver(st, x.0, x.1), n, front + [x])
  {
    var p := x.0;
    var arrivals := front + [x];
    assert st.slots[p].None?;
    FilledUpdate(st.slots, p, x.1);
    var r := Deliver(st, p, x.1);
    assert r.slots == st.slots[p := Some(x.1)];
    forall k | 0 <= k < |arrivals|
      ensures 0 <= arrivals[k].0 < n && r.slots[arrivals[k].0] == Some(arrivals[k].1)
    {
      if k < |front| {
        assert arrivals[k] == front[k];
      }
    }
    forall q | 0 <= q < n && (forall k :: 0 <= k < |arrivals| ==> arrivals[k].0 != q)
      ensures r.slots[q].None?
    {
      assert arrivals[|front|].0 != q;
      forall k | 0 <= k < |front|
        ensures front[k].0 != q
      {
        assert arrivals[k] == front[k];
      }
    }
  }

  /** Deliveries to distinct positions complete the task exactly when every sample arrived. */
  lemma DistinctDeliveriesComplete(n: nat, arrivals: seq<(int, Bytes)>)
    requires DistinctIndexes(arrivals, n)
    ensures var r := DeliverAll(Init(n), arrivals);
      (Complete(r) <==> |arrivals| == n)
      && (Complete(r) <==> forall q :: 0 <= q < n ==> r.slots[q].Some?)
  {
    DeliverAllDistinct(n, arrivals);
    CompleteMeansFilled(DeliverAll(Init(n), arrivals));
  }

  /**
   * Completion is a count, not a check of the slots: a sample delivered twice completes a
   * two-sample task with its second slot still empty.
   */
  lemma DuplicateDeliveryCompletes(d: Bytes)
    ensures var r := DeliverAll(Init(2), [(0, d), (0, d)]);
      Complete(r) && r.eventSet && r.slots[1].None?
  {
    var a: seq<(int, Bytes)> := [(0, d), (0, d)];
    var st1 := Deliver(Init(2), 0, d);
    assert a[..1][..0] == [];
    assert a[..1] == [(0, d)];
    assert DeliverAll(Init(2), a[..1]) == st1;
    assert st1.slots[1].None? && st1.count == 1;
  }

  // ---------------------------------------------------------------- decrypt_song

  /** Why queuing the samples stopped: a sample without a usable key, or a queue call that raised. */
  datatype QueueStop = NoKey(descIndex: int) | QueueRaised(index: nat, error: string)

  /** The first sample, from `from` on, whose queuing fails; `queueError(i)` is the error queuing sample `i` raises. */
  function QueueStopFrom(samples: seq<SampleInfo>, keys: seq<string>, queueError: nat -> Option<string>, from: nat): Option<QueueStop>
    decreases |samples| - from
  {
    if from >= |samples| then None
    else if KeyOf(keys, samples[from]).None? then Some(NoKey(samples[from].descIndex))
    else if queueError(from).Some? then Some(QueueRaised(from, queueError(from).value))
    else QueueStopFrom(samples, keys, queueError, from + 1)
  }

  /** Queuing goes through exactly when every sample has a usable key and every queue call succeeds. */
  lemma {:induction false} QueueStopNone(samples: seq<SampleInfo>, keys: seq<string>, queueError: nat -> Option<string>, from: nat)
    requires from <= |samples|
    ensures QueueStopFrom(samples, keys, queueError, from).None? <==>
      forall i :: from <= i < |samples| ==> KeyOf(keys, samples[i]).Some? && queueError(i).None?
    decreases |samples| - from
  {
    if from < |samples| {
      QueueStopNone(samples, keys, queueError, from + 1);
    }
  }

  /** Queuing stops at the first failing sample, with that sample's reason. */
  lemma {:induction false} QueueStopFirst(samples: seq<SampleInfo>, keys: seq<string>, queueError: nat -> Option<string>, from: nat, i: nat)
    requires from <= i < |samples|
    requires forall j :: from <= j < i ==> KeyOf(keys, samples[j]).Some? && queueError(j).None?
    ensures KeyOf(keys, samples[i]).None? ==>
      QueueStopFrom(samples, keys, queueError, from) == Some(NoKey(samples[i].descIndex))
    ensures KeyOf(keys, samples[i]).Some? && queueError(i).Some? ==>
      QueueStopFrom(samples, keys, queueError, from) == Some(QueueRaised(i, queueError(i).value))
    decreases i - from
  {
    if from < i {
      QueueStopFirst(samples, keys, queueError, from + 1, i);
    }
  }

  function StopMessage(stop: QueueStop): string
  {
    match stop
    case NoKey(d) => "无可用解密密钥 (descIndex=" + IntToString(d) + ")"
    case QueueRaised(i, e) => "Failed to queue sample " + NatToString(i) + ": " + e
  }

  const TimeoutMessage := "解密超时"

  /** The task's decrypt state after `decrypt_song` and its return value. */
  datatype SongResult = SongResult(state: DecryptState, ok: bool)

  /**
   * `decrypt_song` once the stream is initialised: queue every sample, receive `arrivals` while
   * waiting, then judge. A missing event is an error caught as `False`; an event not set by
   * the end of the wait is a timeout.
   */
  function SongDecrypt(st: DecryptState, samples: seq<SampleInfo>, keys: seq<string>,
                       queueError: nat -> Option<string>, arrivals: seq<(int, Bytes)>): (r: SongResult)
    ensures r.ok ==> Complete(r.state) && !Truthy(r.state.error) && r.state.eventSet
  {
    var stop := QueueStopFrom(samples, keys, queueError, 0);
    if stop.Some? then SongResult(Fail(st, StopMessage(stop.value)), false)
    else Conclusion(DeliverAll(st, arrivals))
  }

  /**
   * The end of `decrypt_song` once the callbacks are in: no event or an error fails it, an
   * event that was never set is a timeout, and otherwise the task must be complete.
   */
  function Conclusion(w: DecryptState): (r: SongResult)
    ensures r.ok ==> Complete(r.state) && !Truthy(r.state.error) && r.state.eventSet
  {
    if !w.hasEvent then SongResult(w, false)
    else if !w.eventSet then SongResult(Fail(w, TimeoutMessage), false)
    else if Truthy(w.error) then SongResult(w, false)
    else SongResult(w, Complete(w))
  }

  /** A sample that cannot be queued fails the song with that sample's message. */
  lemma SongDecryptStops(st: DecryptState, samples: seq<SampleInfo>, keys: seq<string>,
                         queueError: nat -> Option<string>, arrivals: seq<(int, Bytes)>)
    requires QueueStopFrom(samples, keys, queueError, 0).Some?
    ensures var r := SongDecrypt(st, samples, keys, queueError, arrivals);
      !r.ok && r.state.error == Some(StopMessage(QueueStopFrom(samples, keys, queueError, 0).value))
      && r.state.slots == st.slots && r.state.count == st.count
  {
  }

  /**
   * From a fresh state, when every sample is queued and each position's sample arrives once,
   * the song decrypts, with every slot filled.
   */
  lemma SongDecryptAllArrive(samples: seq<SampleInfo>, keys: seq<string>,
                             queueError: nat -> Option<string>, arrivals: seq<(int, Bytes)>)
    requires samples != []
    requires forall i :: 0 <= i < |samples| ==> KeyOf(keys, samples[i]).Some? && queueError(i).None?
    requires DistinctIndexes(arrivals, |samples|) && |arrivals| == |samples|
    ensures var r := SongDecrypt(Init(|samples|), samples, keys, queueError, arrivals);
      r.ok && forall q :: 0 <= q < |samples| ==> r.state.slots[q].Some?
  {
    var n := |samples|;
    QueueStopNone(samples, keys, queueError, 0);
    DistinctDeliveriesComplete(n, arrivals);
    DeliverAllDistinct(n, arrivals);
    var front := arrivals[..|arrivals| - 1];
    assert forall k :: 0 <= k < |front| ==> front[k] == arrivals[k];
    DeliverAllDistinct(n, front);
  }

  /** A song without samples never sets its event, so it always ends in a timeout. */
  lemma EmptySongTimesOut(keys: seq<string>, queueError: nat -> Option<string>)
    ensures SongDecrypt(Init(0), [], keys, queueError, []) == SongResult(Fail(Init(0), TimeoutMessage), false)
  {
  }

  /** The decrypt fields of `DownloadTask`; the rest of the record belongs to the download flow. */
  class DownloadTask {
    const adamId: string
    /** `song_info.samples`, once the song has been extracted. */
    var samples: Option<seq<SampleInfo>>
    /** `m3u8_info.keys`, once a stream has been chosen. */
    var keys: Option<seq<string>>
    var decryptedSamples: seq<Option<Bytes>>
    var decryptedCount: int
    /** Whether `decrypt_event` exists, and whether it is set. */
    var hasEvent: bool
    var eventSet: bool
    var decryptError: Option<string>

    function State(): DecryptState
      reads this`decryptedSamples, this`decryptedCount, this`hasEvent, this`eventSet, this`decryptError
    {
      DecryptState(decryptedSamples, decryptedCount, hasEvent, eventSet, decryptError)
    }

    constructor (adamId: string)
      ensures this.adamId == adamId && samples == None && keys == None
      ensures State() == DecryptState([], 0, false, false, None)
    {
      this.adamId := adamId;
      samples := None;
      keys := None;
      decryptedSamples := [];
      decryptedCount := 0;
      hasEvent := false;
      eventSet := false;
      decryptError := None;
    }

    /** `init_decrypted_samples`: one empty slot per sample, a zero count, a fresh event, no error. */
    method InitDecryptedSamples()
      modifies this`decryptedSamples, this`decryptedCount, this`hasEvent, this`eventSet, this`decryptError
      ensures State() == if samples.Some? then Init(|samples.value|) else old(State())
    {
      if samples.Some? {
        decryptedSamples := Nones(|samples.value|);
        decryptedCount := 0;
        hasEvent := true;
        eventSet := false;
        decryptError := None;
      }
    }

    predicate IsDecryptComplete()
      reads this`decryptedCount, this`decryptedSamples
    {
      decryptedCount == |decryptedSamples|
    }

    /** `on_sample_decrypted`: raises (and changes nothing) for a position out of range. */
    method OnSampleDecrypted(sampleIndex: int, sample: Bytes) returns (raised: bool)
      modifies this`decryptedSamples, this`decryptedCount, this`eventSet
      ensures raised <==> PyIndex(sampleIndex, |old(decryptedSamples)|).None?
      ensures State() == Deliver(old(State()), sampleIndex, sample)
    {
      var p := PyIndex(sampleIndex, |decryptedSamples|);
      if p.None? {
        return true;
      }
      decryptedSamples := decryptedSamples[p.value := Some(sample)];
      decryptedCount := decryptedCount + 1;
      if IsDecryptComplete() && hasEvent {
        eventSet := true;
      }
      raised := false;
    }

    /** `on_decrypt_failed`: records the error and wakes the waiter. */
    method OnDecryptFailed(error: string)
      modifies this`decryptError, this`eventSet
      ensures State() == Fail(old(State()), error)
    {
      decryptError := Some(error);
      if hasEvent {
        eventSet := true;
      }
    }
  }

  /** The samples are queued one by one until one has no usable key or its queue call raises. */
  method QueueSamples(samples: seq<SampleInfo>, keys: seq<string>, queueError: nat -> Option<string>)
    returns (stop: Option<QueueStop>)
    ensures stop == QueueStopFrom(samples, keys, queueError, 0)
  {
    var i := 0;
    while i < |samples|
      invariant 0 <= i <= |samples|
      invariant QueueStopFrom(samples, keys, queueError, 0) == QueueStopFrom(samples, keys, queueError, i)
    {
      var choice := ResolveDecryptKey(keys, samples[i].descIndex);
      if !Usable(choice) {
        return Some(NoKey(samples[i].descIndex));
      }
      var e := queueError(i);
      if e.Some? {
        return Some(QueueRaised(i, e.value));
      }
      i := i + 1;
    }
    return None;
  }

  /** `DecryptionManager`: the registry of tasks waiting for decrypted samples. */
  class DecryptionManager {
    var tasks: map<string, DownloadTask>
    var initialized: bool

    constructor ()
      ensures tasks == map[] && !initialized
    {
      tasks := map[];
      initialized := false;
    }

    /** `ensure_initialized`: opens the decrypt stream once; `initOk` is whether opening succeeds. */
    method EnsureInitialized(initOk: bool) returns (raised: bool)
      modifies this`initialized
      ensures raised <==> !old(initialized) && !initOk
      ensures initialized <==> old(initialized) || initOk
    {
      raised := false;
      if !initialized {
        if initOk {
          initialized := true;
        } else {
          raised := true;
        }
      }
    }

    /** `_on_decrypt_success`: hands the sample to its registered task; an unknown id changes nothing. */
    method OnDecryptSuccess(adamId: string, key: string, sample: Bytes, sampleIndex: int) returns (raised: bool)
      modifies if adamId in tasks then {tasks[adamId]} else {}
      ensures adamId !in tasks ==> !raised
      ensures adamId in tasks ==>
        tasks[adamId].State() == Deliver(old(tasks[adamId].State()), sampleIndex, sample)
        && (raised <==> PyIndex(sampleIndex, |old(tasks[adamId].decryptedSamples)|).None?)
    {
      raised := false;
      if adamId in tasks {
        var task := tasks[adamId];
        raised := task.OnSampleDecrypted(sampleIndex, sample);
      }
    }

    /**
     * `decrypt_song`: registers the task, queues its samples, receives `arrivals` while it
     * waits, and always unregisters the task before returning.
     */
    method DecryptSong(task: DownloadTask, initOk: bool, queueError: nat -> Option<string>,
                       arrivals: seq<(int, Bytes)>) returns (outcome: Outcome)
      requires task.samples.Some? && task.keys.Some?
      modifies this`tasks, this`initialized, task
      ensures outcome.Raised? <==> !old(initialized) && !initOk
      ensures outcome.Raised? ==> tasks == old(tasks) && task.State() == old(task.State())
      ensures outcome.Returned? ==> tasks == old(tasks) - {task.adamId} && initialized
      ensures outcome.Returned? ==>
        var r := SongDecrypt(old(task.State()), old(task.samples.value), old(task.keys.value), queueError, arrivals);
        task.State() == r.state && outcome.ok == r.ok
    {
      var raised := EnsureInitialized(initOk);
      if raised {
        return Raised;
      }
      tasks := tasks[task.adamId := task];
      ghost var st := task.State();
      var stop := QueueSamples(task.samples.value, task.keys.value, queueError);
      if stop.Some? {
        task.OnDecryptFailed(StopMessage(stop.value));
        tasks := tasks - {task.adamId};
        return Returned(false);
      }
      var k := 0;
      while k < |arrivals|
        invariant 0 <= k <= |arrivals|
        invariant initialized && tasks == old(tasks)[task.adamId := task]
        invariant task.State() == DeliverAll(st, arrivals[..k])
      {
        var dropped := OnDecryptSuccess(task.adamId, "", arrivals[k].1, arrivals[k].0);
        assert arrivals[..k + 1][..k] == arrivals[..k];
        k := k + 1;
      }
      assert arrivals[..k] == arrivals;
      var ok := Conclude(task);
      return Returned(ok);
    }

    /** The end of `decrypt_song`: the outcome of the waited-for task, which is then unregistered. */
    method Conclude(task: DownloadTask) returns (ok: bool)
      modifies this`tasks, task
      ensures tasks == old(tasks) - {task.adamId}
      ensures SongResult(task.State(), ok) == Conclusion(old(task.State()))
    {
      if !task.hasEvent {
        tasks := tasks - {task.adamId};
        return false;
      }
      if !task.eventSet {
        task.OnDecryptFailed(TimeoutMessage);
        tasks := tasks - {task.adamId};
        return false;
      }
      if Truthy(task.decryptError) {
        tasks := tasks - {task.adamId};
        return false;
      }
      ok := task.IsDecryptComplete();
      tasks := tasks - {task.adamId};
    }
  }

  /** What `decrypt_song` does: raise (the stream could not be opened) or return a success flag. */
  datatype Outcome = Raised | Returned(ok: bool)

  /** `if task.decrypt_error:`. */
  predicate Truthy(e: Option<string>)
  {
    e.Some? && e.value != ""
  }

  // ---------------------------------------------------------------- fast path: group by key

  /** One sample queued for a key: its encrypted bytes and its original position. */
  type Entry = (Bytes, nat)

  /**
   * The grouping loop's result: the position of the first sample without a usable key, or the
   * keys in first-use order with each key's entries.
   */
  datatype Grouping = Unresolvable(descIndex: int) | Groups(order: seq<string>, members: map<string, seq<Entry>>)

  /** The grouping of the first `n` samples. */
  function GroupPrefix(keys: seq<string>, samples: seq<SampleInfo>, n: nat): Grouping
    requires n <= |samples|
  {
    if n == 0 then Groups([], map[])
    else
      var g := GroupPrefix(keys, samples, n - 1);
      if g.Unresolvable? then g
      else
        var s := samples[n - 1];
        var k := KeyOf(keys, s);
        if k.None? then Unresolvable(s.descIndex)
        else if k.value in g.members then Groups(g.order, g.members[k.value := g.members[k.value] + [(s.data, n - 1)]])
        else Groups(g.order + [k.value], g.members[k.value := [(s.data, n - 1)]])
  }

  function Group(keys: seq<string>, samples: seq<SampleInfo>): Grouping
  {
    GroupPrefix(keys, samples, |samples|)
  }

  /** Once a sample has no usable key, the grouping stays stopped at it. */
  lemma {:induction false} GroupStopped(keys: seq<string>, samples: seq<SampleInfo>, n: nat, m: nat)
    requires n <= m <= |samples| && GroupPrefix(keys, samples, n).Unresolvable?
    ensures GroupPrefix(keys, samples, m) == GroupPrefix(keys, samples, n)
    decreases m
  {
    if m > n {
      GroupStopped(keys, samples, n, m - 1);
    }
  }

  /** The grouping stops exactly at the first sample without a usable key. */
  lemma {:induction false} GroupFirstUnresolvable(keys: seq<string>, samples: seq<SampleInfo>, i: nat)
    requires i < |samples| && KeyOf(keys, samples[i]).None?
    requires forall j :: 0 <= j < i ==> KeyOf(keys, samples[j]).Some?
    ensures Group(keys, samples) == Unresolvable(samples[i].descIndex)
  {
    GroupResolvable(keys, samples, i);
    GroupStopped(keys, samples, i + 1, |samples|);
  }

  /** With a usable key for each of the first `n` samples, they are all grouped. */
  lemma {:induction false} GroupResolvable(keys: seq<string>, samples: seq<SampleInfo>, n: nat)
    requires n <= |samples|
    requires forall j :: 0 <= j < n ==> KeyOf(keys, samples[j]).Some?
    ensures GroupPrefix(keys, samples, n).Groups?
  {
    if n > 0 {
      GroupResolvable(keys, samples, n - 1);
    }
  }

  /** `k` holds, at some place in its group, the sample at position `i`. */
  ghost predicate Covered(members: map<string, seq<Entry>>, k: string, i: nat)
  {
    k in members && exists j :: 0 <= j < |members[k]| && members[k][j].1 == i
  }

  /** Every entry is the sample at its position, resolved to its group's key; positions rise within a group. */
  ghost predicate EntriesValid(keys: seq<string>, samples: seq<SampleInfo>, n: nat, members: map<string, seq<Entry>>)
    requires n <= |samples|
  {
    EntriesOwned(keys, samples, n, members) && EntriesRising(members)
  }

  ghost predicate EntriesOwned(keys: seq<string>, samples: seq<SampleInfo>, n: nat, members: map<string, seq<Entry>>)
    requires n <= |samples|
  {
    forall k, j :: k in members && 0 <= j < |members[k]| ==>
      members[k][j].1 < n && members[k][j].0 == samples[members[k][j].1].data
      && KeyOf(keys, samples[members[k][j].1]) == Some(k)
  }

  ghost predicate EntriesRising(members: map<string, seq<Entry>>)
  {
    forall k, j1, j2 :: k in members && 0 <= j1 < j2 < |members[k]| ==> members[k][j1].1 < members[k][j2].1
  }

  /** The order lists each key once, exactly the keys of the groups, and no group is empty. */
  ghost predicate OrderValid(order: seq<string>, members: map<string, seq<Entry>>)
  {
    Distinct(order) && (forall k :: k in members <==> k in order)
    && forall k :: k in members ==> members[k] != []
  }

  /** Total size of the groups named in `order`. */
  function SizeSum(order: seq<string>, members: map<string, seq<Entry>>): nat
    requires forall k :: k in order ==> k in members
  {
    if order == [] then 0 else SizeSum(order[..|order| - 1], members) + |members[order[|order| - 1]]|
  }

  /** Changing one group's entries changes the total by the change in that group's size. */
  lemma {:induction false} SizeSumUpdate(order: seq<string>, members: map<string, seq<Entry>>, k: string, e: seq<Entry>)
    requires forall x :: x in order ==> x in members
    requires Distinct(order)
    ensures SizeSum(order, members[k := e]) ==
      SizeSum(order, members) + (if k in order then |e| - |members[k]| else 0)
  {
    if order != [] {
      var front := order[..|order| - 1];
      assert forall x :: x in front ==> x in order;
      assert Distinct(front);
      SizeSumUpdate(front, members, k, e);
      assert k in order <==> k in front || k == order[|order| - 1];
      assert k == order[|order| - 1] ==> k !in front;
    }
  }

  /** The order and the groups stay well formed as samples are grouped. */
  lemma {:induction false} GroupOrderValid(keys: seq<string>, samples: seq<SampleInfo>, n: nat)
    requires n <= |samples| && GroupPrefix(keys, samples, n).Groups?
    ensures var g := GroupPrefix(keys, samples, n);
      OrderValid(g.order, g.members) && SizeSum(g.order, g.members) == n
  {
    if n > 0 {
      var g := GroupPrefix(keys, samples, n - 1);
      GroupOrderValid(keys, samples, n - 1);
      var s := samples[n - 1];
      var k := KeyOf(keys, s).value;
      var e := if k in g.members then g.members[k] + [(s.data, n - 1)] else [(s.data, n - 1)];
      assert GroupPrefix(keys, samples, n) ==
        if k in g.members then Groups(g.order, g.members[k := e]) else Groups(g.order + [k], g.members[k := e]);
      OrderValidStep(g.order, g.members, k, e);
      SizeSumUpdate(g.order, g.members, k, e);
      if k !in g.members {
        var o := g.order + [k];
        assert o[..|o| - 1] == g.order;
        assert SizeSum(o, g.members[k := e]) == SizeSum(g.order, g.members[k := e]) + 1;
      }
    }
  }

  /** Giving a group non-empty entries keeps the order well formed; a new key joins at the end. */
  lemma OrderValidStep(order: seq<string>, members: map<string, seq<Entry>>, k: string, e: seq<Entry>)
    requires OrderValid(order, members) && e != []
    ensures k in members ==> OrderValid(order, members[k := e])
    ensures k !in members ==> OrderValid(order + [k], members[k := e])
  {
    if k !in members {
      DistinctSnoc(order, k);
    }
  }

  /** Each group holds its own samples, in input order. */
  lemma {:induction false} GroupEntriesValid(keys: seq<string>, samples: seq<SampleInfo>, n: nat)
    requires n <= |samples| && GroupPrefix(keys, samples, n).Groups?
    ensures EntriesValid(keys, samples, n, GroupPrefix(keys, samples, n).members)
  {
    GroupEntriesOwned(keys, samples, n);
    GroupEntriesRising(keys, samples, n);
  }

  lemma {:induction false} GroupEntriesOwned(keys: seq<string>, samples: seq<SampleInfo>, n: nat)
    requires n <= |samples| && GroupPrefix(keys, samples, n).Groups?
    ensures EntriesOwned(keys, samples, n, GroupPrefix(keys, samples, n).members)
  {
    if n > 0 {
      GroupEntriesOwned(keys, samples, n - 1);
    }
  }

  lemma {:induction false} GroupEntriesRising(keys: seq<string>, samples: seq<SampleInfo>, n: nat)
    requires n <= |samples| && GroupPrefix(keys, samples, n).Groups?
    ensures EntriesRising(GroupPrefix(keys, samples, n).members)
    ensures forall k, j :: k in GroupPrefix(keys, samples, n).members && 0 <= j < |GroupPrefix(keys, samples, n).members[k]| ==>
      GroupPrefix(keys, samples, n).members[k][j].1 < n
  {
    if n > 0 {
      GroupEntriesRising(keys, samples, n - 1);
    }
  }

  /** Every grouped sample sits in the group of its own key. */
  lemma {:induction false} GroupCovers(keys: seq<string>, samples: seq<SampleInfo>, n: nat)
    requires n <= |samples| && GroupPrefix(keys, samples, n).Groups?
    ensures var g := GroupPrefix(keys, samples, n);
      forall i :: 0 <= i < n ==> KeyOf(keys, samples[i]).Some? && Covered(g.members, KeyOf(keys, samples[i]).value, i)
  {
    if n > 0 {
      GroupCovers(keys, samples, n - 1);
      var g := GroupPrefix(keys, samples, n - 1);
      var r := GroupPrefix(keys, samples, n);
      var k := KeyOf(keys, samples[n - 1]).value;
      assert r.members[k][|r.members[k]| - 1].1 == n - 1;
      forall i | 0 <= i < n - 1
        ensures Covered(r.members, KeyOf(keys, samples[i]).value, i)
      {
        var ki := KeyOf(keys, samples[i]).value;
        var j :| 0 <= j < |g.members[ki]| && g.members[ki][j].1 == i;
        assert r.members[ki][j] == g.members[ki][j];
      }
    }
  }

  /** The grouping loop: fills the per-key lists and stops at the first sample without a usable key. */
  method GroupSamples(keys: seq<string>, samples: seq<SampleInfo>) returns (g: Grouping)
    ensures g == Group(keys, samples)
  {
    var order: seq<string> := [];
    var members: map<string, seq<Entry>> := map[];
    var i := 0;
    while i < |samples|
      invariant 0 <= i <= |samples|
      invariant GroupPrefix(keys, samples, i) == Groups(order, members)
    {
      var choice := ResolveDecryptKey(keys, samples[i].descIndex);
      if !Usable(choice) {
        GroupStopped(keys, samples, i + 1, |samples|);
        return Unresolvable(samples[i].descIndex);
      }
      var k := choice.key.value;
      if k in members {
        members := members[k := members[k] + [(samples[i].data, i)]];
      } else {
        order := order + [k];
        members := members[k := [(samples[i].data, i)]];
      }
      i := i + 1;
    }
    return Groups(order, members);
  }

  // ---------------------------------------------------------------- fast path: scatter back

  /** What `decrypt_all` returns for one key's entries: success, the chunks, the error message. */
  datatype Reply = Reply(success: bool, chunks: seq<Bytes>, error: Option<string>)

  /** A reply is used only when it succeeded with one chunk per entry. */
  predicate GoodReply(r: Reply, group: seq<Entry>)
  {
    r.success && r.chunks != [] && |r.chunks| == |group|
  }

  const FastFailedMessage := "解密失败"

  /** The scatter loop's state: still going, the slots, the samples counted, the first group's error. */
  datatype Scatter = Scatter(ok: bool, slots: seq<Option<Bytes>>, counter: nat, error: Option<string>)

  ghost predicate Indexed(order: seq<string>, members: map<string, seq<Entry>>, n: nat)
  {
    (forall k :: k in order ==> k in members)
    && forall k, j :: k in members && 0 <= j < |members[k]| ==> members[k][j].1 < n
  }

  /** The first `m` chunks written to their entries' positions, in entry order. */
  function PlaceGroup(slots: seq<Option<Bytes>>, group: seq<Entry>, chunks: seq<Bytes>, m: nat): (r: seq<Option<Bytes>>)
    requires m <= |group| && m <= |chunks|
    requires forall t :: 0 <= t < |group| ==> group[t].1 < |slots|
    ensures |r| == |slots|
  {
    if m == 0 then slots else PlaceGroup(slots, group, chunks, m - 1)[group[m - 1].1 := Some(chunks[m - 1])]
  }

  /**
   * Within a group whose positions rise, the t-th chunk lands at the t-th entry's position, and
   * positions of no entry keep their slot.
   */
  lemma {:induction false} PlaceGroupSpec(slots: seq<Option<Bytes>>, group: seq<Entry>, chunks: seq<Bytes>, m: nat)
    requires m <= |group| && m <= |chunks|
    requires forall t :: 0 <= t < |group| ==> group[t].1 < |slots|
    requires forall t1, t2 :: 0 <= t1 < t2 < |group| ==> group[t1].1 < group[t2].1
    ensures var r := PlaceGroup(slots, group, chunks, m);
      (forall t :: 0 <= t < m ==> r[group[t].1] == Some(chunks[t]))
      && forall q :: 0 <= q < |slots| && (forall t :: 0 <= t < m ==> group[t].1 != q) ==> r[q] == slots[q]
  {
    if m > 0 {
      PlaceGroupSpec(slots, group, chunks, m - 1);
    }
  }

  /** The groups of `order[..g]` scattered in order; the first bad reply stops with its error. */
  function ScatterUpTo(order: seq<string>, members: map<string, seq<Entry>>, reply: (string, seq<Entry>) -> Reply,
                       n: nat, g: nat): (r: Scatter)
    requires g <= |order| && Indexed(order, members, n)
    ensures |r.slots| == n
  {
    if g == 0 then Scatter(true, Nones(n), 0, None)
    else
      var st := ScatterUpTo(order, members, reply, n, g - 1);
      if !st.ok then st
      else
        var k := order[g - 1];
        var rep := reply(k, members[k]);
        if !GoodReply(rep, members[k]) then
          Scatter(false, st.slots, st.counter, Some(if Truthy(rep.error) then rep.error.value else FastFailedMessage))
        else Scatter(true, PlaceGroup(st.slots, members[k], rep.chunks, |members[k]|), st.counter + |members[k]|, None)
  }

  /** Scattering goes through exactly when every group's reply is good. */
  lemma {:induction false} ScatterOk(order: seq<string>, members: map<string, seq<Entry>>,
                                     reply: (string, seq<Entry>) -> Reply, n: nat, g: nat)
    requires g <= |order| && Indexed(order, members, n)
    ensures ScatterUpTo(order, members, reply, n, g).ok <==>
      forall t :: 0 <= t < g ==> GoodReply(reply(order[t], members[order[t]]), members[order[t]])
    ensures ScatterUpTo(order, members, reply, n, g).ok <==> ScatterUpTo(order, members, reply, n, g).error.None?
  {
    if g > 0 {
      ScatterOk(order, members, reply, n, g - 1);
    }
  }

  /** The first group with a bad reply stops the scatter with its error, or the default message. */
  lemma {:induction false} ScatterFirstBad(order: seq<string>, members: map<string, seq<Entry>>,
                                           reply: (string, seq<Entry>) -> Reply, n: nat, g: nat, t: nat)
    requires t < g <= |order| && Indexed(order, members, n)
    requires forall u :: 0 <= u < t ==> GoodReply(reply(order[u], members[order[u]]), members[order[u]])
    requires !GoodReply(reply(order[t], members[order[t]]), members[order[t]])
    ensures var rep := reply(order[t], members[order[t]]);
      ScatterUpTo(order, members, reply, n, g).error == Some(if Truthy(rep.error) then rep.error.value else FastFailedMessage)
  {
    if g > t + 1 {
      ScatterFirstBad(order, members, reply, n, g - 1, t);
    } else {
      ScatterOk(order, members, reply, n, t);
    }
  }

  /** The grouping invariants the scatter relies on. */
  ghost predicate Grouped(keys: seq<string>, samples: seq<SampleInfo>, order: seq<string>, members: map<string, seq<Entry>>)
  {
    OrderValid(order, members) && EntriesOwned(keys, samples, |samples|, members) && EntriesRising(members)
    && Indexed(order, members, |samples|)
  }

  /** A scattered group writes no position of another group. */
  lemma ScatterKeeps(keys: seq<string>, samples: seq<SampleInfo>, order: seq<string>,
                     members: map<string, seq<Entry>>, reply: (string, seq<Entry>) -> Reply, g: nat, t: nat, j: nat)
    requires 0 < g <= |order| && t < g - 1 && Grouped(keys, samples, order, members)
    requires j < |members[order[t]]|
    requires ScatterUpTo(order, members, reply, |samples|, g).ok
    ensures var q := members[order[t]][j].1;
      ScatterUpTo(order, members, reply, |samples|, g).slots[q] == ScatterUpTo(order, members, reply, |samples|, g - 1).slots[q]
  {
    var n := |samples|;
    var prev := ScatterUpTo(order, members, reply, n, g - 1);
    var k := order[g - 1];
    var grp := members[k];
    var q := members[order[t]][j].1;
    PlaceGroupSpec(prev.slots, grp, reply(k, grp).chunks, |grp|);
    forall u | 0 <= u < |grp|
      ensures grp[u].1 != q
    {
      assert KeyOf(keys, samples[grp[u].1]) == Some(k) && KeyOf(keys, samples[q]) == Some(order[t]);
      assert order[t] != order[g - 1];
    }
  }

  /** While scattering goes through, the counter is the scattered groups' total size. */
  lemma {:induction false} ScatterCount(order: seq<string>, members: map<string, seq<Entry>>,
                                        reply: (string, seq<Entry>) -> Reply, n: nat, g: nat)
    requires g <= |order| && Indexed(order, members, n)
    ensures var st := ScatterUpTo(order, members, reply, n, g);
      st.ok ==> st.counter == SizeSum(order[..g], members)
  {
    if g > 0 {
      ScatterCount(order, members, reply, n, g - 1);
      assert order[..g][..g - 1] == order[..g - 1];
    }
  }

  /** While scattering goes through, the j-th chunk of each scattered group sits at that group's j-th position. */
  lemma {:induction false} ScatterPlaced(keys: seq<string>, samples: seq<SampleInfo>, order: seq<string>,
                                         members: map<string, seq<Entry>>, reply: (string, seq<Entry>) -> Reply, g: nat)
    requires g <= |order| && Grouped(keys, samples, order, members)
    ensures var st := ScatterUpTo(order, members, reply, |samples|, g);
      st.ok ==>
        forall t, j :: 0 <= t < g && 0 <= j < |members[order[t]]| ==>
          GoodReply(reply(order[t], members[order[t]]), members[order[t]])
          && st.slots[members[order[t]][j].1] == Some(reply(order[t], members[order[t]]).chunks[j])
  {
    var n := |samples|;
    if g > 0 {
      ScatterPlaced(keys, samples, order, members, reply, g - 1);
      ScatterOk(order, members, reply, n, g);
      var prev := ScatterUpTo(order, members, reply, n, g - 1);
      var k := order[g - 1];
      var grp := members[k];
      var st := ScatterUpTo(order, members, reply, n, g);
      if st.ok {
        PlaceGroupSpec(prev.slots, grp, reply(k, grp).chunks, |grp|);
        forall t, j | 0 <= t < g - 1 && 0 <= j < |members[order[t]]|
          ensures st.slots[members[order[t]][j].1] == prev.slots[members[order[t]][j].1]
        {
          ScatterKeeps(keys, samples, order, members, reply, g, t, j);
        }
      }
    }
  }

  /** The fast decrypt's effect: success, the slots and the counter it leaves, and its error. */
  datatype FastResult = FastResult(success: bool, slots: seq<Option<Bytes>>, count: int, error: Option<string>)

  function FastKeyMessage(descIndex: int): string
  {
    "descIndex=" + IntToString(descIndex) + " 无可用解密密钥"
  }

  /**
   * The fast path: fresh empty slots, the grouping, then one `decrypt_all` per key; `count` is
   * the counter beforehand, which a grouping error leaves alone.
   */
  function FastDecrypt(keys: seq<string>, samples: seq<SampleInfo>, reply: (string, seq<Entry>) -> Reply, count: int): FastResult
  {
    var n := |samples|;
    var g := Group(keys, samples);
    if g.Unresolvable? then FastResult(false, Nones(n), count, Some(FastKeyMessage(g.descIndex)))
    else
      GroupOrderValid(keys, samples, n);
      GroupEntriesRising(keys, samples, n);
      var st := ScatterUpTo(g.order, g.members, reply, n, |g.order|);
      FastResult(st.ok && None !in st.slots, st.slots, st.counter, st.error)
  }

  /**
   * The fast path succeeds exactly when every sample has a usable key and every key's reply is
   * good; then each group's j-th chunk sits at its j-th sample's position and every sample is
   * counted.
   */
  lemma FastDecryptSpec(keys: seq<string>, samples: seq<SampleInfo>, reply: (string, seq<Entry>) -> Reply, count: int)
    ensures var r := FastDecrypt(keys, samples, reply, count);
      var g := Group(keys, samples);
      (r.success <==> g.Groups? && forall t :: 0 <= t < |g.order| ==>
                        g.order[t] in g.members && GoodReply(reply(g.order[t], g.members[g.order[t]]), g.members[g.order[t]]))
      && (r.success ==>
            r.count == |samples|
            && forall k, j :: k in g.members && 0 <= j < |g.members[k]| ==>
                 g.members[k][j].1 < |r.slots| && j < |reply(k, g.members[k]).chunks|
                 && r.slots[g.members[k][j].1] == Some(reply(k, g.members[k]).chunks[j]))
  {
    var n := |samples|;
    var g := Group(keys, samples);
    var r := FastDecrypt(keys, samples, reply, count);
    if g.Groups? {
      GroupOrderValid(keys, samples, n);
      GroupEntriesValid(keys, samples, n);
      GroupEntriesRising(keys, samples, n);
      GroupCovers(keys, samples, n);
      var order, members := g.order, g.members;
      assert Grouped(keys, samples, order, members);
      ScatterOk(order, members, reply, n, |order|);
      ScatterCount(order, members, reply, n, |order|);
      ScatterPlaced(keys, samples, order, members, reply, |order|);
      assert order[..|order|] == order;
      var st := ScatterUpTo(order, members, reply, n, |order|);
      if st.ok {
        forall k, j | k in members && 0 <= j < |members[k]|
          ensures st.slots[members[k][j].1] == Some(reply(k, members[k]).chunks[j])
        {
          var t :| 0 <= t < |order| && order[t] == k;
        }
        forall q | 0 <= q < n
          ensures st.slots[q].Some?
        {
          var k := KeyOf(keys, samples[q]).value;
          var j :| 0 <= j < |members[k]| && members[k][j].1 == q;
        }
        assert None !in st.slots;
      }
    }
  }

  /** Once a group's reply is bad, the scatter stays where it stopped. */
  lemma {:induction false} ScatterStopped(order: seq<string>, members: map<string, seq<Entry>>,
                                          reply: (string, seq<Entry>) -> Reply, n: nat, g: nat, m: nat)
    requires g <= m <= |order| && Indexed(order, members, n)
    requires !ScatterUpTo(order, members, reply, n, g).ok
    ensures ScatterUpTo(order, members, reply, n, m) == ScatterUpTo(order, members, reply, n, g)
    decreases m
  {
    if m > g {
      ScatterStopped(order, members, reply, n, g, m - 1);
    }
  }

  /** The `zip` loop: one group's chunks written to the task's slots at the entries' positions. */
  method PlaceInto(task: DownloadTask, group: seq<Entry>, chunks: seq<Bytes>)
    requires |group| <= |chunks|
    requires forall t :: 0 <= t < |group| ==> group[t].1 < |task.decryptedSamples|
    modifies task`decryptedSamples
    ensures task.decryptedSamples == PlaceGroup(old(task.decryptedSamples), group, chunks, |group|)
  {
    ghost var start := task.decryptedSamples;
    var t := 0;
    while t < |group|
      invariant 0 <= t <= |group|
      invariant task.decryptedSamples == PlaceGroup(start, group, chunks, t)
    {
      task.decryptedSamples := task.decryptedSamples[group[t].1 := Some(chunks[t])];
      t := t + 1;
    }
  }

  /** The loop over the groups in first-use order, stopping at the first bad reply. */
  method ScatterGroups(task: DownloadTask, order: seq<string>, members: map<string, seq<Entry>>,
                       reply: (string, seq<Entry>) -> Reply, n: nat) returns (ok: bool, counter: nat, error: Option<string>)
    requires Indexed(order, members, n) && task.decryptedSamples == Nones(n)
    modifies task`decryptedSamples
    ensures Scatter(ok, task.decryptedSamples, counter, error) == ScatterUpTo(order, members, reply, n, |order|)
  {
    ok, counter, error := true, 0, None;
    var g := 0;
    while g < |order|
      invariant 0 <= g <= |order|
      invariant Scatter(true, task.decryptedSamples, counter, None) == ScatterUpTo(order, members, reply, n, g)
    {
      var k := order[g];
      var rep := reply(k, members[k]);
      if !GoodReply(rep, members[k]) {
        ok := false;
        error := Some(if Truthy(rep.error) then rep.error.value else FastFailedMessage);
        ScatterStopped(order, members, reply, n, g + 1, |order|);
        return;
      }
      PlaceInto(task, members[k], rep.chunks);
      counter := counter + |members[k]|;
      g := g + 1;
    }
  }

  /**
   * The fast path of the download flow on a task whose song and stream are known: its slots,
   * counter, success flag and error are those of `FastDecrypt`.
   */
  method FastDecryptTask(task: DownloadTask, reply: (string, seq<Entry>) -> Reply) returns (success: bool, fastError: Option<string>)
    requires task.samples.Some? && task.keys.Some?
    modifies task`decryptedSamples, task`decryptedCount
    ensures var r := FastDecrypt(task.keys.value, task.samples.value, reply, old(task.decryptedCount));
      success == r.success && fastError == r.error && task.decryptedSamples == r.slots && task.decryptedCount == r.count
  {
    var samples, keys := task.samples.value, task.keys.value;
    var n := |samples|;
    task.decryptedSamples := Nones(n);
    var g := GroupSamples(keys, samples);
    if g.Unresolvable? {
      return false, Some(FastKeyMessage(g.descIndex));
    }
    GroupOrderValid(keys, samples, n);
    GroupEntriesRising(keys, samples, n);
    var ok, counter;
    ok, counter, fastError := ScatterGroups(task, g.order, g.members, reply, n);
    task.decryptedCount := counter;
    success := ok && None !in task.decryptedSamples;
  }
}
