/**
 * `SystemMonitor`: the controller of the telemetry pipeline. It owns one channel per
 * monitored kind, the producer and processor task maps, the running/exit flags and a
 * reusable thread pool, and keeps them in step on `start` and `stop`.
 *
 * Tasks are handles only: creating one records it under its key with a fresh serial,
 * cancelling one records it in `cancelled`. What a task does once running (sampling,
 * sleeping, awaiting) is not modelled; the outcome of the bounded wait in
 * `del_processor` is the parameter `processorsTimedOut`.
 */
module SystemMonitoring {
  import opened Wrappers
  import opened PyValues
  import opened Channels
  import opened MonitorOptions
  import ThreadPool

  /** The key of a processor task: "unite" in unified mode, a kind name otherwise. */
  datatype ProcessorKey = Unite | OfKind(kind: Kind)

  /** `update_queue` (and the constructor's comprehension): one empty channel per monitored kind. */
  function FreshQueues(monitoring: seq<Kind>, capacity: int): (q: map<Kind, Channel<Snapshot>>)
    ensures q.Keys == Elements(monitoring)
    ensures forall k :: k in q ==> q[k] == Empty(capacity)
  {
    map k | k in monitoring :: Empty(capacity)
  }

  /**
   * Creating one task per key, in order, with consecutive serials from `next`: a later
   * key overwrites an earlier equal one, as a dictionary assignment does.
   */
  function Spawn<K>(m: map<K, Task>, keys: seq<K>, next: nat): (r: map<K, Task>)
    ensures r.Keys == m.Keys + Elements(keys)
    ensures forall k :: k in m && k !in keys ==> r[k] == m[k]
    decreases |keys|
  {
    if keys == [] then m
    else
      var last := |keys| - 1;
      ElementsSnoc(keys);
      Spawn(m, keys[..last], next)[keys[last] := Task(next + last)]
  }

  lemma ElementsSnoc<T>(s: seq<T>)
    requires s != []
    ensures Elements(s) == Elements(s[..|s| - 1]) + {s[|s| - 1]}
  {
    assert s == s[..|s| - 1] + [s[|s| - 1]];
  }

  /** One more key spawns one more task, with the next serial, on top of the shorter prefix. */
  lemma SpawnStep<K>(m: map<K, Task>, keys: seq<K>, next: nat, i: nat)
    requires i < |keys|
    ensures Spawn(m, keys[..i + 1], next) == Spawn(m, keys[..i], next)[keys[i] := Task(next + i)]
  {
    assert keys[..i + 1][..i] == keys[..i];
  }

  /**
   * The per-kind stops of `ms`, one after the other, from producers `p` and cancelled
   * tasks `c`: a kind with a producer loses it and its task is cancelled.
   */
  function StopAll(ms: seq<Kind>, p: map<Kind, Task>, c: set<Task>): (map<Kind, Task>, set<Task>)
    decreases |ms|
  {
    if ms == [] then (p, c)
    else
      var before := StopAll(ms[..|ms| - 1], p, c);
      var m := ms[|ms| - 1];
      if m in before.0 then (before.0 - {m}, before.1 + {before.0[m]}) else before
  }

  /** Stopping `ms` removes exactly their producers and cancels exactly their tasks. */
  lemma {:induction false} StopAllClosedForm(ms: seq<Kind>, p: map<Kind, Task>, c: set<Task>)
    ensures StopAll(ms, p, c) == (p - Elements(ms), c + CancelledBy(ms, p))
    decreases |ms|
  {
    if ms != [] {
      var init := ms[..|ms| - 1];
      var m := ms[|ms| - 1];
      assert ms == init + [m];
      StopAllClosedForm(init, p, c);
      CancelledBySnoc(init, m, p);
      ElementsSnoc(ms);
      var rest := p - Elements(init);
      assert StopAll(init, p, c) == (rest, c + CancelledBy(init, p));
      if m in rest {
        assert StopAll(ms, p, c) == (rest - {m}, c + CancelledBy(init, p) + {p[m]});
        assert rest - {m} == p - Elements(ms);
        assert c + CancelledBy(ms, p) == c + CancelledBy(init, p) + {p[m]};
      } else if m in p {
        assert m in Elements(init);
        assert p[m] in CancelledBy(init, p);
        assert Elements(ms) == Elements(init);
        assert CancelledBy(ms, p) == CancelledBy(init, p);
        assert StopAll(ms, p, c) == (rest, c + CancelledBy(init, p));
      } else {
        assert StopAll(ms, p, c) == (rest, c + CancelledBy(init, p));
        assert CancelledBy(ms, p) == CancelledBy(init, p);
        assert rest == p - Elements(ms);
      }
    } else {
      assert Elements(ms) == {};
      assert p - Elements(ms) == p;
      assert CancelledBy(ms, p) == {};
      assert c + CancelledBy(ms, p) == c;
    }
  }

  /** The tasks the per-kind stops of `ms` cancel when the producers are `p`. */
  ghost function CancelledBy(ms: seq<Kind>, p: map<Kind, Task>): set<Task> {
    set k | k in ms && k in p :: p[k]
  }

  lemma CancelledBySnoc(ms: seq<Kind>, m: Kind, p: map<Kind, Task>)
    ensures CancelledBy(ms + [m], p) == CancelledBy(ms, p) + (if m in p then {p[m]} else {})
  {
    assert forall k :: k in ms + [m] <==> k in ms || k == m;
  }

  lemma SomeMissingSnoc(ms: seq<Kind>, m: Kind, running: set<Kind>)
    ensures SomeMissing(ms + [m], running) <==> SomeMissing(ms, running) || m !in running
  {
    var t := ms + [m];
    assert t[|ms|] == m;
    if SomeMissing(t, running) && !(m !in running) {
      var j :| 0 <= j < |t| && t[j] !in running;
      assert t[j] == ms[j];
    }
    if SomeMissing(ms, running) {
      var j :| 0 <= j < |ms| && ms[j] !in running;
      assert t[j] == ms[j];
    }
  }

  lemma RepeatsSnoc(ms: seq<Kind>, m: Kind)
    ensures Repeats(ms + [m]) <==> Repeats(ms) || m in ms
  {
    var t := ms + [m];
    assert t[..|ms|] == ms;
    if Repeats(t) && m !in ms {
      var j :| 0 <= j < |t| && t[j] in t[..j];
      assert j < |ms|;
      assert t[..j] == ms[..j];
    }
    if Repeats(ms) {
      var j :| 0 <= j < |ms| && ms[j] in ms[..j];
      assert t[..j] == ms[..j] && t[j] == ms[j];
    }
  }

  /** The per-kind processor keys, in monitoring order. */
  function KindKeys(monitoring: seq<Kind>): (ks: seq<ProcessorKey>)
    ensures |ks| == |monitoring|
    ensures forall i :: 0 <= i < |ks| ==> ks[i] == OfKind(monitoring[i])
  {
    seq(|monitoring|, i requires 0 <= i < |monitoring| => OfKind(monitoring[i]))
  }

  /** Whether some monitored kind has no producer, which makes `stop_<kind>_monitoring` call `None.cancel()`. */
  predicate SomeMissing(monitoring: seq<Kind>, running: set<Kind>) {
    exists j :: 0 <= j < |monitoring| && monitoring[j] !in running
  }

  /** Whether some kind is listed twice: two concurrent stops of it both `del` the same entry. */
  predicate Repeats(monitoring: seq<Kind>) {
    exists j :: 0 <= j < |monitoring| && monitoring[j] in monitoring[..j]
  }

  /**
   * The exception `asyncio.gather` of the per-kind stops raises when the producers
   * running are `running`: the `AttributeError` of a missing kind comes first (it is
   * raised before any task is awaited); otherwise a repeated kind's second `del`
   * raises `KeyError`.
   */
  function StopFailure(monitoring: seq<Kind>, running: set<Kind>): Option<Error> {
    if SomeMissing(monitoring, running) then Some(AttributeError)
    else if Repeats(monitoring) then Some(KeyError)
    else None
  }

  /** A list repeats an element exactly when it has duplicates. */
  lemma RepeatsIffDuplicates(monitoring: seq<Kind>)
    ensures Repeats(monitoring) <==> !NoDuplicates(monitoring)
  {
    if !NoDuplicates(monitoring) {
      var i, j :| 0 <= i < j < |monitoring| && monitoring[i] == monitoring[j];
      assert monitoring[..j][i] == monitoring[j];
    }
    if Repeats(monitoring) {
      var j :| 0 <= j < |monitoring| && monitoring[j] in monitoring[..j];
      var i :| 0 <= i < j && monitoring[..j][i] == monitoring[j];
      assert monitoring[i] == monitoring[j];
    }
  }

  /**
   * Stopping right after a start, when every monitored kind has a producer, fails
   * exactly when a kind is listed twice; stopping with no producer at all always fails
   * with `AttributeError`.
   */
  lemma StopFailureCases(monitoring: seq<Kind>)
    requires |monitoring| > 0
    ensures StopFailure(monitoring, Elements(monitoring)).None? <==> NoDuplicates(monitoring)
    ensures StopFailure(monitoring, {}) == Some(AttributeError)
  {
    RepeatsIffDuplicates(monitoring);
    assert !SomeMissing(monitoring, Elements(monitoring));
    var none: set<Kind> := {};
    assert monitoring[0] !in none;
  }

  class SystemMonitor {
    const unite: bool
    const monitoring: seq<Kind>
    const addons: Binding
    const refreshInterval: real
    const capacity: int
    const maxWorkers: int
    const pool: ThreadPool.ReusableThreadPool

    var queue: map<Kind, Channel<Snapshot>>
    var isRunning: bool
    var exit: bool
    var producer: map<Kind, Task>
    var processor: map<ProcessorKey, Task>
    /** The serial the next created task gets. */
    var nextTask: nat
    /** Every task cancelled so far. */
    var cancelled: set<Task>

    /** The keys `create_processor` registers. */
    function ProcessorKeys(): seq<ProcessorKey>
    {
      if unite then [Unite] else KindKeys(monitoring)
    }

    /** The maps are keyed only by what the configuration allows. */
    predicate Valid()
      reads this
    {
      && |monitoring| > 0 && maxWorkers >= 1
      && queue.Keys == Elements(monitoring)
      && producer.Keys <= Elements(monitoring)
      && processor.Keys <= Elements(ProcessorKeys())
    }

    constructor (options: Options)
      requires ValidOptions(options)
      ensures unite == options.unite && monitoring == options.monitoring && addons == options.addons
      ensures refreshInterval == options.refreshInterval && capacity == options.channelQueueMaxSize
      ensures maxWorkers == options.threadPoolMaxWorkers
      ensures fresh(pool) && pool.executor.None? && pool.created == 0 && pool.shutDown == [] && pool.submitted == []
      ensures queue == FreshQueues(monitoring, capacity)
      ensures !isRunning && exit && producer == map[] && processor == map[] && cancelled == {}
      ensures Valid()
    {
      unite := options.unite;
      monitoring := options.monitoring;
      addons := options.addons;
      refreshInterval := options.refreshInterval;
      capacity := options.channelQueueMaxSize;
      maxWorkers := options.threadPoolMaxWorkers;
      pool := new ThreadPool.ReusableThreadPool();
      queue := FreshQueues(options.monitoring, options.channelQueueMaxSize);
      isRunning := false;
      exit := true;
      producer := map[];
      processor := map[];
      nextTask := 0;
      cancelled := {};
    }

    /** `create_processor`: one task for "unite", or one per monitored kind, registered under its key. */
    method CreateProcessor()
      requires Valid()
      modifies this
      ensures processor == Spawn(old(processor), ProcessorKeys(), old(nextTask))
      ensures nextTask == old(nextTask) + |ProcessorKeys()|
      ensures queue == old(queue) && producer == old(producer) && cancelled == old(cancelled)
      ensures isRunning == old(isRunning) && exit == old(exit)
      ensures Valid()
    {
      var keys := ProcessorKeys();
      var acc := processor;
      var i := 0;
      while i < |keys|
        invariant 0 <= i <= |keys|
        invariant acc == Spawn(processor, keys[..i], nextTask)
        modifies {}
      {
        SpawnStep(processor, keys, nextTask, i);
        acc := acc[keys[i] := Task(nextTask + i)];
        i := i + 1;
      }
      assert keys[..i] == keys;
      processor := acc;
      nextTask := nextTask + |keys|;
    }

    /**
     * `del_processor`: awaits every processor with a bounded wait. On timeout the wait
     * cancels them and `TimeoutError` is raised; either way the map is cleared.
     */
    method DelProcessor(processorsTimedOut: bool) returns (r: Result<Unit>)
      modifies this
      ensures processor == map[]
      ensures processorsTimedOut ==> r == Err(Timeout) && cancelled == old(cancelled) + old(processor).Values
      ensures !processorsTimedOut ==> r == Ok(Unit) && cancelled == old(cancelled)
      ensures queue == old(queue) && producer == old(producer) && nextTask == old(nextTask)
      ensures isRunning == old(isRunning) && exit == old(exit)
    {
      if processorsTimedOut {
        cancelled := cancelled + processor.Values;
        r := Err(Timeout);
      } else {
        r := Ok(Unit);
      }
      processor := map[];
    }

    /**
     * `stop_<kind>_monitoring`: cancels the kind's producer and deletes its entry; with
     * no entry, `None.cancel()` raises `AttributeError` before the `try`, so nothing is deleted.
     */
    method StopKindMonitoring(m: Kind) returns (r: Result<Unit>)
      modifies this
      ensures m in old(producer) ==>
        r == Ok(Unit) && producer == old(producer) - {m} && cancelled == old(cancelled) + {old(producer)[m]}
      ensures m !in old(producer) ==>
        r == Err(AttributeError) && producer == old(producer) && cancelled == old(cancelled)
      ensures queue == old(queue) && processor == old(processor) && nextTask == old(nextTask)
      ensures isRunning == old(isRunning) && exit == old(exit)
    {
      if m in producer {
        cancelled := cancelled + {producer[m]};
        producer := producer - {m};
        r := Ok(Unit);
      } else {
        r := Err(AttributeError);
      }
    }

    /** The `start_<kind>_monitoring` calls of `start`: one new producer task per monitored kind. */
    method StartProducers()
      requires Valid()
      modifies this
      ensures producer == Spawn(old(producer), monitoring, old(nextTask))
      ensures producer.Keys == old(producer).Keys + Elements(monitoring)
      ensures nextTask == old(nextTask) + |monitoring|
      ensures queue == old(queue) && processor == old(processor) && cancelled == old(cancelled)
      ensures isRunning == old(isRunning) && exit == old(exit)
      ensures Valid()
    {
      var acc := producer;
      var i := 0;
      while i < |monitoring|
        invariant 0 <= i <= |monitoring|
        invariant acc == Spawn(producer, monitoring[..i], nextTask)
        modifies {}
      {
        SpawnStep(producer, monitoring, nextTask, i);
        acc := acc[monitoring[i] := Task(nextTask + i)];
        i := i + 1;
      }
      assert monitoring[..i] == monitoring;
      producer := acc;
      nextTask := nextTask + |monitoring|;
    }

    /**
     * `start`: sets the flags, creates the processors, starts the pool and then one
     * producer per monitored kind. There is no guard: starting again creates new tasks
     * under the same keys, and the tasks they replace are no longer tracked.
     */
    method Start()
      requires Valid()
      modifies this, pool
      ensures isRunning && !exit
      ensures processor == Spawn(old(processor), ProcessorKeys(), old(nextTask))
      ensures producer == Spawn(old(producer), monitoring, old(nextTask) + |ProcessorKeys()|)
      ensures nextTask == old(nextTask) + |ProcessorKeys()| + |monitoring|
      ensures processor.Keys == old(processor).Keys + Elements(ProcessorKeys())
      ensures producer.Keys == old(producer).Keys + Elements(monitoring)
      ensures pool.executor.Some?
      ensures old(pool.executor).Some? ==> pool.executor == old(pool.executor)
      ensures old(pool.executor).None? ==> pool.executor == Some(ThreadPool.Executor(old(pool.created), Some(maxWorkers)))
      ensures pool.shutDown == old(pool.shutDown) && pool.submitted == old(pool.submitted)
      ensures queue == old(queue) && cancelled == old(cancelled)
      ensures Valid()
    {
      isRunning, exit := true, false;
      CreateProcessor();
      var started := pool.Start(Some(maxWorkers));
      StartProducers();
    }

    /**
     * The per-kind stops of `stop`, gathered: every monitored kind that has a producer
     * loses it; the result is the first exception the gathered stops raise.
     */
    method StopProducers() returns (r: Result<Unit>)
      requires Valid()
      modifies this
      ensures producer == old(producer) - Elements(monitoring)
      ensures cancelled == old(cancelled) + CancelledBy(monitoring, old(producer))
      ensures StopFailure(monitoring, old(producer).Keys).Some? ==>
        r == Err(StopFailure(monitoring, old(producer).Keys).value)
      ensures StopFailure(monitoring, old(producer).Keys).None? ==> r == Ok(Unit) && producer == map[]
      ensures queue == old(queue) && processor == old(processor) && nextTask == old(nextTask)
      ensures isRunning == old(isRunning) && exit == old(exit)
      ensures Valid()
    {
      var missing := false;
      var repeated := false;
      var i := 0;
      while i < |monitoring|
        invariant 0 <= i <= |monitoring|
        invariant (producer, cancelled) == StopAll(monitoring[..i], old(producer), old(cancelled))
        invariant missing <==> SomeMissing(monitoring[..i], old(producer).Keys)
        invariant repeated <==> Repeats(monitoring[..i])
        invariant queue == old(queue) && processor == old(processor) && nextTask == old(nextTask)
        invariant isRunning == old(isRunning) && exit == old(exit)
      {
        var m := monitoring[i];
        var done := monitoring[..i];
        assert monitoring[..i + 1] == done + [m];
        assert (done + [m])[..|done|] == done;
        SomeMissingSnoc(done, m, old(producer).Keys);
        RepeatsSnoc(done, m);
        StopAllClosedForm(done, old(producer), old(cancelled));
        if m in producer {
          var s := StopKindMonitoring(m);
        } else if m in done {
          repeated := true;
        } else {
          missing := true;
        }
        i := i + 1;
      }
      assert monitoring[..i] == monitoring;
      StopAllClosedForm(monitoring, old(producer), old(cancelled));
      if missing {
        r := Err(AttributeError);
      } else if repeated {
        r := Err(KeyError);
      } else {
        r := Ok(Unit);
      }
    }

    /**
     * `stop`: clears the flags, stops the processors, then the producers of every
     * monitored kind concurrently, then the pool, and finally replaces the queues.
     * A processor timeout ends the call before any producer is touched. A failing
     * per-kind stop ends it before the pool and the queues are touched; the state stated
     * is the one after every sibling stop has run.
     */
    method Stop(processorsTimedOut: bool) returns (r: Result<Unit>)
      requires Valid()
      modifies this, pool
      ensures !isRunning && exit && processor == map[]
      ensures processorsTimedOut ==>
        r == Err(Timeout) && producer == old(producer) && queue == old(queue)
        && cancelled == old(cancelled) + old(processor).Values
      ensures !processorsTimedOut ==> producer == old(producer) - Elements(monitoring)
      ensures !processorsTimedOut ==>
        cancelled == old(cancelled) + CancelledBy(monitoring, old(producer))
      ensures !processorsTimedOut && StopFailure(monitoring, old(producer).Keys).Some? ==>
        r == Err(StopFailure(monitoring, old(producer).Keys).value) && queue == old(queue)
      ensures !processorsTimedOut && StopFailure(monitoring, old(producer).Keys).None? ==>
        r == Ok(Unit) && producer == map[] && queue == FreshQueues(monitoring, capacity)
      ensures r.Ok? ==> pool.executor.None?
      ensures r.Ok? ==>
        pool.shutDown == old(pool.shutDown) + (if old(pool.executor).Some? then [old(pool.executor).value] else [])
      ensures r.Err? ==> pool.executor == old(pool.executor) && pool.shutDown == old(pool.shutDown)
      ensures pool.created == old(pool.created) && pool.submitted == old(pool.submitted)
      ensures nextTask == old(nextTask)
      ensures Valid()
    {
      isRunning, exit := false, true;
      r := DelProcessor(processorsTimedOut);
      if r.Err? {
        return;
      }
      r := StopProducers();
      if r.Err? {
        return;
      }
      pool.Stop();
      queue := FreshQueues(monitoring, capacity);
    }
  }

  /**
   * A start from the idle state followed by a stop whose processors return in time
   * succeeds exactly when no kind is listed twice, and then leaves no task registered,
   * the pool shut down and the queues fresh.
   */
  method StartThenStop(sm: SystemMonitor) returns (r: Result<Unit>)
    requires sm.Valid() && sm.producer == map[] && sm.processor == map[]
    modifies sm, sm.pool
    ensures r.Ok? <==> NoDuplicates(sm.monitoring)
    ensures r.Err? ==> r.error == KeyError
    ensures r.Ok? ==> sm.producer == map[] && sm.processor == map[] && sm.pool.executor.None?
    ensures r.Ok? ==> sm.queue == FreshQueues(sm.monitoring, sm.capacity)
  {
    sm.Start();
    assert sm.producer.Keys == Elements(sm.monitoring);
    r := sm.Stop(false);
    StopFailureCases(sm.monitoring);
  }
}
