/**
 * `ResourceChangesMonitor`: a second variant of the pipeline, with one bounded queue
 * per aspect, two exit flags guarding `start` and `stop`, a set of producer tasks and
 * one consumer task that is handed the `get_data` record stream.
 *
 * The collectors and the consumer callable are opaque; a producer round and a
 * consumer round are single steps whose effect on the queues is modelled.
 */
module ResMon {
  import opened Wrappers
  import opened PyValues
  import opened Channels

  /** Every queue of this monitor holds at most 128 snapshots. */
  const QueueCapacity: int := 128

  /** The aspects with a `put_<aspect>` producer method. */
  const Producible: set<string> := {"memory", "swap", "disk", "network", "cpu"}

  /** The `interval` field: the sleep between rounds and the CPU sampling interval. */
  datatype Interval = Interval(sleep: real, cpu: Option<real>)

  /** `(interval, interval) if interval else (0, None)`: `None` and zero are falsy. */
  function IntervalPair(interval: Option<real>): (r: Interval)
    ensures r.cpu.Some? <==> interval.Some? && interval.value != 0.0
    ensures r.cpu.Some? ==> r.cpu.value == r.sleep && r.sleep == interval.value
    ensures r.cpu.None? ==> r.sleep == 0.0
  {
    if interval.Some? && interval.value != 0.0 then Interval(interval.value, interval) else Interval(0.0, None)
  }

  /** The index of the first occurrence of `x` in `s`. */
  function FirstIndex(s: seq<string>, x: string): (r: nat)
    requires x in s
    ensures r < |s| && s[r] == x
    ensures forall k :: 0 <= k < r ==> s[k] != x
  {
    if s[0] == x then 0 else 1 + FirstIndex(s[1..], x)
  }

  /** Appending to a sequence does not move the first occurrence of an element already in it. */
  lemma FirstIndexOfPrefix(init: seq<string>, last: string, x: string)
    requires x in init
    ensures FirstIndex(init + [last], x) == FirstIndex(init, x)
  {
    var s := init + [last];
    var r0 := FirstIndex(init, x);
    assert s[r0] == x;
  }

  /** The aspect list in first-occurrence order: the key order of `{k: ... for k in aspect}`. */
  function Dedup(s: seq<string>): (d: seq<string>)
    ensures Elements(d) == Elements(s)
    ensures NoDuplicates(d)
    ensures NoDuplicates(s) ==> d == s
    ensures forall i :: 0 <= i < |d| ==> d[i] in s
    decreases |s|
  {
    if s == [] then []
    else
      var init := s[..|s| - 1];
      var last := s[|s| - 1];
      assert s == init + [last];
      var d := Dedup(init);
      assert Elements(s) == Elements(init) + {last};
      if last in d then d
      else
        assert Elements(d + [last]) == Elements(d) + {last};
        d + [last]
  }

  /** `Dedup` lists the aspects in the order of their first occurrences. */
  lemma {:induction false} DedupKeepsFirstOccurrenceOrder(s: seq<string>)
    ensures forall i, j :: 0 <= i < j < |Dedup(s)| ==> FirstIndex(s, Dedup(s)[i]) < FirstIndex(s, Dedup(s)[j])
    decreases |s|
  {
    if s != [] {
      var init := s[..|s| - 1];
      var last := s[|s| - 1];
      assert s == init + [last];
      var d := Dedup(init);
      DedupKeepsFirstOccurrenceOrder(init);
      forall i | 0 <= i < |d| ensures FirstIndex(s, d[i]) == FirstIndex(init, d[i]) {
        FirstIndexOfPrefix(init, last, d[i]);
      }
      if last !in d {
        assert last !in Elements(init);
        assert last in init ==> last in Elements(init);
        assert FirstIndex(s, last) == |init|;
      }
    }
  }

  /** The queues `__init__` builds: one empty queue of capacity 128 per aspect. */
  function InitialQueues(aspect: seq<string>): (q: map<string, Channel<Snapshot>>)
    ensures q.Keys == Elements(aspect)
    ensures forall k :: k in q ==> q[k] == Empty(QueueCapacity)
  {
    map k | k in aspect :: Empty(QueueCapacity)
  }

  /** `{k: v for k, v in zip(keys, vals)}`: pairs up to the shorter length, a later pair overwriting an earlier one. */
  function ZipRecord(keys: seq<string>, vals: seq<Snapshot>): map<string, Snapshot>
    decreases |keys|
  {
    if keys == [] || vals == [] then map[]
    else
      var rest := ZipRecord(keys[1..], vals[1..]);
      if keys[0] in rest then rest else rest[keys[0] := vals[0]]
  }

  /** With distinct keys and one value per key, the record pairs each key with its own value. */
  lemma {:induction false} ZipRecordDistinct(keys: seq<string>, vals: seq<Snapshot>)
    requires NoDuplicates(keys) && |keys| == |vals|
    ensures ZipRecord(keys, vals).Keys == Elements(keys)
    ensures forall i :: 0 <= i < |keys| ==> ZipRecord(keys, vals)[keys[i]] == vals[i]
    decreases |keys|
  {
    if keys != [] {
      ZipRecordDistinct(keys[1..], vals[1..]);
      assert keys == [keys[0]] + keys[1..];
      assert keys[0] !in keys[1..];
      forall i | 0 <= i < |keys| ensures ZipRecord(keys, vals)[keys[i]] == vals[i] {
        if i > 0 {
          assert keys[i] == keys[1..][i - 1];
          assert keys[i] != keys[0];
        }
      }
    }
  }

  /** `q.get()` on every queue, in key order: the head of each queue. */
  function Heads(queues: map<string, Channel<Snapshot>>, order: seq<string>): (hs: seq<Snapshot>)
    requires forall i :: 0 <= i < |order| ==> order[i] in queues && queues[order[i]].items != []
    ensures |hs| == |order|
    ensures forall i :: 0 <= i < |order| ==> hs[i] == queues[order[i]].items[0]
  {
    seq(|order|, i requires 0 <= i < |order| => queues[order[i]].items[0])
  }

  /** Every non-empty queue loses its head; empty queues stay as they are. */
  function PopHeads(queues: map<string, Channel<Snapshot>>): (r: map<string, Channel<Snapshot>>)
    ensures r.Keys == queues.Keys
    ensures forall k :: k in queues && queues[k].items != [] ==>
      r[k] == Channel(queues[k].maxsize, queues[k].items[1..])
    ensures forall k :: k in queues && queues[k].items == [] ==> r[k] == queues[k]
  {
    map k | k in queues :: if queues[k].items == [] then queues[k] else Channel(queues[k].maxsize, queues[k].items[1..])
  }

  /** The index of the first aspect without a producer method, or `|aspect|`. */
  function FirstUnproducible(aspect: seq<string>): (k: nat)
    ensures k <= |aspect|
    ensures forall i :: 0 <= i < k ==> aspect[i] in Producible
    ensures k < |aspect| ==> aspect[k] !in Producible
  {
    if aspect == [] then 0
    else if aspect[0] !in Producible then 0
    else 1 + FirstUnproducible(aspect[1..])
  }

  /** The tasks with serials `from .. from + count - 1`. */
  function TaskRange(from: nat, count: nat): set<Task> {
    set j | from <= j < from + count :: Task(j)
  }

  /** One `get_data` round: the stream ended, the round timed out, or a record. */
  datatype Pull = Done | TimedOut | Record(data: map<string, Snapshot>)

  /** One producer round: the loop saw the exit flag, put a snapshot, or is blocked on a full queue. */
  datatype ProducerOutcome = Exited | Put | Blocked

  /** The flag writes and awaits of `stop`, in order. */
  datatype Signal = ProducersExitSet | ProducersAwaited(tasks: set<Task>) | ConsumerExitSet | ConsumerAwaited(task: Task)

  class ResourceChangesMonitor {
    const call: Value
    const aspect: seq<string>
    const interval: Interval
    /** The `max_workers` of the monitor's own executor. */
    const executorWorkers: int

    var queues: map<string, Channel<Snapshot>>
    var producers: set<Task>
    var consumer: Option<Task>
    var producersExit: bool
    var consumerExit: bool
    /** The serial the next created task gets. */
    var nextTask: nat
    /** What `stop` did, in order. */
    var signals: seq<Signal>
    /** The current `get_data` generator has left its loop and yields nothing more. */
    var streamEnded: bool

    /** The queues are keyed by the aspects, and a running monitor has its consumer. */
    predicate Valid()
      reads this
    {
      && queues.Keys == Elements(aspect)
      && (!producersExit && !consumerExit ==> consumer.Some?)
    }

    /**
     * `__init__`: a falsy `aspect` (`None` or empty) falls back to `resourceTypes`,
     * the `ResourceTypes` list of the type module.
     */
    constructor (call: Value, aspect: Option<seq<string>>, interval: Option<real>, resourceTypes: seq<string>)
      ensures this.aspect == (if aspect.Some? && aspect.value != [] then aspect.value else resourceTypes)
      ensures queues == InitialQueues(this.aspect)
      ensures this.interval == IntervalPair(interval)
      ensures executorWorkers == |this.aspect| + 2
      ensures this.call == call
      ensures producers == {} && consumer == None && producersExit && consumerExit
      ensures nextTask == 0 && signals == [] && !streamEnded
      ensures Valid()
    {
      this.call := call;
      this.aspect := if aspect.Some? && aspect.value != [] then aspect.value else resourceTypes;
      queues := InitialQueues(if aspect.Some? && aspect.value != [] then aspect.value else resourceTypes);
      this.interval := IntervalPair(interval);
      executorWorkers := |if aspect.Some? && aspect.value != [] then aspect.value else resourceTypes| + 2;
      producers := {};
      consumer := None;
      producersExit := true;
      consumerExit := true;
      nextTask := 0;
      signals := [];
      streamEnded := false;
    }

    /**
     * `start`: acts only when both flags are set. It clears `consumer_exit`, creates the
     * consumer task (which needs a coroutine function), clears `producers_exit` and adds
     * one producer per aspect, until an aspect without a producer method raises
     * `AttributeError`. The consumer is handed a new `get_data` generator.
     */
    method Start() returns (r: Result<Unit>)
      requires Valid()
      modifies this
      ensures !(old(consumerExit) && old(producersExit)) ==>
        r == Ok(Unit) && consumerExit == old(consumerExit) && producersExit == old(producersExit)
        && producers == old(producers) && consumer == old(consumer) && nextTask == old(nextTask)
      ensures old(consumerExit) && old(producersExit) && !IsCoroutineFn(call) ==>
        r == Err(TypeError) && !consumerExit && producersExit
        && producers == old(producers) && consumer == old(consumer) && nextTask == old(nextTask)
      ensures old(consumerExit) && old(producersExit) && IsCoroutineFn(call) ==>
        && !consumerExit && !producersExit
        && consumer == Some(Task(old(nextTask)))
        && producers == old(producers) + TaskRange(old(nextTask) + 1, FirstUnproducible(aspect))
        && nextTask == old(nextTask) + 1 + FirstUnproducible(aspect)
        && r == (if FirstUnproducible(aspect) < |aspect| then Err(AttributeError) else Ok(Unit))
        && !streamEnded
      ensures !(old(consumerExit) && old(producersExit) && IsCoroutineFn(call)) ==> streamEnded == old(streamEnded)
      ensures queues == old(queues) && signals == old(signals)
      ensures Valid()
    {
      if !(consumerExit && producersExit) {
        return Ok(Unit);
      }
      consumerExit := false;
      if !IsCoroutineFn(call) {
        return Err(TypeError);
      }
      consumer := Some(Task(nextTask));
      streamEnded := false;
      nextTask := nextTask + 1;
      producersExit := false;
      ghost var first := nextTask;
      var i := 0;
      while i < |aspect|
        invariant 0 <= i <= |aspect|
        invariant forall j :: 0 <= j < i ==> aspect[j] in Producible
        invariant producers == old(producers) + TaskRange(first, i)
        invariant nextTask == first + i
        invariant first == old(nextTask) + 1
        invariant consumer == Some(Task(old(nextTask))) && !consumerExit && !producersExit
        invariant queues == old(queues) && signals == old(signals) && !streamEnded
      {
        if aspect[i] !in Producible {
          FirstUnproducibleAt(aspect, i);
          return Err(AttributeError);
        }
        assert TaskRange(first, i + 1) == TaskRange(first, i) + {Task(nextTask)};
        producers := producers + {Task(nextTask)};
        nextTask := nextTask + 1;
        i := i + 1;
      }
      FirstUnproducibleAt(aspect, i);
      r := Ok(Unit);
    }

    /**
     * `stop`: acts only when both flags are clear. It sets `producers_exit`, awaits every
     * producer, then sets `consumer_exit` and awaits the consumer. The producer set is
     * never cleared.
     */
    method Stop()
      requires Valid()
      modifies this
      ensures old(producersExit) || old(consumerExit) ==>
        producersExit == old(producersExit) && consumerExit == old(consumerExit) && signals == old(signals)
      ensures !old(producersExit) && !old(consumerExit) ==>
        producersExit && consumerExit
        && signals == old(signals) + [ProducersExitSet, ProducersAwaited(old(producers)),
                                      ConsumerExitSet, ConsumerAwaited(old(consumer).value)]
      ensures producers == old(producers) && consumer == old(consumer) && nextTask == old(nextTask)
      ensures queues == old(queues) && streamEnded == old(streamEnded)
      ensures Valid()
    {
      if !producersExit && !consumerExit {
        producersExit := true;
        signals := signals + [ProducersExitSet, ProducersAwaited(producers)];
        consumerExit := true;
        signals := signals + [ConsumerExitSet, ConsumerAwaited(consumer.value)];
      }
    }

    /**
     * One round of a `put_<a>` producer: nothing once `producers_exit` is set; otherwise
     * the snapshot joins the back of the aspect's queue, or the put waits while it is full.
     */
    method ProducerStep(a: string, snapshot: Snapshot) returns (o: ProducerOutcome)
      requires Valid() && a in aspect && a in Producible
      modifies this
      ensures producersExit ==> o == Exited && queues == old(queues)
      ensures !producersExit && Full(old(queues)[a]) ==> o == Blocked && queues == old(queues)
      ensures !producersExit && !Full(old(queues)[a]) ==>
        o == Put && queues == old(queues)[a := Channel(old(queues)[a].maxsize, old(queues)[a].items + [snapshot])]
      ensures producers == old(producers) && consumer == old(consumer) && nextTask == old(nextTask)
      ensures producersExit == old(producersExit) && consumerExit == old(consumerExit) && signals == old(signals)
      ensures streamEnded == old(streamEnded)
      ensures Valid()
    {
      if producersExit {
        return Exited;
      }
      match PutNowait(queues[a], snapshot)
      case None =>
        o := Blocked;
      case Some(q) =>
        queues := queues[a := q];
        o := Put;
    }

    /**
     * One round of `get_data`: a generator that has left its loop yields nothing more,
     * and the loop is left once `consumer_exit` is set. Otherwise one `get` per queue
     * runs; every non-empty queue gives up its head. If some queue is empty the round
     * times out and the generator leaves its loop; otherwise the heads, in queue order,
     * are zipped with the aspect list into the record.
     */
    method NextRecord() returns (p: Pull)
      requires Valid()
      modifies this
      ensures old(streamEnded) || old(consumerExit) ==> p == Done && queues == old(queues)
      ensures !old(streamEnded) && !old(consumerExit) ==> queues == PopHeads(old(queues))
      ensures !old(streamEnded) && !old(consumerExit) && (exists k :: k in old(queues) && old(queues)[k].items == []) ==>
        p == TimedOut
      ensures !old(streamEnded) && !old(consumerExit) && (forall k :: k in old(queues) ==> old(queues)[k].items != []) ==>
        p == Record(ZipRecord(aspect, Heads(old(queues), Dedup(aspect))))
      ensures streamEnded <==> !p.Record?
      ensures producers == old(producers) && consumer == old(consumer) && nextTask == old(nextTask)
      ensures producersExit == old(producersExit) && consumerExit == old(consumerExit) && signals == old(signals)
      ensures Valid()
    {
      if streamEnded || consumerExit {
        streamEnded := true;
        return Done;
      }
      var order := Dedup(aspect);
      if exists k :: k in queues && queues[k].items == [] {
        p := TimedOut;
        streamEnded := true;
      } else {
        p := Record(ZipRecord(aspect, Heads(queues, order)));
      }
      queues := PopHeads(queues);
    }
  }

  /** A callable `create_task` accepts the call of: a coroutine function. */
  predicate IsCoroutineFn(v: Value) {
    v.Fn? && v.info.isCoroutine
  }

  /** `FirstUnproducible` is the first index whose aspect has no producer method. */
  lemma {:induction false} FirstUnproducibleAt(aspect: seq<string>, k: nat)
    requires k <= |aspect|
    requires forall i :: 0 <= i < k ==> aspect[i] in Producible
    requires k < |aspect| ==> aspect[k] !in Producible
    ensures FirstUnproducible(aspect) == k
  {
    if k > 0 {
      FirstUnproducibleAt(aspect[1..], k - 1);
    }
  }

  /**
   * With distinct aspects and every queue non-empty, a record has exactly the aspects
   * as keys, each paired with the head of its own queue.
   */
  lemma RecordPairsEachAspectWithItsHead(aspect: seq<string>, queues: map<string, Channel<Snapshot>>)
    requires NoDuplicates(aspect)
    requires queues.Keys == Elements(aspect)
    requires forall k :: k in queues ==> queues[k].items != []
    ensures var record := ZipRecord(aspect, Heads(queues, Dedup(aspect)));
      && record.Keys == Elements(aspect)
      && forall k :: k in record ==> record[k] == queues[k].items[0]
  {
    var hs := Heads(queues, aspect);
    ZipRecordDistinct(aspect, hs);
    forall k | k in ZipRecord(aspect, hs) ensures ZipRecord(aspect, hs)[k] == queues[k].items[0] {
      var i :| 0 <= i < |aspect| && aspect[i] == k;
    }
  }

  /**
   * With a repeated aspect the record loses an aspect: for `["cpu", "cpu", "memory"]` the
   * two queue heads are paired with the first two names, so "cpu" gets the memory
   * snapshot and "memory" is missing.
   */
  lemma RepeatedAspectLosesAKind(cpuHead: Snapshot, memoryHead: Snapshot)
    ensures var aspect := ["cpu", "cpu", "memory"];
      var queues := map["cpu" := Channel(QueueCapacity, [cpuHead]), "memory" := Channel(QueueCapacity, [memoryHead])];
      ZipRecord(aspect, Heads(queues, Dedup(aspect))) == map["cpu" := memoryHead]
  {
    var aspect := ["cpu", "cpu", "memory"];
    DedupExample();
    var queues := map["cpu" := Channel(QueueCapacity, [cpuHead]), "memory" := Channel(QueueCapacity, [memoryHead])];
    var hs := Heads(queues, ["cpu", "memory"]);
    assert hs == [cpuHead, memoryHead];
    ZipExample(cpuHead, memoryHead);
  }

  lemma DedupExample()
    ensures Dedup(["cpu", "cpu", "memory"]) == ["cpu", "memory"]
  {
    var s := ["cpu", "cpu", "memory"];
    assert s[..2] == ["cpu", "cpu"];
    assert s[..2][..1] == ["cpu"];
    assert Dedup(["cpu"]) == ["cpu"] by {
      assert ["cpu"][..0] == [];
    }
    assert Dedup(["cpu", "cpu"]) == ["cpu"];
  }

  lemma ZipExample(cpuHead: Snapshot, memoryHead: Snapshot)
    ensures ZipRecord(["cpu", "cpu", "memory"], [cpuHead, memoryHead]) == map["cpu" := memoryHead]
  {
    var keys := ["cpu", "cpu", "memory"];
    var vals := [cpuHead, memoryHead];
    assert keys[1..] == ["cpu", "memory"] && vals[1..] == [memoryHead];
    assert ["cpu", "memory"][1..] == ["memory"] && [memoryHead][1..] == [];
    assert ZipRecord(["memory"], []) == map[];
    assert ZipRecord(["cpu", "memory"], [memoryHead]) == map["cpu" := memoryHead];
  }

  /**
   * A second `start` is a no-op, a completed start/stop cycle leaves the stopped
   * tasks in `producers`, and a new start adds new ones beside them.
   */
  method RestartAccumulatesProducers(m: ResourceChangesMonitor) returns (r: Result<Unit>)
    requires m.Valid() && m.producersExit && m.consumerExit
    requires IsCoroutineFn(m.call) && forall i :: 0 <= i < |m.aspect| ==> m.aspect[i] in Producible
    modifies m
    ensures r == Ok(Unit)
    ensures m.producers == old(m.producers) + TaskRange(old(m.nextTask) + 1, |m.aspect|)
                                            + TaskRange(old(m.nextTask) + 2 + |m.aspect|, |m.aspect|)
    ensures !m.streamEnded
  {
    FirstUnproducibleAt(m.aspect, |m.aspect|);
    r := m.Start();
    var twice := m.Start();
    assert twice == Ok(Unit);
    m.Stop();
    assert m.producersExit && m.consumerExit;
    r := m.Start();
  }

  /**
   * A round that times out ends the stream for good: a snapshot that arrives later
   * is not yielded by that generator; the next round is the end of the stream.
   */
  method TimeoutEndsStream(m: ResourceChangesMonitor, a: string, snapshot: Snapshot)
      returns (first: Pull, put: ProducerOutcome, second: Pull)
    requires m.Valid() && !m.consumerExit && !m.producersExit && !m.streamEnded
    requires a in m.aspect && a in Producible && m.queues[a].items == []
    modifies m
    ensures first == TimedOut && put == Put && second == Done
    ensures m.streamEnded
  {
    first := m.NextRecord();
    put := m.ProducerStep(a, snapshot);
    second := m.NextRecord();
  }

  /** `stop` then `start` hands the new consumer a fresh generator after an ended stream. */
  method RestartRenewsStream(m: ResourceChangesMonitor) returns (r: Result<Unit>)
    requires m.Valid() && !m.producersExit && !m.consumerExit && m.streamEnded
    requires IsCoroutineFn(m.call)
    modifies m
    ensures !m.streamEnded && !m.consumerExit
  {
    m.Stop();
    r := m.Start();
  }
}
