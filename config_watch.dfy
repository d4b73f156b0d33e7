/**
 * The configuration-file monitor: a watchdog handler that turns modification events
 * of one file into a latest-value queue and an event stream, and the monitor that
 * arms it with a start/stop guard on the handler's `exit` flag.
 *
 * The observer thread is a three-state value; the thread handoff of events into the
 * event loop is a direct call; the reload task is a handle.
 */
module ConfigWatch {
  import opened Wrappers
  import opened PyValues
  import opened Channels

  /** A watchdog modification event. */
  datatype FsEvent = FsEvent(isDirectory: bool, srcPath: string)

  /** A watchdog `Observer` thread: a thread can be started only once. */
  datatype ObserverState = NotStarted | Alive | Joined

  /** One step of the handler's event stream. */
  datatype FlowStep = Done | Waiting | Yield(path: string)

  /** The file a monitor watches: `f"{path}/{name}"`. */
  function KeyPath(path: string, name: string): (k: string)
    ensures |k| == |path| + 1 + |name|
    ensures k[..|path|] == path && k[|path|] == '/' && k[|path| + 1..] == name
  {
    path + "/" + name
  }

  /** Whether `on_modified` forwards an event: a file event on exactly the key path. */
  predicate Relevant(e: FsEvent, keyPath: string) {
    !e.isDirectory && e.srcPath == keyPath
  }

  class ConfigFileEventHandler {
    const keyPath: string
    var queue: Channel<string>
    var exit: bool

    constructor (keyPath: string, queue: Channel<string>)
      ensures this.keyPath == keyPath && this.queue == queue && exit
    {
      this.keyPath := keyPath;
      this.queue := queue;
      exit := true;
    }

    /**
     * `put_new_item`: `put_nowait`; on `QueueFull`, `get_nowait` drops the oldest item
     * and the put is tried again. The item ends up last and a bounded queue stays
     * within its bound.
     */
    method PutNewItem(item: string)
      modifies this
      decreases |queue.items|
      ensures queue == PutLatest(old(queue), item)
      ensures |queue.items| > 0 && queue.items[|queue.items| - 1] == item
      ensures queue.maxsize > 0 && |old(queue.items)| <= queue.maxsize ==> |queue.items| <= queue.maxsize
      ensures queue.maxsize > 0 && |old(queue.items)| < queue.maxsize ==> queue.items == old(queue.items) + [item]
      ensures exit == old(exit)
    {
      PutLatestIsLast(queue, item);
      match PutNowait(queue, item)
      case Some(q) =>
        queue := q;
      case None =>
        var dropped := GetNowait(queue).value.1;
        queue := dropped;
        PutNewItem(item);
    }

    /** `on_modified`: only a non-directory event whose path is the key path is enqueued. */
    method OnModified(e: FsEvent)
      modifies this
      ensures Relevant(e, keyPath) ==> queue == PutLatest(old(queue), e.srcPath)
      ensures !Relevant(e, keyPath) ==> queue == old(queue)
      ensures exit == old(exit)
    {
      if !e.isDirectory {
        var filePath := e.srcPath;
        if filePath == keyPath {
          PutNewItem(filePath);
        }
      }
    }

    /** `get_new_item`: the head leaves the queue (FIFO); `None` when the `get` would wait. */
    method GetNewItem() returns (r: Option<string>)
      modifies this
      ensures old(queue.items) == [] ==> r == None && queue == old(queue)
      ensures old(queue.items) != [] ==>
        r == Some(old(queue.items)[0]) && queue == Channel(old(queue.maxsize), old(queue.items)[1..])
      ensures exit == old(exit)
    {
      match GetNowait(queue)
      case None =>
        r := None;
      case Some(pair) =>
        r := Some(pair.0);
        queue := pair.1;
    }

    /** Entering `event_flow` clears `exit`. */
    method BeginEventFlow()
      modifies this
      ensures !exit && queue == old(queue)
    {
      exit := false;
    }

    /** One turn of the `event_flow` loop: it ends once `exit` is set, otherwise yields the next item. */
    method EventFlowNext() returns (s: FlowStep)
      modifies this
      ensures old(exit) ==> s == Done && queue == old(queue)
      ensures !old(exit) && old(queue.items) == [] ==> s == Waiting && queue == old(queue)
      ensures !old(exit) && old(queue.items) != [] ==>
        s == Yield(old(queue.items)[0]) && queue.items == old(queue.items)[1..]
      ensures queue.maxsize == old(queue.maxsize) && exit == old(exit)
    {
      if exit {
        return Done;
      }
      var item := GetNewItem();
      if item.None? {
        s := Waiting;
      } else {
        s := Yield(item.value);
      }
    }
  }

  /** `ConfigFileEventMonitor` of the monitor package: `start` and `stop` are guarded by `handler.exit`. */
  class GuardedConfigMonitor {
    const path: string
    const handler: ConfigFileEventHandler
    var observer: ObserverState
    /** How many times the handler was scheduled on the observer. */
    var scheduled: nat
    var task: Option<Task>
    var nextTask: nat
    var cancelled: set<Task>

    /** The handler watches `path/name` through a queue of capacity one. */
    constructor (path: string, name: string)
      ensures this.path == path
      ensures fresh(handler) && handler.keyPath == KeyPath(path, name)
      ensures handler.queue == Empty(1) && handler.exit
      ensures observer == NotStarted && scheduled == 0 && task == None && cancelled == {}
    {
      this.path := path;
      handler := new ConfigFileEventHandler(KeyPath(path, name), Empty(1));
      observer := NotStarted;
      scheduled := 0;
      task := None;
      nextTask := 0;
      cancelled := {};
    }

    /**
     * `start`: acts only when `handler.exit` is set. It clears the flag, schedules the
     * handler, starts the observer (a second start of the same thread raises
     * `RuntimeError`) and creates the reload task.
     */
    method Start() returns (r: Result<Unit>)
      modifies this, handler
      ensures !old(handler.exit) ==>
        r == Ok(Unit) && handler.exit == old(handler.exit) && observer == old(observer)
        && scheduled == old(scheduled) && task == old(task) && nextTask == old(nextTask)
      ensures old(handler.exit) ==> !handler.exit && scheduled == old(scheduled) + 1
      ensures old(handler.exit) && old(observer) == NotStarted ==>
        r == Ok(Unit) && observer == Alive && task == Some(Task(old(nextTask))) && nextTask == old(nextTask) + 1
      ensures old(handler.exit) && old(observer) != NotStarted ==>
        r == Err(RuntimeError) && observer == old(observer) && task == old(task) && nextTask == old(nextTask)
      ensures handler.queue == old(handler.queue) && cancelled == old(cancelled)
    {
      if !handler.exit {
        return Ok(Unit);
      }
      handler.exit := false;
      scheduled := scheduled + 1;
      if observer != NotStarted {
        return Err(RuntimeError);
      }
      observer := Alive;
      task := Some(Task(nextTask));
      nextTask := nextTask + 1;
      r := Ok(Unit);
    }

    /**
     * `stop`: acts only when `handler.exit` is clear. It sets the flag and waits for the
     * reload task; a wait that times out cancels the task. A live observer is then
     * stopped and joined.
     */
    method Stop(taskTimedOut: bool) returns (r: Result<Unit>)
      modifies this, handler
      ensures old(handler.exit) ==>
        r == Ok(Unit) && handler.exit && observer == old(observer) && cancelled == old(cancelled)
      ensures !old(handler.exit) ==> handler.exit && observer == (if old(observer) == Alive then Joined else old(observer))
      ensures !old(handler.exit) && old(task).None? ==> r == Err(TypeError) && cancelled == old(cancelled)
      ensures !old(handler.exit) && old(task).Some? ==>
        r == Ok(Unit) && cancelled == old(cancelled) + (if taskTimedOut then {old(task).value} else {})
      ensures task == old(task) && scheduled == old(scheduled) && nextTask == old(nextTask)
      ensures handler.queue == old(handler.queue)
    {
      if handler.exit {
        return Ok(Unit);
      }
      handler.exit := true;
      if task.None? {
        r := Err(TypeError);
      } else {
        if taskTimedOut {
          cancelled := cancelled + {task.value};
        }
        r := Ok(Unit);
      }
      if observer == Alive {
        observer := Joined;
      }
    }
  }

  /**
   * With the monitor's queue of capacity one, after any sequence of relevant events
   * the queue holds exactly the latest path.
   */
  method LatestEventWins(m: GuardedConfigMonitor, events: seq<FsEvent>)
    requires m.handler.queue.maxsize == 1 && events != []
    requires forall i :: 0 <= i < |events| ==> Relevant(events[i], m.handler.keyPath)
    modifies m.handler
    ensures m.handler.queue.items == [events[|events| - 1].srcPath]
  {
    var i := 0;
    while i < |events|
      invariant 0 <= i <= |events|
      invariant m.handler.queue.maxsize == 1
      invariant i > 0 ==> m.handler.queue.items == [events[i - 1].srcPath]
      invariant i == 0 ==> m.handler.queue == old(m.handler.queue)
    {
      ghost var before := m.handler.queue;
      PutLatestIsLast(before, events[i].srcPath);
      m.handler.OnModified(events[i]);
      i := i + 1;
    }
  }

  /**
   * A guarded monitor starts and stops once: a second start or stop is a no-op, and a
   * restart after a stop fails because the observer thread cannot be started again.
   */
  method StartStopRestart(m: GuardedConfigMonitor) returns (r: Result<Unit>)
    requires m.handler.exit && m.observer == NotStarted
    modifies m, m.handler
    ensures r == Err(RuntimeError) && m.observer == Joined && m.scheduled == old(m.scheduled) + 2
  {
    var first := m.Start();
    assert first == Ok(Unit);
    var second := m.Start();
    assert m.scheduled == old(m.scheduled) + 1;
    var stopped := m.Stop(false);
    var again := m.Stop(false);
    assert m.observer == Joined;
    r := m.Start();
  }
}
