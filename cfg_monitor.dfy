/**
 * The application's copy of the configuration-file monitor. Its handler is the same
 * latest-value queue and event stream (`event_floe` there), but its `start` and `stop`
 * have no guard on the handler's `exit` flag.
 */
module CfgMonitor {
  import opened Wrappers
  import opened PyValues
  import opened Channels
  import opened ConfigWatch

  /** `ConfigFileEventMonitor` of the application package. */
  class UnguardedConfigMonitor {
    const path: string
    const handler: ConfigFileEventHandler
    var observer: ObserverState
    /** How many times the handler was scheduled on the observer. */
    var scheduled: nat
    var monitoringTask: Option<Task>
    var nextTask: nat
    var cancelled: set<Task>

    /** The handler watches `path/name` through a queue of capacity one. */
    constructor (path: string, name: string)
      ensures this.path == path
      ensures fresh(handler) && handler.keyPath == KeyPath(path, name)
      ensures handler.queue == Empty(1) && handler.exit
      ensures observer == NotStarted && scheduled == 0 && monitoringTask == None && cancelled == {}
    {
      this.path := path;
      handler := new ConfigFileEventHandler(KeyPath(path, name), Empty(1));
      observer := NotStarted;
      scheduled := 0;
      monitoringTask := None;
      nextTask := 0;
      cancelled := {};
    }

    /**
     * `start`: no guard. Every call schedules the handler again and starts the observer,
     * which raises `RuntimeError` on a thread already started, before a new reload task
     * is created.
     */
    method Start() returns (r: Result<Unit>)
      modifies this
      ensures scheduled == old(scheduled) + 1
      ensures old(observer) == NotStarted ==>
        r == Ok(Unit) && observer == Alive && monitoringTask == Some(Task(old(nextTask)))
        && nextTask == old(nextTask) + 1
      ensures old(observer) != NotStarted ==>
        r == Err(RuntimeError) && observer == old(observer) && monitoringTask == old(monitoringTask)
        && nextTask == old(nextTask)
      ensures cancelled == old(cancelled)
    {
      scheduled := scheduled + 1;
      if observer != NotStarted {
        return Err(RuntimeError);
      }
      observer := Alive;
      monitoringTask := Some(Task(nextTask));
      nextTask := nextTask + 1;
      r := Ok(Unit);
    }

    /**
     * `stop`: no guard. It always sets `handler.exit`, waits for the reload task (a
     * timeout cancels it; with no task the wait raises `TypeError`) and then stops and
     * joins a live observer.
     */
    method Stop(taskTimedOut: bool) returns (r: Result<Unit>)
      modifies this, handler
      ensures handler.exit
      ensures observer == (if old(observer) == Alive then Joined else old(observer))
      ensures old(monitoringTask).None? ==> r == Err(TypeError) && cancelled == old(cancelled)
      ensures old(monitoringTask).Some? ==>
        r == Ok(Unit) && cancelled == old(cancelled) + (if taskTimedOut then {old(monitoringTask).value} else {})
      ensures monitoringTask == old(monitoringTask) && scheduled == old(scheduled) && nextTask == old(nextTask)
      ensures handler.queue == old(handler.queue)
    {
      handler.exit := true;
      if monitoringTask.None? {
        r := Err(TypeError);
      } else {
        if taskTimedOut {
          cancelled := cancelled + {monitoringTask.value};
        }
        r := Ok(Unit);
      }
      if observer == Alive {
        observer := Joined;
      }
    }
  }

  /**
   * The handler's queue discipline as this monitor uses it: an irrelevant event leaves
   * the queue alone, a relevant one is enqueued last within the capacity of one, and the
   * next `get_new_item` returns it.
   */
  method ModifiedThenRead(m: UnguardedConfigMonitor, e: FsEvent) returns (item: Option<string>)
    requires m.handler.queue == Empty(1)
    modifies m.handler
    ensures Relevant(e, m.handler.keyPath) ==> item == Some(e.srcPath)
    ensures !Relevant(e, m.handler.keyPath) ==> item == None
    ensures m.handler.queue == Empty(1)
  {
    m.handler.OnModified(e);
    item := m.handler.GetNewItem();
  }

  /** `event_floe` clears `exit` on entry and ends at the first turn after `stop` sets it. */
  method EventFloeEndsAfterStop(m: UnguardedConfigMonitor, taskTimedOut: bool) returns (s: FlowStep)
    modifies m, m.handler
    ensures s == Done
  {
    m.handler.BeginEventFlow();
    assert !m.handler.exit;
    var r := m.Stop(taskTimedOut);
    s := m.handler.EventFlowNext();
  }

  /** Stopping before any start raises, and every start after the first fails while scheduling again. */
  method UnguardedCalls(m: UnguardedConfigMonitor) returns (stopped: Result<Unit>, restarted: Result<Unit>)
    requires m.observer == NotStarted && m.monitoringTask == None
    modifies m, m.handler
    ensures stopped == Err(TypeError) && m.handler.exit
    ensures restarted == Err(RuntimeError) && m.scheduled == old(m.scheduled) + 2
  {
    stopped := m.Stop(false);
    var first := m.Start();
    restarted := m.Start();
  }
}
