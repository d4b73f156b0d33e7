/**
 * `ReusableThreadPool`: a wrapper that owns at most one `ThreadPoolExecutor` at a time,
 * creating it on `start` and discarding it on `stop`.
 *
 * Running a task is a call of the given `run` function on the task's callable and
 * arguments; the worker threads themselves are not modelled.
 */
module ThreadPool {
  import opened Wrappers
  import opened PyValues

  /** An executor handle: the serial tells executors created at different times apart. */
  datatype Executor = Executor(serial: nat, maxWorkers: Option<int>)

  /** A task for `submits` is a tuple: the callable first, then its positional arguments. */
  type TaskTuple = seq<Value>

  /** How a submitted callable evaluates on its arguments. */
  type Runner = (CallableInfo, seq<Value>) -> Value

  /** A task tuple that `submits` accepts: non-empty, with a callable first. */
  predicate WellFormed(task: TaskTuple) {
    |task| > 0 && task[0].Fn?
  }

  /** The index of the first task `submits` refuses, or `|tasks|` when there is none. */
  function FirstBad(tasks: seq<TaskTuple>): (k: nat)
    ensures k <= |tasks|
    ensures forall i :: 0 <= i < k ==> WellFormed(tasks[i])
    ensures k < |tasks| ==> !WellFormed(tasks[k])
  {
    if tasks == [] then 0
    else if !WellFormed(tasks[0]) then 0
    else 1 + FirstBad(tasks[1..])
  }

  /** What `future.result()` gives for a well-formed task. */
  function Outcome(task: TaskTuple, run: Runner): Value
    requires WellFormed(task)
  {
    run(task[0].info, task[1..])
  }

  /** The results of the well-formed `tasks`, in task order. */
  function Results(tasks: seq<TaskTuple>, run: Runner): (rs: seq<Value>)
    requires forall i :: 0 <= i < |tasks| ==> WellFormed(tasks[i])
    ensures |rs| == |tasks|
    ensures forall i :: 0 <= i < |tasks| ==> rs[i] == Outcome(tasks[i], run)
  {
    if tasks == [] then []
    else [Outcome(tasks[0], run)] + Results(tasks[1..], run)
  }

  /** The error `submits` raises on the first refused task: `task[0]` of an empty tuple, or a non-callable. */
  function RefusalOf(task: TaskTuple): Error {
    if task == [] then IndexError else RuntimeError
  }

  class ReusableThreadPool {
    var executor: Option<Executor>
    /** How many executors have been created so far. */
    var created: nat
    /** The executors that were shut down, in order. */
    var shutDown: seq<Executor>
    /** Every task handed to an executor, in order. */
    var submitted: seq<TaskTuple>

    constructor ()
      ensures executor == None && created == 0 && shutDown == [] && submitted == []
    {
      executor := None;
      created := 0;
      shutDown := [];
      submitted := [];
    }

    /**
     * Creates an executor only when there is none, so a second `start` is a no-op.
     * `ThreadPoolExecutor` refuses a non-positive `max_workers` with `ValueError`.
     */
    method Start(maxWorkers: Option<int>) returns (r: Result<Unit>)
      modifies this
      ensures old(executor).Some? ==> r == Ok(Unit) && executor == old(executor) && created == old(created)
      ensures old(executor).None? && maxWorkers.Some? && maxWorkers.value <= 0 ==>
        r == Err(ValueError) && executor == None && created == old(created)
      ensures old(executor).None? && !(maxWorkers.Some? && maxWorkers.value <= 0) ==>
        r == Ok(Unit) && executor == Some(Executor(old(created), maxWorkers)) && created == old(created) + 1
      ensures shutDown == old(shutDown) && submitted == old(submitted)
    {
      r := Ok(Unit);
      if executor.None? {
        if maxWorkers.Some? && maxWorkers.value <= 0 {
          r := Err(ValueError);
        } else {
          executor := Some(Executor(created, maxWorkers));
          created := created + 1;
        }
      }
    }

    /** Shuts the executor down and forgets it only when one exists, so a second `stop` is a no-op. */
    method Stop()
      modifies this
      ensures executor == None
      ensures shutDown == old(shutDown) + (if old(executor).Some? then [old(executor).value] else [])
      ensures created == old(created) && submitted == old(submitted)
    {
      if executor.Some? {
        shutDown := shutDown + [executor.value];
        executor := None;
      }
    }

    /**
     * `map` without an executor is an empty generator. With one, the call passes the
     * keyword `chunk_size`, which `Executor.map` does not accept, so it raises `TypeError`.
     */
    method Map(args: seq<seq<Value>>) returns (r: Result<seq<Value>>)
      ensures executor.None? ==> r == Ok([])
      ensures executor.Some? ==> r == Err(TypeError)
    {
      if executor.None? {
        r := Ok([]);
      } else {
        r := Err(TypeError);
      }
    }

    /**
     * `submit(func, *args)`: `None` without an executor; otherwise the task runs and its
     * result is awaited. A non-callable is accepted by the executor and fails when run.
     */
    method Submit(fn: Value, args: seq<Value>, run: Runner) returns (r: Result<Option<Value>>)
      modifies this
      ensures old(executor).None? ==> r == Ok(None) && submitted == old(submitted)
      ensures old(executor).Some? ==> submitted == old(submitted) + [[fn] + args]
      ensures old(executor).Some? && fn.Fn? ==> r == Ok(Some(run(fn.info, args)))
      ensures old(executor).Some? && !fn.Fn? ==> r == Err(TypeError)
      ensures executor == old(executor) && created == old(created) && shutDown == old(shutDown)
    {
      if executor.None? {
        r := Ok(None);
      } else {
        submitted := submitted + [[fn] + args];
        if fn.Fn? {
          r := Ok(Some(run(fn.info, args)));
        } else {
          r := Err(TypeError);
        }
      }
    }

    /**
     * `submits(tasks, ordered)`: `[]` without an executor. Otherwise every task is
     * submitted in order until the first refused one, which raises after the tasks before
     * it were already submitted. With `ordered` the results come in task order; without
     * it they come in completion order, of which only "a permutation of the results"
     * is modelled.
     */
    method Submits(tasks: seq<TaskTuple>, ordered: bool, run: Runner) returns (r: Result<seq<Value>>)
      modifies this
      ensures old(executor).None? ==> r == Ok([]) && submitted == old(submitted)
      ensures old(executor).Some? ==> submitted == old(submitted) + tasks[..FirstBad(tasks)]
      ensures old(executor).Some? && FirstBad(tasks) < |tasks| ==> r == Err(RefusalOf(tasks[FirstBad(tasks)]))
      ensures old(executor).Some? && FirstBad(tasks) == |tasks| ==>
        r.Ok? && multiset(r.value) == multiset(Results(tasks, run)) && (ordered ==> r.value == Results(tasks, run))
      ensures executor == old(executor) && created == old(created) && shutDown == old(shutDown)
    {
      if executor.None? {
        return Ok([]);
      }
      var futures: seq<TaskTuple> := [];
      var i := 0;
      while i < |tasks|
        invariant 0 <= i <= |tasks|
        invariant futures == tasks[..i]
        invariant forall j :: 0 <= j < i ==> WellFormed(tasks[j])
        invariant submitted == old(submitted) + futures
        invariant executor == old(executor) && created == old(created) && shutDown == old(shutDown)
      {
        var task := tasks[i];
        if !WellFormed(task) {
          assert FirstBad(tasks) == i by { FirstBadAt(tasks, i); }
          return Err(RefusalOf(task));
        }
        submitted := submitted + [task];
        futures := futures + [task];
        i := i + 1;
      }
      assert futures == tasks;
      assert FirstBad(tasks) == |tasks| by { FirstBadAt(tasks, |tasks|); }
      var results: seq<Value> := [];
      var j := 0;
      while j < |futures|
        invariant 0 <= j <= |futures|
        invariant results == Results(futures[..j], run)
        invariant submitted == old(submitted) + tasks
        invariant executor == old(executor) && created == old(created) && shutDown == old(shutDown)
      {
        assert futures[..j + 1] == futures[..j] + [futures[j]];
        ResultsAppend(futures[..j], futures[j], run);
        results := results + [Outcome(futures[j], run)];
        j := j + 1;
      }
      assert futures[..j] == tasks;
      r := Ok(results);
    }
  }

  /** `FirstBad` is the first index whose task is refused. */
  lemma {:induction false} FirstBadAt(tasks: seq<TaskTuple>, k: nat)
    requires k <= |tasks|
    requires forall i :: 0 <= i < k ==> WellFormed(tasks[i])
    requires k < |tasks| ==> !WellFormed(tasks[k])
    ensures FirstBad(tasks) == k
  {
    if k > 0 {
      FirstBadAt(tasks[1..], k - 1);
    }
  }

  /** Results of a list of tasks extended by one task. */
  lemma {:induction false} ResultsAppend(tasks: seq<TaskTuple>, t: TaskTuple, run: Runner)
    requires forall i :: 0 <= i < |tasks| ==> WellFormed(tasks[i])
    requires WellFormed(t)
    ensures Results(tasks + [t], run) == Results(tasks, run) + [Outcome(t, run)]
  {
    var ext := tasks + [t];
    assert forall i :: 0 <= i < |ext| ==> WellFormed(ext[i]);
    var lhs := Results(ext, run);
    var rhs := Results(tasks, run) + [Outcome(t, run)];
    assert |lhs| == |rhs|;
    forall i | 0 <= i < |lhs| ensures lhs[i] == rhs[i] {
      if i < |tasks| {
        assert ext[i] == tasks[i];
      } else {
        assert ext[i] == t;
      }
    }
  }

  /** Calling `start` twice, then `stop` twice, creates one executor and shuts it down once. */
  method RepeatedStartStop(pool: ReusableThreadPool, maxWorkers: Option<int>)
    requires pool.executor.None?
    requires !(maxWorkers.Some? && maxWorkers.value <= 0)
    modifies pool
    ensures pool.executor == None && pool.created == old(pool.created) + 1
    ensures pool.shutDown == old(pool.shutDown) + [Executor(old(pool.created), maxWorkers)]
  {
    var first := pool.Start(maxWorkers);
    var e := pool.executor;
    var second := pool.Start(maxWorkers);
    assert pool.executor == e;
    pool.Stop();
    pool.Stop();
  }

  /** Without an executor every entry point is inert: `map` is empty, `submit` is `None`, `submits` is `[]`. */
  method IdlePoolReturnsNothing(pool: ReusableThreadPool, fn: Value, tasks: seq<TaskTuple>, run: Runner)
    requires pool.executor.None?
    modifies pool
    ensures pool.submitted == old(pool.submitted) && pool.executor == None
  {
    var m := pool.Map([]);
    assert m == Ok([]);
    var s := pool.Submit(fn, [], run);
    assert s == Ok(None);
    var ss := pool.Submits(tasks, true, run);
    assert ss == Ok([]);
  }
}
