/**
 * The proxy process handle: `ProxyHandler` starts the proxy command once and stops it
 * by signalling its pid. The process table enters as parameters and traces: the pid
 * `Popen` returns is an argument of `Start`, and the spawned commands and signalled
 * pids are recorded in `spawned` and `signalled`.
 */
module ProxyProcess {
  import opened Wrappers

  class ProxyHandler {
    const args: seq<string>
    var pid: Option<int>
    var running: bool
    var spawned: nat
    var signalled: seq<int>

    /** `running` holds exactly when a pid is recorded. */
    predicate Valid()
      reads this
    {
      running <==> pid.Some?
    }

    /** Python truthiness of the recorded pid: `None` and `0` are false. */
    predicate PidTruthy()
      reads this
    {
      pid.Some? && pid.value != 0
    }

    constructor (args: seq<string>)
      ensures Valid() && this.args == args
      ensures pid.None? && !running && spawned == 0 && signalled == []
    {
      this.args := args;
      pid := None;
      running := false;
      spawned := 0;
      signalled := [];
    }

    /** `start`: spawns the command only when not running, then records its pid. */
    method Start(newPid: int)
      modifies this
      ensures old(running) ==> unchanged(this)
      ensures !old(running) ==> pid == Some(newPid) && running && spawned == old(spawned) + 1
      ensures signalled == old(signalled)
      ensures old(Valid()) ==> Valid()
    {
      if !running {
        spawned := spawned + 1;
        pid := Some(newPid);
        running := true;
      }
    }

    /** `stop`: only with a truthy pid, signals it with SIGTERM and forgets it. */
    method Stop()
      modifies this
      ensures !old(PidTruthy()) ==> unchanged(this)
      ensures old(PidTruthy()) ==>
        && signalled == old(signalled) + [old(pid).value]
        && pid.None? && !running
      ensures spawned == old(spawned)
      ensures old(Valid()) ==> Valid()
    {
      if pid.Some? && pid.value != 0 {
        signalled := signalled + [pid.value];
        pid := None;
        running := false;
      }
    }
  }

  /** Starting twice spawns once and keeps the first pid; a stop then signals that pid. */
  method StartTwiceThenStop(args: seq<string>, first: int, second: int)
    returns (spawned: nat, signalled: seq<int>, running: bool)
    requires first != 0
    ensures spawned == 1 && signalled == [first] && !running
  {
    var h := new ProxyHandler(args);
    h.Start(first);
    h.Start(second);
    h.Stop();
    spawned, signalled, running := h.spawned, h.signalled, h.running;
  }

  /** A process given pid 0 can never be stopped: the pid is falsy, so `stop` does nothing. */
  method ZeroPidNeverStops(args: seq<string>) returns (running: bool, signalled: seq<int>)
    ensures running && signalled == []
  {
    var h := new ProxyHandler(args);
    h.Start(0);
    h.Stop();
    running, signalled := h.running, h.signalled;
  }
}
