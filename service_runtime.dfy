/**
 * The service runtime: a registry of long-running service processes keyed
 * by script name.
 *
 * The operating system is an input. Launching is the function `launch`,
 * which receives the command line and answers with a process id or the
 * error it raised. Whether a registered process has exited is a parameter
 * of the queries. How stopping a live process ends is a parameter of
 * `StopService`. Log files, Job Objects and signals have no other
 * observable effect on the registry.
 */
module Services {
  import opened Text
  import opened Values

  datatype ServiceState = Stopped | Starting | Running | Stopping | Error | Crashed

  /** `ServiceState.value`. */
  function ServiceStateValue(s: ServiceState): string
  {
    match s
    case Stopped => "stopped"
    case Starting => "starting"
    case Running => "running"
    case Stopping => "stopping"
    case Error => "error"
    case Crashed => "crashed"
  }

  /** The arguments of a service, in the order of the dictionary. */
  type Arguments = seq<(string, PyValue)>

  datatype ServiceHandle = ServiceHandle(
    scriptName: string,
    scriptPath: string,
    pid: int,
    startTime: real,
    restartCount: int,
    logFilePath: string,
    arguments: Arguments,
    state: ServiceState)

  /** What the operating system answers to a launch. */
  datatype LaunchOutcome =
    | Launched(pid: int)
    | LogOpenFailed(reason: string)
    | LaunchRaised(reason: string)

  /** The number of arguments whose value is not None or "". */
  function CountPresent(arguments: Arguments): nat
  {
    if arguments == [] then 0
    else (if Present(arguments[0].1) then 1 else 0) + CountPresent(arguments[1..])
  }

  /** `--name value` for each argument whose value is not None or "", in order. */
  function ServiceFlags(arguments: Arguments): (r: seq<string>)
    ensures |r| == 2 * CountPresent(arguments)
  {
    if arguments == [] then []
    else
      var (name, value) := arguments[0];
      (if Present(value) then ["--" + name, Str(value)] else []) + ServiceFlags(arguments[1..])
  }

  /** `--name` at position `j` of a flag list, `str(value)` right after it. */
  predicate PairAt(r: seq<string>, j: int, name: string, value: PyValue)
  {
    0 <= j && j + 1 < |r| && r[j] == "--" + name && r[j + 1] == Str(value)
  }

  /** An argument with a present value lands right after the pairs of the
      present arguments before it. */
  lemma {:induction false} ServiceFlagsAt(arguments: Arguments, k: nat)
    requires k < |arguments| && Present(arguments[k].1)
    ensures PairAt(ServiceFlags(arguments), 2 * CountPresent(arguments[..k]), arguments[k].0, arguments[k].1)
  {
    var (name, value) := arguments[0];
    var head := if Present(value) then ["--" + name, Str(value)] else [];
    var rest := ServiceFlags(arguments[1..]);
    assert ServiceFlags(arguments) == head + rest;
    if k > 0 {
      var j' := 2 * CountPresent(arguments[1..][..k - 1]);
      assert arguments[k] == arguments[1..][k - 1];
      ServiceFlagsAt(arguments[1..], k - 1);
      assert arguments[..k][1..] == arguments[1..][..k - 1];
      assert 2 * CountPresent(arguments[..k]) == |head| + j';
      assert ServiceFlags(arguments)[|head| + j'] == rest[j'];
      assert ServiceFlags(arguments)[|head| + j' + 1] == rest[j' + 1];
    }
  }

  /** The flag list holds one `--name`, `str(value)` pair per argument whose
      value is not None or "", in argument order and nothing else: the
      k-th such argument's pair sits at positions 2k and 2k + 1, and the
      list has exactly those pairs. */
  lemma ServiceFlagsSpec(arguments: Arguments)
    ensures |ServiceFlags(arguments)| == 2 * CountPresent(arguments)
    ensures forall k :: 0 <= k < |arguments| && Present(arguments[k].1) ==>
      PairAt(ServiceFlags(arguments), 2 * CountPresent(arguments[..k]), arguments[k].0, arguments[k].1)
  {
    forall k | 0 <= k < |arguments| && Present(arguments[k].1)
      ensures PairAt(ServiceFlags(arguments), 2 * CountPresent(arguments[..k]), arguments[k].0, arguments[k].1)
    {
      ServiceFlagsAt(arguments, k);
    }
  }

  /** The command-building loop of `start_service`. */
  method ServiceCommand(interpreter: string, path: string, arguments: Arguments) returns (cmd: seq<string>)
    ensures cmd == [interpreter, path] + ServiceFlags(arguments)
  {
    cmd := [interpreter, path];
    var i := 0;
    while i < |arguments|
      invariant 0 <= i <= |arguments|
      invariant cmd + ServiceFlags(arguments[i..]) == [interpreter, path] + ServiceFlags(arguments)
    {
      assert arguments[i..][1..] == arguments[i + 1..];
      var (name, value) := arguments[i];
      if Present(value) {
        cmd := cmd + ["--" + name, Str(value)];
      }
      i := i + 1;
    }
    assert arguments[i..] == [];
    assert cmd + [] == cmd;
  }

  /** `get_status` of one registered handle: an exited process is STOPPED
      when it was being stopped and CRASHED otherwise; a live one reports
      its recorded state. */
  function DerivedStatus(h: ServiceHandle, exited: bool): (s: ServiceState)
    ensures exited ==> (s == Stopped <==> h.state == Stopping) && (s == Crashed <==> h.state != Stopping)
    ensures !exited ==> s == h.state
  {
    if exited then (if h.state == Stopping then Stopped else Crashed) else h.state
  }

  function AlreadyRunningMessage(name: string): string
  {
    "Service '" + name + "' is already running"
  }

  class ServiceRuntime {
    var active: map<string, ServiceHandle>
    const logsDirectory: string
    const interpreter: string

    ghost predicate Valid()
      reads this
    {
      forall name :: name in active ==> active[name].scriptName == name && active[name].restartCount >= 0
    }

    constructor(logsDirectory: string, interpreter: string)
      ensures Valid() && active == map[]
      ensures this.logsDirectory == logsDirectory && this.interpreter == interpreter
    {
      active := map[];
      this.logsDirectory := logsDirectory;
      this.interpreter := interpreter;
    }

    function LogPath(name: string): string
      reads this
    {
      logsDirectory + "/" + name + ".log"
    }

    /** `start_service`: refuses a registered name; otherwise launches the
        command and registers a RUNNING handle with no restarts. A failed
        launch leaves the registry unchanged. */
    method StartService(name: string, path: string, arguments: Option<Arguments>,
                        launch: seq<string> -> LaunchOutcome, now: real)
      returns (r: Result<ServiceHandle, string>)
      requires Valid()
      modifies this
      ensures Valid()
      ensures name in old(active) ==> r == Err(AlreadyRunningMessage(name)) && active == old(active)
      ensures name !in old(active) ==>
        var outcome := launch([interpreter, path] + ServiceFlags(if arguments.Some? then arguments.value else []));
        && (outcome.LogOpenFailed? ==> r == Err(outcome.reason) && active == old(active))
        && (outcome.LaunchRaised? ==>
              r == Err("Failed to start service '" + name + "': " + outcome.reason) && active == old(active))
        && (outcome.Launched? ==>
              && r.Ok?
              && r.value == ServiceHandle(name, path, outcome.pid, now, 0, LogPath(name),
                                          if arguments.Some? then arguments.value else [], Running)
              && active == old(active)[name := r.value])
    {
      if name in active {
        return Err(AlreadyRunningMessage(name));
      }
      var args := if arguments.Some? then arguments.value else [];
      var cmd := ServiceCommand(interpreter, path, args);
      var outcome := launch(cmd);
      match outcome
      case LogOpenFailed(reason) =>
        r := Err(reason);
      case LaunchRaised(reason) =>
        r := Err("Failed to start service '" + name + "': " + reason);
      case Launched(pid) =>
        var handle := ServiceHandle(name, path, pid, now, 0, LogPath(name), args, Running);
        active := active[name := handle];
        r := Ok(handle);
    }

    /** `stop_service`: false for an unknown name; otherwise the entry is
        always removed, and the answer is true unless stopping the live
        process raised. */
    method StopService(name: string, exited: bool, stopRaises: bool) returns (stopped: bool)
      requires Valid()
      modifies this
      ensures Valid()
      ensures active == old(active) - {name}
      ensures stopped <==> name in old(active) && (exited || !stopRaises)
    {
      if name !in active {
        return false;
      }
      active := active[name := active[name].(state := Stopping)];
      if exited {
        CleanupService(name);
        return true;
      }
      CleanupService(name);
      stopped := !stopRaises;
    }

    /** `is_running`: a registered service whose process has not exited.
        A service that is not running has the status STOPPED or CRASHED. */
    predicate IsRunning(name: string, exited: bool)
      reads this
      ensures IsRunning(name, exited) ==> name in active && Status(name, exited) == active[name].state
      ensures !IsRunning(name, exited) ==> Status(name, exited) == Stopped || Status(name, exited) == Crashed
    {
      name in active && !exited
    }

    /** `get_status`: STOPPED for an unknown name, otherwise the state
        derived from the handle and whether its process exited. */
    function Status(name: string, exited: bool): (s: ServiceState)
      reads this
      ensures name !in active ==> s == Stopped
      ensures name in active ==> s == DerivedStatus(active[name], exited)
    {
      if name !in active then Stopped else DerivedStatus(active[name], exited)
    }

    /** `get_handle`. */
    function Handle(name: string): (h: Option<ServiceHandle>)
      reads this
      ensures h.Some? <==> name in active
      ensures h.Some? ==> h.value == active[name]
    {
      if name in active then Some(active[name]) else None
    }

    /** `_cleanup_service`: a no-op for an unknown name, otherwise the entry
        is removed. */
    method CleanupService(name: string)
      requires Valid()
      modifies this
      ensures Valid()
      ensures active == old(active) - {name}
    {
      if name !in active {
        return;
      }
      active := active - {name};
    }

    /** `stop_all_services`: tries every registered name, whatever each stop
        answers; the registry ends empty. */
    method StopAllServices(exited: set<string>, failing: set<string>)
      requires Valid()
      modifies this
      ensures Valid()
      ensures active == map[]
    {
      var remaining := active.Keys;
      while remaining != {}
        invariant Valid()
        invariant active.Keys == remaining
        decreases |remaining|
      {
        var name :| name in remaining;
        var _ := StopService(name, name in exited, name in failing);
        remaining := active.Keys;
      }
    }

    /** The assignment `handle.restart_count = n` on a registered handle. */
    method SetRestartCount(name: string, count: nat)
      requires Valid()
      modifies this
      ensures Valid()
      ensures name in old(active) ==> active == old(active)[name := old(active)[name].(restartCount := count)]
      ensures name !in old(active) ==> active == old(active)
    {
      if name in active {
        active := active[name := active[name].(restartCount := count)];
      }
    }
  }
}
