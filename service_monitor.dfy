/**
 * The service monitor: a periodic health check over the service runtime
 * that reports state changes, detects crashes and schedules automatic
 * restarts with a pending set, a per-service restart limit and a delay.
 *
 * The per-service configuration is the function `configs`, because the
 * settings object it is read from is not part of this model. Emitted Qt
 * signals, and the restart timers armed with `QTimer.singleShot`, are
 * appended to `events`. A timer that fires calls `RestartService`.
 */
module Supervision {
  import opened Text
  import opened Services

  const DEFAULT_MAX_RESTARTS: int := 3
  const DEFAULT_RESTART_DELAY_SECONDS: int := 5

  /** A service's configuration; an absent key takes the default. */
  datatype ServiceConfig = ServiceConfig(
    autoRestart: Option<bool>,
    maxRestarts: Option<int>,
    restartDelaySeconds: Option<int>)

  function AutoRestart(c: ServiceConfig): bool
  {
    if c.autoRestart.Some? then c.autoRestart.value else true
  }

  function MaxRestarts(c: ServiceConfig): int
  {
    if c.maxRestarts.Some? then c.maxRestarts.value else DEFAULT_MAX_RESTARTS
  }

  function RestartDelayMs(c: ServiceConfig): int
  {
    (if c.restartDelaySeconds.Some? then c.restartDelaySeconds.value else DEFAULT_RESTART_DELAY_SECONDS) * 1000
  }

  datatype MonitorEvent =
    | StateChanged(name: string, state: string)
    | ServiceCrashed(name: string)
    | RestartScheduled(name: string, delayMs: int)
    | ServiceRestarted(name: string)
    | RestartFailed(name: string, error: string)
    | RestartLimitReached(name: string)

  /** `_handle_crashed_service` decides to schedule a restart. */
  predicate SchedulesRestart(name: string, pending: set<string>, restartCount: int, c: ServiceConfig)
  {
    name !in pending && AutoRestart(c) && restartCount < MaxRestarts(c)
  }

  /** The events of `_handle_crashed_service`. */
  function CrashEvents(name: string, pending: set<string>, restartCount: int, c: ServiceConfig): (r: seq<MonitorEvent>)
    ensures |r| >= 1 && r[0] == ServiceCrashed(name)
    ensures SchedulesRestart(name, pending, restartCount, c) <==> |r| == 2 && r[1].RestartScheduled?
    ensures RestartLimitReached(name) in r <==>
      name !in pending && AutoRestart(c) && restartCount >= MaxRestarts(c)
  {
    if name in pending || !AutoRestart(c) then [ServiceCrashed(name)]
    else if restartCount >= MaxRestarts(c) then [ServiceCrashed(name), RestartLimitReached(name)]
    else [ServiceCrashed(name), RestartScheduled(name, RestartDelayMs(c))]
  }

  /** The events of one service in `_check_services`: a state change when
      the state differs from the last one seen, then the crash handling. */
  function CheckEvents(name: string, last: map<string, ServiceState>, current: ServiceState,
                       pending: set<string>, restartCount: int, c: ServiceConfig): seq<MonitorEvent>
  {
    (if name !in last || last[name] != current then [StateChanged(name, ServiceStateValue(current))] else [])
    + (if current == Crashed then CrashEvents(name, pending, restartCount, c) else [])
  }

  /** A check reports a state change exactly when the state differs from the
      last one seen, and a crash exactly when the service crashed. */
  lemma CheckEventsSpec(name: string, last: map<string, ServiceState>, current: ServiceState,
                        pending: set<string>, restartCount: int, c: ServiceConfig)
    ensures var r := CheckEvents(name, last, current, pending, restartCount, c);
      && ((StateChanged(name, ServiceStateValue(current)) in r) <==> (name !in last || last[name] != current))
      && (current == Crashed <==> ServiceCrashed(name) in r)
  {
    var head := if name !in last || last[name] != current then [StateChanged(name, ServiceStateValue(current))] else [];
    var tail := if current == Crashed then CrashEvents(name, pending, restartCount, c) else [];
    assert CheckEvents(name, last, current, pending, restartCount, c) == head + tail;
    assert ServiceCrashed(name) !in head;
    if current == Crashed {
      assert tail[0] == ServiceCrashed(name);
    }
  }

  /** The events of a whole check, service by service in the given order. */
  function AllCheckEvents(order: seq<string>, active: map<string, ServiceHandle>, last: map<string, ServiceState>,
                          pending: set<string>, exited: set<string>, configs: string -> ServiceConfig): seq<MonitorEvent>
    requires forall n :: n in order ==> n in active
  {
    if order == [] then []
    else
      var init := order[..|order| - 1];
      var n := order[|order| - 1];
      AllCheckEvents(init, active, last, pending, exited, configs)
      + CheckEvents(n, last, DerivedStatus(active[n], n in exited), pending, active[n].restartCount, configs(n))
  }

  /** The last seen states after checking the services of `order`, one by one. */
  function CheckedStates(order: seq<string>, active: map<string, ServiceHandle>, exited: set<string>,
                         last: map<string, ServiceState>): map<string, ServiceState>
    requires forall m :: m in order ==> m in active
  {
    if order == [] then last
    else
      var n := order[|order| - 1];
      CheckedStates(order[..|order| - 1], active, exited, last)[n := DerivedStatus(active[n], n in exited)]
  }

  /** The services of `order` whose check schedules a restart. */
  function Scheduled(order: seq<string>, active: map<string, ServiceHandle>, exited: set<string>,
                     pending: set<string>, configs: string -> ServiceConfig): (r: set<string>)
    ensures forall m :: m in r ==> m in order
  {
    if order == [] then {}
    else
      var n := order[|order| - 1];
      Scheduled(order[..|order| - 1], active, exited, pending, configs)
      + (if WillRestart(n, active, exited, pending, configs) then {n} else {})
  }

  /** A checked service's last state is its current one; the others keep theirs. */
  lemma {:induction false} CheckedStatesSpec(order: seq<string>, active: map<string, ServiceHandle>, exited: set<string>,
                                             last: map<string, ServiceState>)
    requires forall m :: m in order ==> m in active
    ensures var r := CheckedStates(order, active, exited, last);
      && (forall n :: n in order ==> n in r && r[n] == DerivedStatus(active[n], n in exited))
      && (forall n :: n !in order ==> (n in r <==> n in last))
      && (forall n :: n !in order && n in last ==> r[n] == last[n])
  {
    if order != [] {
      var init := order[..|order| - 1];
      assert forall m :: m in init ==> m in order;
      CheckedStatesSpec(init, active, exited, last);
      assert forall m :: m in order ==> m in init || m == order[|order| - 1] by {
        forall m | m in order ensures m in init || m == order[|order| - 1] {
          var i :| 0 <= i < |order| && order[i] == m;
          if i < |order| - 1 { assert init[i] == m; }
        }
      }
    }
  }

  /** Exactly the checked services that `WillRestart` are scheduled. */
  lemma {:induction false} ScheduledSpec(order: seq<string>, active: map<string, ServiceHandle>, exited: set<string>,
                                         pending: set<string>, configs: string -> ServiceConfig)
    ensures forall n :: n in Scheduled(order, active, exited, pending, configs) <==>
      n in order && WillRestart(n, active, exited, pending, configs)
  {
    if order != [] {
      var init := order[..|order| - 1];
      ScheduledSpec(init, active, exited, pending, configs);
      assert forall m :: m in order ==> m in init || m == order[|order| - 1] by {
        forall m | m in order ensures m in init || m == order[|order| - 1] {
          var i :| 0 <= i < |order| && order[i] == m;
          if i < |order| - 1 { assert init[i] == m; }
        }
      }
    }
  }

  lemma ScheduledSnoc(order: seq<string>, n: string, active: map<string, ServiceHandle>, exited: set<string>,
                      pending: set<string>, configs: string -> ServiceConfig)
    ensures Scheduled(order + [n], active, exited, pending, configs)
      == Scheduled(order, active, exited, pending, configs) + (if WillRestart(n, active, exited, pending, configs) then {n} else {})
  {
    assert (order + [n])[..|order + [n]| - 1] == order;
  }

  lemma CheckedStatesSnoc(order: seq<string>, n: string, active: map<string, ServiceHandle>, exited: set<string>,
                          last: map<string, ServiceState>)
    requires forall m :: m in order ==> m in active
    requires n in active
    ensures CheckedStates(order + [n], active, exited, last)
      == CheckedStates(order, active, exited, last)[n := DerivedStatus(active[n], n in exited)]
  {
    assert (order + [n])[..|order + [n]| - 1] == order;
  }

  /** The state after checking `name` next, as `CheckService` leaves it,
      is the state the loop describes for `order + [name]`. */
  lemma CheckStep(order: seq<string>, name: string, act: map<string, ServiceHandle>, exited: set<string>,
                  configs: string -> ServiceConfig, l0: map<string, ServiceState>, p0: set<string>, e0: seq<MonitorEvent>,
                  l: map<string, ServiceState>, p: set<string>, e: seq<MonitorEvent>)
    requires name in act && name !in order && forall n :: n in order ==> n in act
    requires l == CheckedStates(order, act, exited, l0)
    requires p == p0 + Scheduled(order, act, exited, p0, configs)
    requires e == e0 + AllCheckEvents(order, act, l0, p0, exited, configs)
    ensures var current := DerivedStatus(act[name], name in exited);
      && l[name := current] == CheckedStates(order + [name], act, exited, l0)
      && e + CheckEvents(name, l, current, p, act[name].restartCount, configs(name))
         == e0 + AllCheckEvents(order + [name], act, l0, p0, exited, configs)
      && p + (if current == Crashed && SchedulesRestart(name, p, act[name].restartCount, configs(name)) then {name} else {})
         == p0 + Scheduled(order + [name], act, exited, p0, configs)
  {
    var current := DerivedStatus(act[name], name in exited);
    CheckedStatesSpec(order, act, exited, l0);
    CheckedStatesSnoc(order, name, act, exited, l0);
    ScheduledSnoc(order, name, act, exited, p0, configs);
    assert name !in Scheduled(order, act, exited, p0, configs);
    assert name in p <==> name in p0;
    CheckEventsLocal(name, l, l0, current, p, p0, act[name].restartCount, configs(name));
    AllCheckEventsSnoc(order, name, act, l0, p0, exited, configs);
  }

  /** Checking one more service appends its own events. */
  lemma AllCheckEventsSnoc(order: seq<string>, n: string, active: map<string, ServiceHandle>, last: map<string, ServiceState>,
                           pending: set<string>, exited: set<string>, configs: string -> ServiceConfig)
    requires forall m :: m in order ==> m in active
    requires n in active
    ensures AllCheckEvents(order + [n], active, last, pending, exited, configs)
      == AllCheckEvents(order, active, last, pending, exited, configs)
         + CheckEvents(n, last, DerivedStatus(active[n], n in exited), pending, active[n].restartCount, configs(n))
  {
    assert (order + [n])[..|order + [n]| - 1] == order;
  }

  /** A check finds the service crashed and schedules its restart. */
  predicate WillRestart(n: string, active: map<string, ServiceHandle>, exited: set<string>,
                        pending: set<string>, configs: string -> ServiceConfig)
  {
    n in active && DerivedStatus(active[n], n in exited) == Crashed
    && SchedulesRestart(n, pending, active[n].restartCount, configs(n))
  }

  /** The events of one service depend on the last state and the pending
      set only through that service's own entry. */
  lemma CheckEventsLocal(name: string, l1: map<string, ServiceState>, l2: map<string, ServiceState>, current: ServiceState,
                         p1: set<string>, p2: set<string>, restartCount: int, c: ServiceConfig)
    requires (name in l1 <==> name in l2) && (name in l1 ==> l1[name] == l2[name])
    requires name in p1 <==> name in p2
    ensures CheckEvents(name, l1, current, p1, restartCount, c) == CheckEvents(name, l2, current, p2, restartCount, c)
  {
  }

  /** Removing a member shrinks a set by exactly one. */
  lemma RemoveOneCard(s: set<string>, x: string)
    requires x in s
    ensures |s - {x}| == |s| - 1
  {
  }

  class ServiceMonitor {
    const runtime: ServiceRuntime
    var pending: set<string>
    var lastStates: map<string, ServiceState>
    var running: bool
    var events: seq<MonitorEvent>

    ghost predicate Valid()
      reads this, runtime
    {
      runtime.Valid()
    }

    constructor(runtime: ServiceRuntime)
      requires runtime.Valid()
      ensures Valid()
      ensures this.runtime == runtime && pending == {} && lastStates == map[] && !running && events == []
    {
      this.runtime := runtime;
      pending := {};
      lastStates := map[];
      running := false;
      events := [];
    }

    /** `start`: idempotent. */
    method Start()
      modifies this
      ensures running
      ensures pending == old(pending) && lastStates == old(lastStates) && events == old(events)
    {
      if !running {
        running := true;
      }
    }

    /** `stop`: idempotent. */
    method Stop()
      modifies this
      ensures !running
      ensures pending == old(pending) && lastStates == old(lastStates) && events == old(events)
    {
      if running {
        running := false;
      }
    }

    /** `_handle_crashed_service`. */
    method HandleCrashed(name: string, restartCount: int, c: ServiceConfig)
      modifies this
      ensures events == old(events) + CrashEvents(name, old(pending), restartCount, c)
      ensures pending == old(pending) + (if SchedulesRestart(name, old(pending), restartCount, c) then {name} else {})
      ensures lastStates == old(lastStates) && running == old(running)
    {
      events := events + [ServiceCrashed(name)];
      if name in pending {
        return;
      }
      if !AutoRestart(c) {
        return;
      }
      if restartCount >= MaxRestarts(c) {
        events := events + [RestartLimitReached(name)];
        return;
      }
      pending := pending + {name};
      events := events + [RestartScheduled(name, RestartDelayMs(c))];
    }

    /** The body of the loop of `_check_services` for one registered service. */
    method CheckService(name: string, exited: bool, c: ServiceConfig)
      requires Valid() && name in runtime.active
      modifies this
      ensures Valid()
      ensures var current := DerivedStatus(runtime.active[name], exited);
        && lastStates == old(lastStates)[name := current]
        && events == old(events) + CheckEvents(name, old(lastStates), current, old(pending), runtime.active[name].restartCount, c)
        && pending == old(pending)
             + (if current == Crashed && SchedulesRestart(name, old(pending), runtime.active[name].restartCount, c)
                then {name} else {})
      ensures running == old(running)
    {
      var current := runtime.Status(name, exited);
      if name !in lastStates || lastStates[name] != current {
        events := events + [StateChanged(name, ServiceStateValue(current))];
        lastStates := lastStates[name := current];
      }
      if current == Crashed {
        HandleCrashed(name, runtime.active[name].restartCount, c);
      }
    }

    /** `_check_services`: every registered service is checked once; the
        last seen state of each becomes its current state, and a restart is
        pending for each crashed service the configuration allows. */
    method CheckServices(exited: set<string>, configs: string -> ServiceConfig) returns (ghost order: seq<string>)
      requires Valid()
      modifies this
      ensures Valid()
      ensures forall n :: n in order <==> n in runtime.active
      ensures |order| == |runtime.active|
      ensures forall i, j :: 0 <= i < j < |order| ==> order[i] != order[j]
      ensures lastStates == CheckedStates(order, runtime.active, exited, old(lastStates))
      ensures pending == old(pending) + Scheduled(order, runtime.active, exited, old(pending), configs)
      ensures events == old(events) + AllCheckEvents(order, runtime.active, old(lastStates), old(pending), exited, configs)
      ensures running == old(running)
    {
      ghost var act, l0, p0, e0 := runtime.active, lastStates, pending, events;
      var remaining := runtime.active.Keys;
      order := [];
      while remaining != {}
        invariant Valid() && runtime.active == act
        invariant remaining <= act.Keys
        invariant forall n :: n in order <==> n in act && n !in remaining
        invariant |order| + |remaining| == |act|
        invariant forall i, j :: 0 <= i < j < |order| ==> order[i] != order[j]
        invariant lastStates == CheckedStates(order, act, exited, l0)
        invariant pending == p0 + Scheduled(order, act, exited, p0, configs)
        invariant events == e0 + AllCheckEvents(order, act, l0, p0, exited, configs)
        invariant running == old(running)
        decreases |remaining|
      {
        var name :| name in remaining;
        CheckNext(name, exited, configs, order, act, l0, p0, e0);
        RemoveOneCard(remaining, name);
        order := order + [name];
        remaining := remaining - {name};
      }
    }

    /** One round of the loop of `CheckServices`, with the loop's invariant
        stated over the services checked so far. */
    method CheckNext(name: string, exited: set<string>, configs: string -> ServiceConfig, ghost order: seq<string>,
                     ghost act: map<string, ServiceHandle>, ghost l0: map<string, ServiceState>,
                     ghost p0: set<string>, ghost e0: seq<MonitorEvent>)
      requires Valid() && runtime.active == act
      requires name in act && name !in order && forall n :: n in order ==> n in act
      requires lastStates == CheckedStates(order, act, exited, l0)
      requires pending == p0 + Scheduled(order, act, exited, p0, configs)
      requires events == e0 + AllCheckEvents(order, act, l0, p0, exited, configs)
      modifies this
      ensures Valid() && runtime.active == act && running == old(running)
      ensures lastStates == CheckedStates(order + [name], act, exited, l0)
      ensures pending == p0 + Scheduled(order + [name], act, exited, p0, configs)
      ensures events == e0 + AllCheckEvents(order + [name], act, l0, p0, exited, configs)
    {
      ghost var lBefore, pBefore, eBefore := lastStates, pending, events;
      CheckService(name, name in exited, configs(name));
      CheckStep(order, name, act, exited, configs, l0, p0, e0, lBefore, pBefore, eBefore);
    }

    /** `_restart_service` as written: the crashed handle is still
        registered when `start_service` is called, so the duplicate check
        refuses it and the restart always fails, after the restart count
        was incremented. */
    method RestartService(name: string, launch: seq<string> -> LaunchOutcome, now: real)
      requires Valid()
      modifies this, runtime
      ensures Valid()
      ensures pending == old(pending) - {name}
      ensures name !in old(runtime.active) ==> runtime.active == old(runtime.active) && events == old(events)
      ensures name in old(runtime.active) ==>
        && runtime.active == old(runtime.active)[name := old(runtime.active)[name].(restartCount := old(runtime.active)[name].restartCount + 1)]
        && events == old(events) + [RestartFailed(name, AlreadyRunningMessage(name))]
      ensures lastStates == old(lastStates) && running == old(running)
    {
      pending := pending - {name};
      var handle := runtime.Handle(name);
      if handle.None? {
        return;
      }
      var h := handle.value;
      var count := h.restartCount + 1;
      runtime.SetRestartCount(name, count);
      var r := runtime.StartService(name, h.scriptPath, Some(h.arguments), launch, now);
      match r
      case Ok(_) =>
        // start_service refuses the name, which is still registered
        assert false;
      case Err(e) =>
        events := events + [RestartFailed(name, e)];
    }

    /** `_restart_service` as evidently intended: the crashed handle is
        cleaned up first, so a successful launch registers a new RUNNING
        handle that carries the incremented restart count. */
    method RestartServiceCorrected(name: string, launch: seq<string> -> LaunchOutcome, now: real)
      requires Valid()
      modifies this, runtime
      ensures Valid()
      ensures pending == old(pending) - {name}
      ensures name !in old(runtime.active) ==> runtime.active == old(runtime.active) && events == old(events)
      ensures name in old(runtime.active) ==>
        var h := old(runtime.active)[name];
        var outcome := launch([runtime.interpreter, h.scriptPath] + ServiceFlags(h.arguments));
        && (outcome.Launched? ==>
              && name in runtime.active
              && runtime.active[name] == ServiceHandle(name, h.scriptPath, outcome.pid, now, h.restartCount + 1,
                                                       runtime.LogPath(name), h.arguments, Running)
              && runtime.active == old(runtime.active)[name := runtime.active[name]]
              && events == old(events) + [ServiceRestarted(name)])
        && (!outcome.Launched? ==>
              && runtime.active == old(runtime.active) - {name}
              && |events| == |old(events)| + 1 && events[|events| - 1].RestartFailed?)
      ensures lastStates == old(lastStates) && running == old(running)
    {
      pending := pending - {name};
      var handle := runtime.Handle(name);
      if handle.None? {
        return;
      }
      var h := handle.value;
      var count := h.restartCount + 1;
      runtime.CleanupService(name);
      var r := runtime.StartService(name, h.scriptPath, Some(h.arguments), launch, now);
      match r
      case Ok(newHandle) =>
        runtime.SetRestartCount(name, count);
        events := events + [ServiceRestarted(name)];
      case Err(e) =>
        events := events + [RestartFailed(name, e)];
    }

    /** `reset_restart_count`: zero for a registered service, otherwise nothing. */
    method ResetRestartCount(name: string)
      requires Valid()
      modifies runtime
      ensures Valid()
      ensures name in old(runtime.active) ==>
        runtime.active == old(runtime.active)[name := old(runtime.active)[name].(restartCount := 0)]
      ensures name !in old(runtime.active) ==> runtime.active == old(runtime.active)
    {
      runtime.SetRestartCount(name, 0);
    }
  }

  /** Crash handling never schedules a second restart for a pending service,
      nor one past the limit, and always reports the crash first. */
  lemma CrashHandlingBounded(name: string, pending: set<string>, restartCount: int, c: ServiceConfig)
    ensures var r := CrashEvents(name, pending, restartCount, c);
      && (name in pending ==> r == [ServiceCrashed(name)])
      && (restartCount >= MaxRestarts(c) ==> !SchedulesRestart(name, pending, restartCount, c))
      && (SchedulesRestart(name, pending, restartCount, c) ==> r[1] == RestartScheduled(name, RestartDelayMs(c)))
  {
  }
}
