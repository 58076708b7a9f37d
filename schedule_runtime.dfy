/**
 * The interval scheduler: a table of schedule handles keyed by script name.
 *
 * The wall clock is the parameter `now` (seconds, as a real number). A timer
 * fire is split into `BeginFire`, which runs up to the call of the
 * execution callback, and `EndFire`, which records how the callback ended
 * and runs the `finally` block. A fire that arrives between the two (the
 * callback re-entering the event loop) takes the overlap-prevention path.
 * Emitted Qt signals are appended to `events`.
 */
module Scheduling {
  import opened Text

  /** QTimer takes milliseconds in a signed 32-bit integer. */
  const MAX_TIMER_INTERVAL_SECONDS: int := 2147483

  datatype ScheduleState = Stopped | Scheduled | Running | Error

  /** `ScheduleState.value`. */
  function StateValue(s: ScheduleState): string
  {
    match s
    case Stopped => "stopped"
    case Scheduled => "scheduled"
    case Running => "running"
    case Error => "error"
  }

  /** `ScheduleState.value.capitalize()`. */
  function StateLabel(s: ScheduleState): string
  {
    match s
    case Stopped => "Stopped"
    case Scheduled => "Scheduled"
    case Running => "Running"
    case Error => "Error"
  }

  lemma LabelCapitalizesValue(s: ScheduleState)
    ensures StateLabel(s) == Capitalize(StateValue(s))
  {
    var v := StateValue(s);
    var r := Capitalize(v);
    assert |r| == |StateLabel(s)|;
    forall i | 0 <= i < |r| ensures r[i] == StateLabel(s)[i] {
      if i > 0 {
        assert r[i] == r[1..][i - 1] == LowerChar(v[i]);
      }
    }
  }

  datatype Handle = Handle(
    scriptName: string,
    scriptPath: string,
    intervalSeconds: int,
    lastRun: Option<real>,
    nextRun: Option<real>,
    isExecuting: bool,
    state: ScheduleState,
    hasCallback: bool,
    id: nat)

  /** What `get_schedule_info` reports about a handle. */
  datatype ScheduleInfo = ScheduleInfo(
    scriptName: string,
    intervalSeconds: int,
    lastRun: Option<real>,
    nextRun: Option<real>,
    isExecuting: bool,
    state: string)

  datatype Event =
    | ScheduleStarted(name: string)
    | ScheduleStopped(name: string)
    | ScheduleExecuted(name: string)
    | ScheduleErrored(name: string, message: string)
    | ExecutionBlocked(name: string)

  /** The exceptions `start_schedule` and `update_interval` raise. */
  datatype ScheduleError = AlreadyActive | IntervalTooLarge

  /** How the execution callback ended. */
  datatype CallbackOutcome = Returned | Raised(message: string)

  /** One stopped event per name, in order. */
  function StopEvents(names: seq<string>): (r: seq<Event>)
    ensures |r| == |names|
    ensures forall i :: 0 <= i < |names| ==> r[i] == ScheduleStopped(names[i])
  {
    if names == [] then [] else StopEvents(names[..|names| - 1]) + [ScheduleStopped(names[|names| - 1])]
  }

  lemma StopEventsAppend(before: seq<Event>, names: seq<string>, name: string)
    ensures before + StopEvents(names + [name]) == (before + StopEvents(names)) + [ScheduleStopped(name)]
  {
    assert (names + [name])[..|names|] == names;
  }

  /** Removing a member shrinks a set by exactly one. */
  lemma RemoveOneCard(s: set<string>, x: string)
    requires x in s
    ensures |s - {x}| == |s| - 1
  {
  }

  /** A handle as stored in the table: keyed by its own name, never STOPPED,
      executing exactly while RUNNING, with a bounded interval and a next run. */
  predicate WellFormed(name: string, h: Handle)
  {
    && h.scriptName == name
    && h.intervalSeconds <= MAX_TIMER_INTERVAL_SECONDS
    && h.state != Stopped
    && (h.isExecuting <==> h.state == Running)
    && h.nextRun.Some?
  }

  /** A handle after the non-blocked part of a fire up to the callback. */
  function Begun(h: Handle, now: real): (r: Handle)
    ensures r.isExecuting && r.state == Running
    ensures r.lastRun == Some(now) && r.nextRun == Some(now + h.intervalSeconds as real)
    ensures r.(isExecuting := h.isExecuting, state := h.state, lastRun := h.lastRun, nextRun := h.nextRun) == h
  {
    h.(isExecuting := true, state := Running, lastRun := Some(now), nextRun := Some(now + h.intervalSeconds as real))
  }

  /** A handle after the callback and the `finally` block. */
  function Ended(h: Handle, outcome: CallbackOutcome): (r: Handle)
    requires h.isExecuting && h.state == Running
    ensures !r.isExecuting
    ensures r.state == (if h.hasCallback && outcome.Raised? then Error else Scheduled)
    ensures r.(isExecuting := true, state := Running) == h
  {
    h.(isExecuting := false, state := if h.hasCallback && outcome.Raised? then Error else Scheduled)
  }

  /** The signal a fire emits once the callback of `began` has ended:
      executed when it returned, the error when it raised, none without a callback. */
  function FireSignals(name: string, began: Handle, outcome: CallbackOutcome): (r: seq<Event>)
    ensures |r| <= 1
    ensures r == [] <==> !began.hasCallback
    ensures began.hasCallback && outcome.Returned? ==> r == [ScheduleExecuted(name)]
    ensures began.hasCallback && outcome.Raised? ==> r == [ScheduleErrored(name, outcome.message)]
  {
    if !began.hasCallback then []
    else if outcome.Raised? then [ScheduleErrored(name, outcome.message)]
    else [ScheduleExecuted(name)]
  }

  /** A fire that begins and ends leaves a stored handle well formed, whatever its state was. */
  lemma FireKeepsWellFormed(name: string, h: Handle, now: real, outcome: CallbackOutcome)
    requires WellFormed(name, h) && !h.isExecuting
    ensures WellFormed(name, Begun(h, now))
    ensures WellFormed(name, Ended(Begun(h, now), outcome))
    ensures Ended(Begun(h, now), outcome).lastRun == Some(now)
    ensures Ended(Begun(h, now), Returned).state == Scheduled
  {
  }

  class ScheduleRuntime {
    var active: map<string, Handle>
    var events: seq<Event>
    /** The number of handles created so far; a handle's `id` stands for the
        identity of its `ScheduleHandle` object, and no identity is reused. */
    var created: nat

    ghost predicate Valid()
      reads this
    {
      forall name :: name in active ==> WellFormed(name, active[name]) && active[name].id < created
    }

    constructor ()
      ensures Valid() && active == map[] && events == [] && created == 0
    {
      active := map[];
      events := [];
      created := 0;
    }

    /** `start_schedule`: refuses an active name, then an interval above the maximum. */
    method StartSchedule(name: string, path: string, intervalSeconds: int, now: real, hasCallback: bool)
      returns (r: Result<Handle, ScheduleError>)
      requires Valid()
      modifies this
      ensures Valid()
      ensures name in old(active) ==> r == Err(AlreadyActive)
      ensures name !in old(active) && intervalSeconds > MAX_TIMER_INTERVAL_SECONDS ==> r == Err(IntervalTooLarge)
      ensures r.Err? ==> active == old(active) && events == old(events) && created == old(created)
      ensures name !in old(active) && intervalSeconds <= MAX_TIMER_INTERVAL_SECONDS ==>
        && r == Ok(Handle(name, path, intervalSeconds, None, Some(now + intervalSeconds as real), false, Scheduled, hasCallback,
                          old(created)))
        && active == old(active)[name := r.value]
        && events == old(events) + [ScheduleStarted(name)]
        && created == old(created) + 1
    {
      if name in active {
        return Err(AlreadyActive);
      }
      if intervalSeconds > MAX_TIMER_INTERVAL_SECONDS {
        return Err(IntervalTooLarge);
      }
      var handle := Handle(name, path, intervalSeconds, None, Some(now + intervalSeconds as real), false, Scheduled, hasCallback,
                           created);
      active := active[name := handle];
      created := created + 1;
      events := events + [ScheduleStarted(name)];
      r := Ok(handle);
    }

    /** `stop_schedule`: false for an unknown name; otherwise the entry is gone. */
    method StopSchedule(name: string) returns (stopped: bool)
      requires Valid()
      modifies this
      ensures Valid()
      ensures stopped == (name in old(active))
      ensures active == old(active) - {name} && created == old(created)
      ensures events == if stopped then old(events) + [ScheduleStopped(name)] else old(events)
      ensures !IsScheduled(name)
    {
      if name !in active {
        return false;
      }
      active := active - {name};
      events := events + [ScheduleStopped(name)];
      stopped := true;
    }

    /** `is_scheduled`. */
    function IsScheduled(name: string): (b: bool)
      reads this
      requires Valid()
      ensures b <==> name in active
    {
      name in active && active[name].state != Stopped
    }

    /** `update_interval`: `Ok(false)` for an unknown name (checked first), an
        error above the maximum, otherwise only the interval and next run change. */
    method UpdateInterval(name: string, newIntervalSeconds: int, now: real) returns (r: Result<bool, ScheduleError>)
      requires Valid()
      modifies this
      ensures Valid() && events == old(events) && created == old(created)
      ensures name !in old(active) ==> r == Ok(false) && active == old(active)
      ensures name in old(active) && newIntervalSeconds > MAX_TIMER_INTERVAL_SECONDS ==>
        r == Err(IntervalTooLarge) && active == old(active)
      ensures name in old(active) && newIntervalSeconds <= MAX_TIMER_INTERVAL_SECONDS ==>
        && r == Ok(true)
        && active == old(active)[name := old(active)[name].(intervalSeconds := newIntervalSeconds, nextRun := Some(now + newIntervalSeconds as real))]
    {
      if name !in active {
        return Ok(false);
      }
      if newIntervalSeconds > MAX_TIMER_INTERVAL_SECONDS {
        return Err(IntervalTooLarge);
      }
      var h := active[name];
      active := active[name := h.(intervalSeconds := newIntervalSeconds, nextRun := Some(now + newIntervalSeconds as real))];
      r := Ok(true);
    }

    /** `stop_all_schedules`: stops every name of a snapshot of the keys and
        returns how many there were; `order` is the order they were stopped in. */
    method StopAllSchedules() returns (count: nat, ghost order: seq<string>)
      requires Valid()
      modifies this
      ensures Valid()
      ensures count == |old(active)| == |order|
      ensures forall name :: name in order <==> name in old(active)
      ensures active == map[] && created == old(created)
      ensures events == old(events) + StopEvents(order)
    {
      ghost var keys := active.Keys;
      ghost var initial := events;
      var remaining := active.Keys;
      count := |remaining|;
      order := [];
      while remaining != {}
        invariant Valid()
        invariant active.Keys == remaining && remaining <= keys
        invariant forall n :: n in order <==> n in keys && n !in remaining
        invariant |order| + |remaining| == count
        invariant events == initial + StopEvents(order)
        invariant created == old(created)
        decreases |remaining|
      {
        var name :| name in remaining;
        var _ := StopSchedule(name);
        StopEventsAppend(initial, order, name);
        RemoveOneCard(remaining, name);
        order := order + [name];
        remaining := remaining - {name};
      }
      assert active.Keys == {};
    }

    /** The first half of `_execute_scheduled_task`: a no-op for an unknown
        name, one blocked event while executing, otherwise the handle starts
        running with fresh timestamps. `began` is the handle the callback
        runs under (the local `handle` of the source), present iff the
        callback is due. */
    method BeginFire(name: string, now: real) returns (began: Option<Handle>)
      requires Valid()
      modifies this
      ensures Valid()
      ensures created == old(created)
      ensures began.Some? <==> name in old(active) && !old(active)[name].isExecuting
      ensures name !in old(active) ==> active == old(active) && events == old(events)
      ensures name in old(active) && old(active)[name].isExecuting ==>
        active == old(active) && events == old(events) + [ExecutionBlocked(name)]
      ensures began.Some? ==>
        && began.value == Begun(old(active)[name], now)
        && active == old(active)[name := began.value]
        && events == old(events)
    {
      if name !in active {
        return None;
      }
      var h := active[name];
      if h.isExecuting {
        events := events + [ExecutionBlocked(name)];
        return None;
      }
      var b := Begun(h, now);
      active := active[name := b];
      began := Some(b);
    }

    /** The second half of `_execute_scheduled_task`, for the handle `began`
        that `BeginFire` started. The signal comes from `began` whatever the
        table now holds, since the source keeps its local `handle` even when
        the callback stopped or restarted its own schedule. The `finally`
        block updates that handle object only: it is written back exactly
        when the table still holds the same handle (the same `id`), and a
        new handle a restart stored under the name is left as it is. The
        handle that began a fire is still executing while it is stored,
        since a second fire of it is blocked until this method runs. */
    method EndFire(name: string, began: Handle, outcome: CallbackOutcome)
      requires Valid()
      requires name in active && active[name].id == began.id ==> active[name].isExecuting
      modifies this
      ensures Valid() && created == old(created)
      ensures events == old(events) + FireSignals(name, began, outcome)
      ensures name !in old(active) || old(active)[name].id != began.id ==> active == old(active)
      ensures name in old(active) && old(active)[name].id == began.id ==>
        active == old(active)[name := Ended(old(active)[name], outcome)]
    {
      events := events + FireSignals(name, began, outcome);
      if name !in active || active[name].id != began.id {
        return;
      }
      var h := active[name];
      active := active[name := Ended(h, outcome)];
    }

    /** `get_schedule_status`. */
    function Status(name: string): (s: string)
      reads this
      requires Valid()
      ensures s == "Not scheduled" <==> name !in active
      ensures name in active ==> s == StateLabel(active[name].state) && s != "Stopped"
    {
      if name !in active then "Not scheduled" else StateLabel(active[name].state)
    }

    /** `get_schedule_info`. */
    function Info(name: string): (r: Option<ScheduleInfo>)
      reads this
      requires Valid()
      ensures r.Some? <==> name in active
      ensures r.Some? ==> r.value.scriptName == name && r.value.intervalSeconds <= MAX_TIMER_INTERVAL_SECONDS
      ensures r.Some? ==> (r.value.isExecuting <==> r.value.state == "running")
      ensures name in active ==>
        r == Some(ScheduleInfo(active[name].scriptName, active[name].intervalSeconds, active[name].lastRun,
                               active[name].nextRun, active[name].isExecuting, StateValue(active[name].state)))
    {
      if name !in active then None
      else
        var h := active[name];
        Some(ScheduleInfo(h.scriptName, h.intervalSeconds, h.lastRun, h.nextRun, h.isExecuting, StateValue(h.state)))
    }
  }

  /** A callback that stops and restarts its own schedule, whose new handle
      then fires: ending the first fire leaves the new handle executing. */
  method RestartDuringFire() returns (runtime: ScheduleRuntime)
    ensures runtime.Valid()
    ensures "n" in runtime.active && runtime.active["n"].isExecuting && runtime.active["n"].id == 1
  {
    runtime := new ScheduleRuntime();
    var _ := runtime.StartSchedule("n", "n.py", 60, 0.0, true);
    var first := runtime.BeginFire("n", 1.0);
    var _ := runtime.StopSchedule("n");
    var _ := runtime.StartSchedule("n", "n.py", 60, 2.0, true);
    var second := runtime.BeginFire("n", 3.0);
    runtime.EndFire("n", first.value, Returned);
  }
}
