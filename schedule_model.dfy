/**
 * The schedule model: per-script schedule configuration as the UI sees it,
 * the "enabled changed" notification, and the display formatting of an
 * interval and of the run timestamps. The unit choice for an interval is
 * shared with the schedule view.
 */
module Schedules {
  import opened Text

  /** The interval units, largest last. */
  datatype Unit = Seconds | Minutes | Hours | Days

  function UnitSeconds(u: Unit): (r: int)
    ensures r >= 1
  {
    match u
    case Seconds => 1
    case Minutes => 60
    case Hours => 3600
    case Days => 86400
  }

  /** The unit's plural name, as the view's unit selector lists it. */
  function UnitName(u: Unit): string
  {
    match u
    case Seconds => "seconds"
    case Minutes => "minutes"
    case Hours => "hours"
    case Days => "days"
  }

  /** The unit's singular word in the display text. */
  function UnitWord(u: Unit): string
  {
    match u
    case Seconds => "second"
    case Minutes => "minute"
    case Hours => "hour"
    case Days => "day"
  }

  /** The unit an interval is shown in: the thresholds 60, 3600 and 86400. */
  function UnitFor(interval: int): (u: Unit)
    ensures u == Seconds || UnitSeconds(u) <= interval
    ensures forall v :: UnitSeconds(v) > UnitSeconds(u) ==> interval < UnitSeconds(v)
  {
    if interval < 60 then Seconds
    else if interval < 3600 then Minutes
    else if interval < 86400 then Hours
    else Days
  }

  /** The number shown with the unit: the interval floor-divided by it. */
  function IntervalCount(interval: int): int
  {
    interval / UnitSeconds(UnitFor(interval))
  }

  /** The shown count is the number of whole units in the interval: at
      least one for every unit but seconds, and the interval as it is in
      seconds. */
  lemma IntervalCountBounds(interval: int)
    ensures var u := UnitSeconds(UnitFor(interval));
      && IntervalCount(interval) * u <= interval < (IntervalCount(interval) + 1) * u
    ensures UnitFor(interval) == Seconds ==> IntervalCount(interval) == interval
    ensures UnitFor(interval) != Seconds ==> IntervalCount(interval) >= 1
  {
    var u := UnitSeconds(UnitFor(interval));
    var c := IntervalCount(interval);
    assert interval == c * u + interval % u;
  }

  /** The interval display text of `get_schedule_info_for_display`. */
  function IntervalDisplay(interval: int): (r: string)
  {
    var u := UnitFor(interval);
    if u == Seconds then IntToString(interval) + " seconds"
    else
      var c := IntervalCount(interval);
      IntToString(c) + " " + UnitWord(u) + (if c != 1 then "s" else "")
  }

  /** The display starts with the count, and the unit word is plural
      exactly when the count is not one, except for seconds, which are
      always plural. */
  lemma IntervalDisplayWords(interval: int)
    ensures StartsWith(IntervalDisplay(interval), IntToString(IntervalCount(interval)) + " ")
    ensures UnitFor(interval) == Seconds ==> EndsWith(IntervalDisplay(interval), " seconds")
    ensures UnitFor(interval) != Seconds ==>
      (EndsWith(IntervalDisplay(interval), UnitWord(UnitFor(interval)) + "s") <==> IntervalCount(interval) != 1)
  {
    var u := UnitFor(interval);
    var c := IntervalCount(interval);
    var head := IntToString(c) + " ";
    var d := IntervalDisplay(interval);
    if u == Seconds {
      assert d == head + "seconds";
      assert d[..|head|] == head;
      assert d[|d| - 8..] == " seconds";
    } else {
      var w := UnitWord(u);
      assert d == head + w + (if c != 1 then "s" else "");
      assert d[..|head|] == head;
      if c != 1 {
        assert d[|d| - |w + "s"|..] == w + "s";
      } else {
        assert d == head + w;
        assert w[|w| - 1] != 's';
        assert d[|d| - 1] == w[|w| - 1];
      }
    }
  }

  // ---------------------------------------------------------------- display

  /** A script's schedule configuration; an absent key is `None`. Run
      timestamps are whole seconds since the epoch. */
  datatype ScheduleConfig = ScheduleConfig(
    enabled: Option<bool>,
    intervalSeconds: Option<int>,
    lastRun: Option<int>,
    nextRun: Option<int>)

  const NO_CONFIG := ScheduleConfig(None, None, None, None)

  /** A displayed time: a fixed text, or the local date and time of a
      timestamp in `%Y-%m-%d %H:%M:%S` form. */
  datatype TimeText = Plain(text: string) | LocalTime(timestamp: int)

  datatype DisplayInfo = DisplayInfo(
    enabled: bool,
    intervalSeconds: int,
    intervalDisplay: string,
    lastRun: Option<int>,
    lastRunDisplay: TimeText,
    nextRun: Option<int>,
    nextRunDisplay: TimeText)

  const DEFAULT_INTERVAL := 3600

  /** Python truthiness of an optional timestamp. */
  predicate HasTime(t: Option<int>)
  {
    t.Some? && t.value != 0
  }

  /** `get_schedule_info_for_display` over a configuration. */
  function DisplayOf(config: ScheduleConfig): (r: DisplayInfo)
    ensures r.enabled <==> config.enabled == Some(true)
    ensures config.intervalSeconds.None? ==> r.intervalSeconds == DEFAULT_INTERVAL
    ensures config.intervalSeconds.Some? ==> r.intervalSeconds == config.intervalSeconds.value
    ensures r.lastRun == config.lastRun && r.nextRun == config.nextRun
    ensures r.lastRunDisplay == (if HasTime(config.lastRun) then LocalTime(config.lastRun.value) else Plain("Never"))
    ensures r.nextRunDisplay == (if HasTime(config.nextRun) then LocalTime(config.nextRun.value) else Plain("Not scheduled"))
  {
    var interval := if config.intervalSeconds.Some? then config.intervalSeconds.value else DEFAULT_INTERVAL;
    DisplayInfo(
      config.enabled == Some(true),
      interval,
      IntervalDisplay(interval),
      config.lastRun,
      if !HasTime(config.lastRun) then Plain("Never") else LocalTime(config.lastRun.value),
      config.nextRun,
      if !HasTime(config.nextRun) then Plain("Not scheduled") else LocalTime(config.nextRun.value))
  }

  /** With nothing configured, a schedule shows one hour, never run and
      not scheduled. */
  lemma UnconfiguredDisplay()
    ensures DisplayOf(NO_CONFIG).intervalDisplay == "1 hour"
    ensures DisplayOf(NO_CONFIG).lastRunDisplay == Plain("Never")
    ensures DisplayOf(NO_CONFIG).nextRunDisplay == Plain("Not scheduled")
    ensures !DisplayOf(NO_CONFIG).enabled
  {
    assert IntervalCount(3600) == 1;
    assert IntToString(1) == "1";
  }

  // ---------------------------------------------------------------- model

  datatype ScheduleEvent = ScheduleEnabledChanged(scriptName: string, enabled: bool)

  class ScheduleModel {
    /** The settings manager's schedule store, per script name. */
    var configs: map<string, ScheduleConfig>
    var events: seq<ScheduleEvent>

    constructor(configs: map<string, ScheduleConfig>)
      ensures this.configs == configs && events == []
    {
      this.configs := configs;
      events := [];
    }

    function Config(scriptName: string): ScheduleConfig
      reads this
    {
      if scriptName in configs then configs[scriptName] else NO_CONFIG
    }

    /** `is_script_scheduled`. */
    predicate IsScheduled(scriptName: string)
      reads this
    {
      Config(scriptName).enabled == Some(true)
    }

    /** `set_schedule_enabled`: the flag is stored, and the change is
        announced only when it differs from what was stored. */
    method SetScheduleEnabled(scriptName: string, enabled: bool)
      modifies this
      ensures configs == old(configs)[scriptName := old(Config(scriptName)).(enabled := Some(enabled))]
      ensures IsScheduled(scriptName) == enabled
      ensures events == old(events)
        + (if old(IsScheduled(scriptName)) == enabled then [] else [ScheduleEnabledChanged(scriptName, enabled)])
    {
      var previous := IsScheduled(scriptName);
      configs := configs[scriptName := Config(scriptName).(enabled := Some(enabled))];
      if previous != enabled {
        events := events + [ScheduleEnabledChanged(scriptName, enabled)];
      }
    }

    /** `get_schedule_info_for_display`. */
    function InfoForDisplay(scriptName: string): (r: DisplayInfo)
      reads this
      ensures r.enabled <==> IsScheduled(scriptName)
    {
      DisplayOf(Config(scriptName))
    }
  }
}
