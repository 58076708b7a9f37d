/**
 * The schedule view's state: the selected script, the interval editor (a
 * count spin box bounded to 1..999999 and a unit selector listing seconds,
 * minutes, hours and days), the status labels, and the signals it sends to
 * its controller. Qt emits a widget's change signal only when its value
 * really changes, and not while the view has blocked its signals; both
 * are written out.
 */
module ScheduleViews {
  import opened Text
  import opened Schedules

  const SPIN_MIN := 1
  const SPIN_MAX := 999999

  /** `QSpinBox.setValue`: the value is clamped into the box's range. */
  function Clamp(v: int): (r: int)
    ensures SPIN_MIN <= r <= SPIN_MAX
    ensures SPIN_MIN <= v <= SPIN_MAX ==> r == v
  {
    if v < SPIN_MIN then SPIN_MIN else if v > SPIN_MAX then SPIN_MAX else v
  }

  /** The unit a selector text names, if any. */
  function UnitNamed(text: string): (r: Option<Unit>)
    ensures r.Some? ==> UnitName(r.value) == text
    ensures forall u :: UnitName(u) == text ==> r == Some(u)
  {
    if text == "seconds" then Some(Seconds)
    else if text == "minutes" then Some(Minutes)
    else if text == "hours" then Some(Hours)
    else if text == "days" then Some(Days)
    else None
  }

  /** `_get_interval_seconds` over the editor's count and unit text. */
  function IntervalSeconds(value: int, unitText: string): (r: int)
    ensures UnitNamed(unitText).Some? ==> r == value * UnitSeconds(UnitNamed(unitText).value)
    ensures UnitNamed(unitText).None? ==> r == 3600
  {
    if unitText == "seconds" then value
    else if unitText == "minutes" then value * 60
    else if unitText == "hours" then value * 3600
    else if unitText == "days" then value * 86400
    else 3600
  }

  /** The largest interval whose count fits the spin box. */
  const MAX_SHOWN := SPIN_MAX * 86400 + 86399

  /** Showing an interval and reading it back rounds it down to a whole
      number of the chosen unit, so an interval that is a whole number of
      its unit comes back unchanged; below one second the box shows 1. */
  lemma {:induction false} ShownIntervalReadBack(interval: int)
    requires interval <= MAX_SHOWN
    ensures var u := UnitSeconds(UnitFor(interval));
      1 <= interval ==> IntervalSeconds(Clamp(IntervalCount(interval)), UnitName(UnitFor(interval))) == interval - interval % u
    ensures 1 <= interval && interval % UnitSeconds(UnitFor(interval)) == 0 ==>
      IntervalSeconds(Clamp(IntervalCount(interval)), UnitName(UnitFor(interval))) == interval
    ensures interval < 1 ==> IntervalSeconds(Clamp(IntervalCount(interval)), UnitName(UnitFor(interval))) == 1
  {
    var unit := UnitFor(interval);
    var u := UnitSeconds(unit);
    var c := IntervalCount(interval);
    IntervalCountBounds(interval);
    assert UnitNamed(UnitName(unit)) == Some(unit);
    if 1 <= interval {
      if unit == Days {
        assert c * 86400 < (SPIN_MAX + 1) * 86400;
      }
      assert c <= SPIN_MAX;
      assert Clamp(c) == c;
      assert interval == c * u + interval % u;
    }
  }

  /** A label that shows a time: a fixed text, or a prefix followed by the
      local date and time of a timestamp. */
  datatype Label = Fixed(text: string) | Stamped(prefix: string, timestamp: int)

  /** `set_last_run`: only a missing timestamp shows "Never". */
  function LastRunLabel(timestamp: Option<int>): (r: Label)
    ensures r == Fixed("Last run: Never") <==> timestamp.None?
  {
    if timestamp.None? then Fixed("Last run: Never") else Stamped("Last run: ", timestamp.value)
  }

  /** `set_next_run`: only a missing timestamp shows "Not scheduled". */
  function NextRunLabel(timestamp: Option<int>): (r: Label)
    ensures r == Fixed("Next run: Not scheduled") <==> timestamp.None?
  {
    if timestamp.None? then Fixed("Next run: Not scheduled") else Stamped("Next run: ", timestamp.value)
  }

  /** The `schedule_info` a controller passes in; an absent key is `None`. */
  datatype ScheduleInfo = ScheduleInfo(
    enabled: Option<bool>,
    intervalSeconds: Option<int>,
    lastRun: Option<int>,
    nextRun: Option<int>,
    status: Option<string>)

  datatype ViewEvent =
    | ScheduleEnabledChanged(scriptName: string, enabled: bool)
    | ScheduleIntervalChanged(scriptName: string, intervalSeconds: int)
    | RunNowRequested(scriptName: string)
    | NoScriptWarning

  class ScheduleView {
    /** `selected_script`: the selected item's name, which may be missing. */
    var selectedScript: Option<string>
    var enabledChecked: bool
    var spinValue: int
    var unitText: string
    var lastRunLabel: Label
    var nextRunLabel: Label
    var statusText: string
    /** Whether the editors and the "Run Now" button accept input. */
    var editorsEnabled: bool
    var runNowEnabled: bool
    var events: seq<ViewEvent>

    /** The spin box stays in range and the selector on one of its four units. */
    predicate Valid()
      reads this
    {
      SPIN_MIN <= spinValue <= SPIN_MAX && UnitNamed(unitText).Some?
    }

    constructor()
      ensures Valid()
      ensures selectedScript.None? && !enabledChecked && spinValue == 60 && unitText == "minutes"
      ensures lastRunLabel == Fixed("Last run: Never") && nextRunLabel == Fixed("Next run: Not scheduled")
      ensures statusText == "Status: Idle" && editorsEnabled && !runNowEnabled && events == []
    {
      selectedScript := None;
      enabledChecked := false;
      spinValue := 60;
      unitText := "minutes";
      lastRunLabel := Fixed("Last run: Never");
      nextRunLabel := Fixed("Next run: Not scheduled");
      statusText := "Status: Idle";
      editorsEnabled := true;
      runNowEnabled := false;
      events := [];
    }

    /** The handlers' `if not self.selected_script`. */
    predicate HasSelection()
      reads this
    {
      selectedScript.Some? && selectedScript.value != ""
    }

    /** The interval the editor currently shows, in seconds. */
    function ShownInterval(): int
      reads this
    {
      IntervalSeconds(spinValue, unitText)
    }

    /** `set_interval`: the unit and count for an interval, with the
        editor's signals blocked. */
    method SetInterval(interval: int)
      requires Valid()
      modifies this
      ensures Valid()
      ensures unitText == UnitName(UnitFor(interval)) && spinValue == Clamp(IntervalCount(interval))
      ensures 1 <= interval <= MAX_SHOWN ==> ShownInterval() == interval - interval % UnitSeconds(UnitFor(interval))
      ensures events == old(events) && selectedScript == old(selectedScript) && enabledChecked == old(enabledChecked)
      ensures lastRunLabel == old(lastRunLabel) && nextRunLabel == old(nextRunLabel) && statusText == old(statusText)
      ensures editorsEnabled == old(editorsEnabled) && runNowEnabled == old(runNowEnabled)
    {
      if interval < 60 {
        unitText := "seconds";
        spinValue := Clamp(interval);
      } else if interval < 3600 {
        unitText := "minutes";
        spinValue := Clamp(interval / 60);
      } else if interval < 86400 {
        unitText := "hours";
        spinValue := Clamp(interval / 3600);
      } else {
        unitText := "days";
        spinValue := Clamp(interval / 86400);
      }
      if 1 <= interval <= MAX_SHOWN {
        ShownIntervalReadBack(interval);
      }
    }

    /** `_on_interval_changed` and `_on_interval_unit_changed`: the shown
        interval is sent for the selected script, and nothing without one. */
    method AnnounceInterval()
      modifies this
      ensures events == old(events) + (if HasSelection() then [ScheduleIntervalChanged(selectedScript.value, ShownInterval())] else [])
      ensures selectedScript == old(selectedScript) && spinValue == old(spinValue) && unitText == old(unitText)
      ensures enabledChecked == old(enabledChecked)
    {
      if !HasSelection() {
        return;
      }
      events := events + [ScheduleIntervalChanged(selectedScript.value, ShownInterval())];
    }

    /** The user sets the count: the box clamps it and signals a real change. */
    method EditCount(v: int)
      requires Valid()
      modifies this
      ensures Valid() && spinValue == Clamp(v) && unitText == old(unitText)
      ensures events == old(events)
        + (if Clamp(v) != old(spinValue) && HasSelection() then [ScheduleIntervalChanged(selectedScript.value, ShownInterval())] else [])
      ensures selectedScript == old(selectedScript)
    {
      if Clamp(v) != spinValue {
        spinValue := Clamp(v);
        AnnounceInterval();
      }
    }

    /** The user picks a unit: a real change is signalled. */
    method ChooseUnit(unit: Unit)
      requires Valid()
      modifies this
      ensures Valid() && unitText == UnitName(unit) && spinValue == old(spinValue)
      ensures events == old(events)
        + (if UnitName(unit) != old(unitText) && HasSelection() then [ScheduleIntervalChanged(selectedScript.value, spinValue * UnitSeconds(unit))] else [])
      ensures selectedScript == old(selectedScript)
    {
      if UnitName(unit) != unitText {
        unitText := UnitName(unit);
        AnnounceInterval();
      }
    }

    /** `_on_schedule_enabled_changed`, after the user toggles the box. */
    method ToggleEnabled(checked: bool)
      modifies this
      ensures enabledChecked == checked && selectedScript == old(selectedScript)
      ensures spinValue == old(spinValue) && unitText == old(unitText)
      ensures events == old(events)
        + (if checked != old(enabledChecked) && HasSelection() then [ViewEvent.ScheduleEnabledChanged(selectedScript.value, checked)] else [])
    {
      if checked != enabledChecked {
        enabledChecked := checked;
        if HasSelection() {
          events := events + [ViewEvent.ScheduleEnabledChanged(selectedScript.value, enabledChecked)];
        }
      }
    }

    /** `_on_run_now_clicked`: without a selection the user is warned instead. */
    method RunNow()
      modifies this
      ensures events == old(events) + (if HasSelection() then [RunNowRequested(selectedScript.value)] else [NoScriptWarning])
      ensures selectedScript == old(selectedScript)
    {
      if !HasSelection() {
        events := events + [NoScriptWarning];
        return;
      }
      events := events + [RunNowRequested(selectedScript.value)];
    }

    /** `_on_script_selected` with `_update_config_panel`: the selection is
        recorded and the editors accept input only when a script is selected. */
    method SelectScript(selected: Option<string>)
      modifies this
      ensures selectedScript == selected
      ensures editorsEnabled == HasSelection() && runNowEnabled == HasSelection()
      ensures events == old(events) && spinValue == old(spinValue) && unitText == old(unitText)
      ensures enabledChecked == old(enabledChecked)
    {
      selectedScript := selected;
      var on := HasSelection();
      editorsEnabled := on;
      runNowEnabled := on;
    }

    /** `update_schedule_info`: ignored unless it is about the selected
        script; otherwise the editors and labels show it, with signals
        blocked. */
    method UpdateScheduleInfo(scriptName: string, info: ScheduleInfo)
      requires Valid()
      modifies this
      ensures Valid()
      ensures events == old(events) && selectedScript == old(selectedScript)
      ensures old(selectedScript) != Some(scriptName) ==>
        && enabledChecked == old(enabledChecked) && spinValue == old(spinValue) && unitText == old(unitText)
        && lastRunLabel == old(lastRunLabel) && nextRunLabel == old(nextRunLabel) && statusText == old(statusText)
      ensures old(selectedScript) == Some(scriptName) ==>
        var interval := if info.intervalSeconds.Some? then info.intervalSeconds.value else 3600;
        && enabledChecked == (info.enabled == Some(true))
        && unitText == UnitName(UnitFor(interval)) && spinValue == Clamp(IntervalCount(interval))
        && lastRunLabel == LastRunLabel(info.lastRun) && nextRunLabel == NextRunLabel(info.nextRun)
        && statusText == "Status: " + (if info.status.Some? then info.status.value else "Idle")
    {
      if selectedScript != Some(scriptName) {
        return;
      }
      enabledChecked := info.enabled == Some(true);
      SetInterval(if info.intervalSeconds.Some? then info.intervalSeconds.value else 3600);
      lastRunLabel := LastRunLabel(info.lastRun);
      nextRunLabel := NextRunLabel(info.nextRun);
      statusText := "Status: " + (if info.status.Some? then info.status.value else "Idle");
    }
  }
}
