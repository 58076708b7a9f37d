/**
 * The application state model: the lifecycle "initializing" → "starting" →
 * "ready" → "shutting_down", the settings it forwards to the settings
 * manager, and the per-category change notifications it derives from the
 * manager's `settings_changed` signal. Signals are recorded as an event
 * sequence; the OS startup registration is an outcome passed in.
 */
module Application {
  import opened Text
  import opened Values
  import opened Preferences

  const INITIALIZING := "initializing"
  const STARTING := "starting"
  const READY := "ready"
  const SHUTTING_DOWN := "shutting_down"

  const RUN_ON_STARTUP := "startup/run_on_startup"

  datatype AppEvent =
    | ApplicationStarting
    | ApplicationReady
    | ApplicationShuttingDown
    | StartupSettingsChanged(startup: seq<(string, PyValue)>)
    | BehaviorSettingsChanged(behavior: seq<(string, PyValue)>)
    | ExecutionSettingsChanged(execution: seq<(string, PyValue)>)

  /** Calls made on the startup manager. */
  datatype StartupCall = SetStartup(enabled: bool) | UpdatePathIfNeeded

  /** What `set_startup` did: returned a success flag, or raised. */
  datatype Registration = Registered(success: bool) | RegistrationRaised

  /** The lifecycle part of the model: the state and the signals so far. */
  datatype Lifecycle = Lifecycle(state: string, events: seq<AppEvent>)

  /** `start_application`. */
  function Started(l: Lifecycle): Lifecycle
  {
    Lifecycle(READY, l.events + [ApplicationStarting, ApplicationReady])
  }

  /** `shutdown_application`. */
  function ShutDown(l: Lifecycle): Lifecycle
  {
    if l.state == SHUTTING_DOWN then l
    else Lifecycle(SHUTTING_DOWN, l.events + [ApplicationShuttingDown])
  }

  /** Starting always ends ready, whatever the state was, having announced
      "starting" before "ready". */
  lemma StartEndsReady(l: Lifecycle)
    ensures Started(l).state == READY
    ensures |Started(l).events| == |l.events| + 2
    ensures Started(l).events[|l.events|] == ApplicationStarting
    ensures Started(l).events[|l.events| + 1] == ApplicationReady
  {
  }

  /** Ready once started, and no longer ready once shut down. */
  lemma ReadyBetweenStartAndShutdown(l: Lifecycle)
    ensures Started(l).state == READY
    ensures ShutDown(l).state != READY && ShutDown(Started(l)).state != READY
  {
  }

  /** A second shutdown changes nothing and signals nothing. */
  lemma ShutdownIdempotent(l: Lifecycle)
    ensures ShutDown(ShutDown(l)).state == SHUTTING_DOWN
    ensures ShutDown(ShutDown(l)) == ShutDown(l)
  {
  }

  /** Shutting down announces itself at most once, however often it is asked. */
  lemma ShutdownSignalsOnce(l: Lifecycle)
    requires l.state != SHUTTING_DOWN
    ensures ShutDown(ShutDown(l)).events == l.events + [ApplicationShuttingDown]
  {
  }

  /** Each option of a category, paired with its value read by `get` from
      "<category>/<option>" with the option's default. */
  function ReadAll(store: map<string, PyValue>, category: string, options: seq<(string, PyValue)>)
    : (r: seq<(string, PyValue)>)
    ensures |r| == |options|
    ensures forall i :: 0 <= i < |r| ==> r[i] == (options[i].0, Lookup(store, category + "/" + options[i].0, options[i].1))
  {
    if options == [] then []
    else [(options[0].0, Lookup(store, category + "/" + options[0].0, options[0].1))] + ReadAll(store, category, options[1..])
  }

  /** The options each category getter reads, with their defaults. */
  const STARTUP_OPTIONS: seq<(string, PyValue)> :=
    [("run_on_startup", PyBool(false)), ("start_minimized", PyBool(true)), ("show_notification", PyBool(true))]
  const BEHAVIOR_OPTIONS: seq<(string, PyValue)> :=
    [("minimize_to_tray", PyBool(true)), ("close_to_tray", PyBool(true)), ("single_instance", PyBool(true)),
     ("show_script_notifications", PyBool(true))]
  const EXECUTION_OPTIONS: seq<(string, PyValue)> :=
    [("script_timeout_seconds", PyInt(30)), ("status_refresh_seconds", PyInt(5))]

  /** `get_startup_settings`: each startup option, in the table's order, read under "startup/<option>" with its default. */
  function StartupSettings(store: map<string, PyValue>): (r: seq<(string, PyValue)>)
    ensures |r| == |STARTUP_OPTIONS|
    ensures forall i :: 0 <= i < |r| ==>
      r[i].0 == STARTUP_OPTIONS[i].0 && r[i].1 == Lookup(store, FullKey("startup", STARTUP_OPTIONS[i].0), STARTUP_OPTIONS[i].1)
  {
    ReadAll(store, "startup", STARTUP_OPTIONS)
  }

  /** `get_behavior_settings`: each behavior option, in the table's order, read under "behavior/<option>" with its default. */
  function BehaviorSettings(store: map<string, PyValue>): (r: seq<(string, PyValue)>)
    ensures |r| == |BEHAVIOR_OPTIONS|
    ensures forall i :: 0 <= i < |r| ==>
      r[i].0 == BEHAVIOR_OPTIONS[i].0 && r[i].1 == Lookup(store, FullKey("behavior", BEHAVIOR_OPTIONS[i].0), BEHAVIOR_OPTIONS[i].1)
  {
    ReadAll(store, "behavior", BEHAVIOR_OPTIONS)
  }

  /** `get_execution_settings`: each execution option, in the table's order, read under "execution/<option>" with its default. */
  function ExecutionSettings(store: map<string, PyValue>): (r: seq<(string, PyValue)>)
    ensures |r| == |EXECUTION_OPTIONS|
    ensures forall i :: 0 <= i < |r| ==>
      r[i].0 == EXECUTION_OPTIONS[i].0 && r[i].1 == Lookup(store, FullKey("execution", EXECUTION_OPTIONS[i].0), EXECUTION_OPTIONS[i].1)
  {
    ReadAll(store, "execution", EXECUTION_OPTIONS)
  }

  /** `_on_setting_changed`: the signal a changed key leads to. */
  function Dispatch(store: map<string, PyValue>, key: string): (r: seq<AppEvent>)
    ensures |r| <= 1
    ensures r == [] <==> !StartsWith(key, "startup/") && !StartsWith(key, "behavior/") && !StartsWith(key, "execution/")
  {
    if StartsWith(key, "startup/") then [StartupSettingsChanged(StartupSettings(store))]
    else if StartsWith(key, "behavior/") then [BehaviorSettingsChanged(BehaviorSettings(store))]
    else if StartsWith(key, "execution/") then [ExecutionSettingsChanged(ExecutionSettings(store))]
    else []
  }

  /** A key starts with at most one of the three category prefixes. */
  lemma CategoryPrefixesDisjoint(key: string)
    ensures StartsWith(key, "startup/") ==> !StartsWith(key, "behavior/") && !StartsWith(key, "execution/")
    ensures StartsWith(key, "behavior/") ==> !StartsWith(key, "execution/")
  {
    if StartsWith(key, "startup/") {
      assert key[0] == key[..8][0] == 's';
    } else if StartsWith(key, "behavior/") {
      assert key[0] == key[..9][0] == 'b';
    }
  }

  /** Each changed key is announced in its own category only, and a key
      outside the three categories is not announced. */
  lemma DispatchByPrefix(store: map<string, PyValue>, key: string)
    ensures StartsWith(key, "startup/") ==> Dispatch(store, key) == [StartupSettingsChanged(StartupSettings(store))]
    ensures StartsWith(key, "behavior/") ==> Dispatch(store, key) == [BehaviorSettingsChanged(BehaviorSettings(store))]
    ensures StartsWith(key, "execution/") ==> Dispatch(store, key) == [ExecutionSettingsChanged(ExecutionSettings(store))]
    ensures !StartsWith(key, "startup/") && !StartsWith(key, "behavior/") && !StartsWith(key, "execution/")
      ==> Dispatch(store, key) == []
  {
    CategoryPrefixesDisjoint(key);
  }

  /** The category a settings signal announces, as the key prefix before "/". */
  function Category(e: AppEvent): string
  {
    match e
    case StartupSettingsChanged(_) => "startup"
    case BehaviorSettingsChanged(_) => "behavior"
    case ExecutionSettingsChanged(_) => "execution"
    case _ => ""
  }

  /** The settings a signal carries; none for a lifecycle signal. */
  function Payload(e: AppEvent): seq<(string, PyValue)>
  {
    match e
    case StartupSettingsChanged(p) => p
    case BehaviorSettingsChanged(p) => p
    case ExecutionSettingsChanged(p) => p
    case _ => []
  }

  /** A stored key reads back as its value, with boolean text converted. */
  lemma LookupStored(store: map<string, PyValue>, key: string, default: PyValue)
    requires key in store
    ensures Lookup(store, key, default) == Converted(store[key])
  {
  }

  /** A table option whose default is true reads as on when it was never
      stored, and otherwise as the truthiness of its converted stored value. */
  lemma OnByDefault(store: map<string, PyValue>, category: string, option: string)
    requires '/' !in category && '/' !in option
    requires DefaultOf(category, option) == Some(PyBool(true))
    ensures var key := FullKey(category, option);
      (key !in store ==> Truthy(Lookup(store, key, PyBool(true)))) &&
      (key in store ==> (Truthy(Lookup(store, key, PyBool(true))) <==> Truthy(Converted(store[key]))))
  {
    if FullKey(category, option) !in store {
      MissingReadsDefault(store, category, option, PyBool(true));
    }
  }

  /** Every setting in `payload` that is stored under its category reads as
      `get` reads it from `store`. */
  ghost predicate ReadsBack(store: map<string, PyValue>, category: string, payload: seq<(string, PyValue)>)
  {
    forall p :: p in payload && category + "/" + p.0 in store ==> p.1 == Converted(store[category + "/" + p.0])
  }

  /** What `ReadAll` reads is what the store holds, for every stored option. */
  lemma ReadAllReadsBack(store: map<string, PyValue>, category: string, options: seq<(string, PyValue)>)
    ensures ReadsBack(store, category, ReadAll(store, category, options))
  {
    var r := ReadAll(store, category, options);
    forall p | p in r && category + "/" + p.0 in store ensures p.1 == Converted(store[category + "/" + p.0]) {
      var i :| 0 <= i < |r| && r[i] == p;
      LookupStored(store, category + "/" + options[i].0, options[i].1);
    }
  }

  /** After `key` is set to `value`, the signal for the key's category
      carries, for the option stored under `key`, the value as `get` reads
      it back from the new store: the written value with boolean text
      converted. Every other stored option it carries is read from the new
      store too. */
  lemma DispatchCarriesNewValue(store: map<string, PyValue>, key: string, value: PyValue)
    ensures |Dispatch(store[key := value], key)| <= 1
    ensures forall e, p :: e in Dispatch(store[key := value], key) && p in Payload(e) && Category(e) + "/" + p.0 == key ==>
      p.1 == Converted(value)
    ensures forall e :: e in Dispatch(store[key := value], key) ==> ReadsBack(store[key := value], Category(e), Payload(e))
  {
    var s := store[key := value];
    DispatchReadsBack(s, key);
    assert key in s && s[key] == value;
  }

  /** The signal a changed key leads to reads every option it carries back
      from `store`. */
  lemma DispatchReadsBack(store: map<string, PyValue>, key: string)
    ensures forall e :: e in Dispatch(store, key) ==> ReadsBack(store, Category(e), Payload(e))
  {
    var d := Dispatch(store, key);
    if d != [] {
      var e := d[0];
      assert d == [e];
      DispatchByPrefix(store, key);
      if StartsWith(key, "startup/") {
        SignalReadsBack(store, e, "startup", STARTUP_OPTIONS);
      } else if StartsWith(key, "behavior/") {
        SignalReadsBack(store, e, "behavior", BEHAVIOR_OPTIONS);
      } else {
        SignalReadsBack(store, e, "execution", EXECUTION_OPTIONS);
      }
    }
  }

  /** A signal carrying a category's options read from `store` reads them back. */
  lemma SignalReadsBack(store: map<string, PyValue>, e: AppEvent, category: string, options: seq<(string, PyValue)>)
    requires Category(e) == category && Payload(e) == ReadAll(store, category, options)
    ensures ReadsBack(store, Category(e), Payload(e))
  {
    ReadAllReadsBack(store, category, options);
  }

  /** A custom display name lives outside the three categories and never
      reaches the application's listeners. */
  lemma CustomNamesNotDispatched(store: map<string, PyValue>, original: string)
    ensures Dispatch(store, CustomKey(original)) == []
  {
    var k := CustomKey(original);
    assert k[0] == 'c';
    NotStartsWith(k, "startup/");
    NotStartsWith(k, "behavior/");
    NotStartsWith(k, "execution/");
  }

  class ApplicationStateModel {
    const settings: SettingsManager
    var state: string
    var events: seq<AppEvent>
    var startupCalls: seq<StartupCall>

    function Phase(): Lifecycle
      reads this
    {
      Lifecycle(state, events)
    }

    constructor(settings: SettingsManager)
      ensures this.settings == settings
      ensures state == INITIALIZING && events == [] && startupCalls == []
    {
      this.settings := settings;
      state := INITIALIZING;
      events := [];
      startupCalls := [];
    }

    /** `start_application`. */
    method StartApplication()
      modifies this
      ensures Phase() == Started(old(Phase()))
      ensures startupCalls == old(startupCalls)
    {
      state := STARTING;
      events := events + [ApplicationStarting];
      state := READY;
      events := events + [ApplicationReady];
    }

    /** `shutdown_application`. */
    method ShutdownApplication()
      modifies this
      ensures Phase() == ShutDown(old(Phase()))
      ensures startupCalls == old(startupCalls)
    {
      if state == SHUTTING_DOWN {
        return;
      }
      state := SHUTTING_DOWN;
      events := events + [ApplicationShuttingDown];
    }

    /** `is_ready`: never while initializing, starting or shutting down. */
    function IsReady(): (r: bool)
      reads this
      ensures state == READY ==> r
      ensures state in {INITIALIZING, STARTING, SHUTTING_DOWN} ==> !r
    {
      state == READY
    }

    /** `_on_setting_changed`, run when the settings manager signals. */
    method OnSettingChanged(key: string, value: PyValue)
      modifies this
      ensures events == old(events) + Dispatch(settings.store, key)
      ensures state == old(state) && startupCalls == old(startupCalls)
    {
      if StartsWith(key, "startup/") {
        events := events + [StartupSettingsChanged(StartupSettings(settings.store))];
      } else if StartsWith(key, "behavior/") {
        events := events + [BehaviorSettingsChanged(BehaviorSettings(settings.store))];
      } else if StartsWith(key, "execution/") {
        events := events + [ExecutionSettingsChanged(ExecutionSettings(settings.store))];
      }
    }

    /** Every `set_*` of the model: the settings manager writes the value, and
        when it signals a change the model re-announces the key's category. */
    method ChangeSetting(key: string, value: PyValue)
      modifies this, settings
      ensures settings.store == old(settings.store)[key := value]
      ensures var changed := !PyEq(old(settings.Get(key, PyNone)), value);
        && settings.events == old(settings.events) + (if changed then [(key, value)] else [])
        && events == old(events) + (if changed then Dispatch(settings.store, key) else [])
      ensures forall e, p :: e in events[|old(events)|..] && p in Payload(e) && Category(e) + "/" + p.0 == key ==>
        p.1 == Converted(value)
      ensures state == old(state) && startupCalls == old(startupCalls)
    {
      DispatchCarriesNewValue(settings.store, key, value);
      var before := |settings.events|;
      settings.Set(key, value);
      if |settings.events| > before {
        OnSettingChanged(key, value);
      }
    }

    /** `set_run_on_startup`: the setting is written first; the registration
        is then asked for, and the stored path refreshed only when it
        succeeded and startup is being enabled. An exception from the
        registration ends the call without a refresh. */
    method SetRunOnStartup(enabled: bool, registration: Registration)
      modifies this, settings
      ensures settings.store == old(settings.store)[RUN_ON_STARTUP := PyBool(enabled)]
      ensures var changed := !PyEq(old(settings.Get(RUN_ON_STARTUP, PyNone)), PyBool(enabled));
        events == old(events) + (if changed then [StartupSettingsChanged(StartupSettings(settings.store))] else [])
      ensures startupCalls == old(startupCalls) + [SetStartup(enabled)]
        + (if registration == Registered(true) && enabled then [UpdatePathIfNeeded] else [])
      ensures state == old(state)
    {
      ChangeSetting(RUN_ON_STARTUP, PyBool(enabled));
      assert RUN_ON_STARTUP[..8] == "startup/";
      assert Dispatch(settings.store, RUN_ON_STARTUP) == [StartupSettingsChanged(StartupSettings(settings.store))];
      startupCalls := startupCalls + [SetStartup(enabled)];
      if registration.Registered? && registration.success && enabled {
        startupCalls := startupCalls + [UpdatePathIfNeeded];
      }
    }

    /** `should_show_script_notifications`, read as a condition: on unless
        the setting is stored as something falsy. */
    predicate ShouldShowScriptNotifications()
      reads this, settings
      ensures FullKey("behavior", "show_script_notifications") !in settings.store ==> ShouldShowScriptNotifications()
      ensures FullKey("behavior", "show_script_notifications") in settings.store ==>
        (ShouldShowScriptNotifications() <==> Truthy(Converted(settings.store[FullKey("behavior", "show_script_notifications")])))
    {
      OnByDefault(settings.store, "behavior", "show_script_notifications");
      Truthy(Lookup(settings.store, FullKey("behavior", "show_script_notifications"), PyBool(true)))
    }

    /** `should_show_startup_notification`, read as a condition: on unless
        the setting is stored as something falsy. */
    predicate ShouldShowStartupNotification()
      reads this, settings
      ensures FullKey("startup", "show_notification") !in settings.store ==> ShouldShowStartupNotification()
      ensures FullKey("startup", "show_notification") in settings.store ==>
        (ShouldShowStartupNotification() <==> Truthy(Converted(settings.store[FullKey("startup", "show_notification")])))
    {
      OnByDefault(settings.store, "startup", "show_notification");
      Truthy(Lookup(settings.store, FullKey("startup", "show_notification"), PyBool(true)))
    }
  }
}
