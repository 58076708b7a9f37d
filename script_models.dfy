/**
 * The script models the user interface talks to: the collection of
 * discovered scripts with its enabled/disabled filter, the execution model
 * that gates runs and tracks workers, and the hotkey model that caches the
 * registry's assignments.
 *
 * The settings the collection reads (disabled scripts, external scripts)
 * are fields of the collection; whether an external path is still valid is
 * a parameter. Qt signals are recorded in `events`. A worker thread is
 * modelled by the request it was created with; the thread itself is not.
 */
module ScriptModels {
  import opened Text
  import opened Values
  import opened Analysis
  import opened Executor
  import opened Loading
  import opened Registry

  // ---------------------------------------------------------------- lookup

  /** The first script satisfying `p`, scanning in discovery order. */
  function First(scripts: seq<LoadedScript>, p: LoadedScript -> bool): (r: Option<LoadedScript>)
    ensures r.Some? ==> exists i :: (0 <= i < |scripts| && scripts[i] == r.value && p(scripts[i])
      && forall j :: 0 <= j < i ==> !p(scripts[j]))
    ensures r.None? ==> forall i :: 0 <= i < |scripts| ==> !p(scripts[i])
    decreases |scripts|
  {
    if scripts == [] then None
    else if p(scripts[0]) then Some(scripts[0])
    else
      var rest := First(scripts[1..], p);
      assert forall i :: 1 <= i < |scripts| ==> scripts[1..][i - 1] == scripts[i];
      if rest.Some? then
        var i :| 0 <= i < |scripts[1..]| && scripts[1..][i] == rest.value && p(scripts[1..][i])
          && forall j :: 0 <= j < i ==> !p(scripts[1..][j]);
        assert scripts[i + 1] == rest.value;
        rest
      else rest
  }

  /** `(name or "").strip().lower()`. */
  function Normalized(name: string): string
  {
    Lower(Strip(name))
  }

  predicate HasDisplayName(s: LoadedScript, name: string)
  {
    s.info.displayName == name
  }

  predicate HasIdentifier(s: LoadedScript, key: string)
  {
    s.identifier != [] && s.identifier == key
  }

  predicate HasStem(s: LoadedScript, key: string)
  {
    Lower(Stem(s.info.filePath.name)) == key
  }

  predicate HasLegacyKey(s: LoadedScript, key: string)
  {
    exists i :: 0 <= i < |s.legacyKeys| && Lower(s.legacyKeys[i]) == key
  }

  /** `get_script_by_name`: an exact display name wins; otherwise the
      trimmed lower-cased name is tried as identifier, then as lower-cased
      file stem, then as lower-cased legacy key, each over all scripts
      before the next is tried. */
  function ScriptByName(scripts: seq<LoadedScript>, name: string): (r: Option<LoadedScript>)
    ensures r.Some? ==> r.value in scripts
    ensures (exists i :: 0 <= i < |scripts| && HasDisplayName(scripts[i], name)) ==>
      r.Some? && HasDisplayName(r.value, name)
    ensures (forall i :: 0 <= i < |scripts| ==> !HasDisplayName(scripts[i], name)) && Normalized(name) == [] ==>
      r.None?
    ensures r.Some? ==> var key := Normalized(name);
      HasDisplayName(r.value, name)
        || (key != [] && (HasIdentifier(r.value, key) || HasStem(r.value, key) || HasLegacyKey(r.value, key)))
    ensures r.None? ==> var key := Normalized(name);
      forall i :: 0 <= i < |scripts| ==> (!HasDisplayName(scripts[i], name)
        && (key != [] ==> !HasIdentifier(scripts[i], key) && !HasStem(scripts[i], key) && !HasLegacyKey(scripts[i], key)))
  {
    var exact := First(scripts, s => HasDisplayName(s, name));
    var key := Normalized(name);
    if exact.Some? then exact
    else if key == [] then None
    else
      var byId := First(scripts, s => HasIdentifier(s, key));
      if byId.Some? then byId
      else
        var byStem := First(scripts, s => HasStem(s, key));
        if byStem.Some? then byStem
        else First(scripts, s => HasLegacyKey(s, key))
  }

  /** The stem and identifier of a default script agree with its file name:
      an identifier lookup by the file name finds it (or an earlier script
      of the same display name or identifier). */
  lemma DefaultFoundByFileName(scripts: seq<LoadedScript>, f: DefaultFile, i: nat)
    requires i < |scripts| && DefaultLoads(f) && scripts[i] == DefaultScript(f)
    requires Strip(f.name) == f.name && f.name != []
    ensures ScriptByName(scripts, f.name).Some?
  {
    assert Normalized(f.name) == Lower(f.name);
    assert HasIdentifier(scripts[i], Normalized(f.name));
  }

  /** `get_script_by_name`'s scans: the first script satisfying `p`. */
  method FindFirst(scripts: seq<LoadedScript>, p: LoadedScript -> bool) returns (r: Option<LoadedScript>)
    ensures r == First(scripts, p)
  {
    var i := 0;
    while i < |scripts|
      invariant 0 <= i <= |scripts|
      invariant First(scripts[i..], p) == First(scripts, p)
    {
      assert scripts[i..][0] == scripts[i];
      if p(scripts[i]) {
        return Some(scripts[i]);
      }
      assert scripts[i..][1..] == scripts[i + 1..];
      i := i + 1;
    }
    return None;
  }

  // ---------------------------------------------------------------- filtering

  /** Whether `_update_available_scripts` keeps a script: an external one
      while its configured path is valid, a native one while not disabled. */
  predicate Kept(s: LoadedScript, disabled: set<string>, externals: map<string, string>, pathValid: string -> bool)
  {
    var name := s.info.displayName;
    if name in externals then pathValid(externals[name]) else name !in disabled
  }

  /** The available scripts, in discovery order. */
  function Available(scripts: seq<LoadedScript>, disabled: set<string>, externals: map<string, string>,
                     pathValid: string -> bool): (r: seq<LoadedScript>)
    ensures |r| <= |scripts|
    ensures forall s :: s in r <==> s in scripts && Kept(s, disabled, externals, pathValid)
    decreases |scripts|
  {
    if scripts == [] then []
    else
      var init := scripts[..|scripts| - 1];
      var last := scripts[|scripts| - 1];
      assert scripts == init + [last];
      Available(init, disabled, externals, pathValid) + (if Kept(last, disabled, externals, pathValid) then [last] else [])
  }

  /** Filtering keeps the order: the available scripts of two runs of
      scripts are those of the first followed by those of the second. */
  lemma {:induction false} AvailableAppend(a: seq<LoadedScript>, b: seq<LoadedScript>, disabled: set<string>,
                                           externals: map<string, string>, pathValid: string -> bool)
    ensures Available(a + b, disabled, externals, pathValid)
      == Available(a, disabled, externals, pathValid) + Available(b, disabled, externals, pathValid)
    decreases |b|
  {
    if b == [] {
      assert a + b == a;
    } else {
      var init := b[..|b| - 1];
      assert (a + b)[..|a + b| - 1] == a + init;
      assert (a + b)[|a + b| - 1] == b[|b| - 1];
      AvailableAppend(a, init, disabled, externals, pathValid);
    }
  }

  /** With nothing disabled and every external path valid, all scripts stay. */
  lemma {:induction false} AvailableAllKept(scripts: seq<LoadedScript>, externals: map<string, string>, pathValid: string -> bool)
    requires forall n :: n in externals ==> pathValid(externals[n])
    ensures Available(scripts, {}, externals, pathValid) == scripts
    decreases |scripts|
  {
    if scripts != [] {
      AvailableAllKept(scripts[..|scripts| - 1], externals, pathValid);
      assert scripts == scripts[..|scripts| - 1] + [scripts[|scripts| - 1]];
    }
  }

  datatype CollectionEvent =
    | ScriptsDiscovered(scripts: seq<LoadedScript>)
    | ScriptsFiltered(scripts: seq<LoadedScript>)
    | ScriptDisabled(name: string)
    | ScriptEnabled(name: string)

  class ScriptCollectionModel {
    const loader: ScriptLoader
    var allScripts: seq<LoadedScript>
    var available: seq<LoadedScript>
    var disabled: set<string>
    var externals: map<string, string>
    /** The "disabled scripts" and "external scripts" settings. */
    var storedDisabled: set<string>
    var storedExternals: map<string, string>
    var events: seq<CollectionEvent>

    ghost predicate Valid()
      reads this, loader
    {
      loader.Valid()
    }

    constructor(loader: ScriptLoader, storedDisabled: set<string>, storedExternals: map<string, string>)
      requires loader.Valid()
      ensures Valid() && this.loader == loader
      ensures allScripts == [] && available == [] && disabled == {} && externals == map[] && events == []
      ensures this.storedDisabled == storedDisabled && this.storedExternals == storedExternals
    {
      this.loader := loader;
      allScripts := [];
      available := [];
      disabled := {};
      externals := map[];
      this.storedDisabled := storedDisabled;
      this.storedExternals := storedExternals;
      events := [];
    }

    /** `get_script_by_name`. */
    method GetScriptByName(name: string) returns (r: Option<LoadedScript>)
      ensures r == ScriptByName(allScripts, name)
    {
      r := FindFirst(allScripts, s => HasDisplayName(s, name));
      if r.Some? {
        return;
      }
      var key := Normalized(name);
      if key == [] {
        return None;
      }
      r := FindFirst(allScripts, s => HasIdentifier(s, key));
      if r.Some? {
        return;
      }
      r := FindFirst(allScripts, s => HasStem(s, key));
      if r.Some? {
        return;
      }
      r := FindFirst(allScripts, s => HasLegacyKey(s, key));
    }

    /** `_update_available_scripts`: the settings are read again and the
        scripts filtered in discovery order. */
    method UpdateAvailable(pathValid: string -> bool)
      modifies this
      ensures disabled == storedDisabled && externals == storedExternals
      ensures available == Available(allScripts, disabled, externals, pathValid)
      ensures events == old(events) + [ScriptsFiltered(available)]
      ensures allScripts == old(allScripts) && storedDisabled == old(storedDisabled) && storedExternals == old(storedExternals)
    {
      disabled := storedDisabled;
      externals := storedExternals;
      var kept: seq<LoadedScript> := [];
      var i := 0;
      while i < |allScripts|
        invariant 0 <= i <= |allScripts|
        invariant kept == Available(allScripts[..i], disabled, externals, pathValid)
      {
        var script := allScripts[i];
        assert allScripts[..i + 1] == allScripts[..i] + [script];
        var name := script.info.displayName;
        var isExternal := name in externals;
        if !isExternal && name in disabled {
        } else if isExternal && !pathValid(externals[name]) {
        } else {
          kept := kept + [script];
        }
        i := i + 1;
      }
      assert allScripts[..i] == allScripts;
      available := kept;
      events := events + [ScriptsFiltered(available)];
    }

    /** `discover_scripts`: the loader discovers again and the filter is
        applied to what it found. */
    method DiscoverScripts(directoryExists: bool, files: seq<DefaultFile>, entries: seq<ExternalEntry>,
                           pathValid: string -> bool)
      returns (r: seq<LoadedScript>)
      requires Valid()
      modifies this, loader
      ensures Valid()
      ensures SortedByName(allScripts)
      ensures r == available && available == Available(allScripts, storedDisabled, storedExternals, pathValid)
      ensures events == old(events) + [ScriptsDiscovered(allScripts), ScriptsFiltered(available)]
    {
      allScripts := loader.DiscoverScripts(directoryExists, files, entries);
      events := events + [ScriptsDiscovered(allScripts)];
      UpdateAvailable(pathValid);
      r := available;
    }

    /** `disable_script`: only a script that exists and is not external is
        disabled, in memory and in the settings. */
    method DisableScript(name: string, pathValid: string -> bool)
      modifies this
      ensures ScriptByName(old(allScripts), name).Some? && name !in old(externals) ==>
        Disabled(name, pathValid, old(storedDisabled), old(events))
      ensures ScriptByName(old(allScripts), name).None? || name in old(externals) ==> unchanged(this)
      ensures allScripts == old(allScripts) && storedExternals == old(storedExternals)
    {
      var script := GetScriptByName(name);
      if script.Some? && name !in externals {
        Disable(name, pathValid);
      }
    }

    /** The state after `name` was added to the disabled scripts. */
    ghost predicate Disabled(name: string, pathValid: string -> bool, storedDisabled0: set<string>,
                             events0: seq<CollectionEvent>)
      reads this
    {
      && storedDisabled == storedDisabled0 + {name}
      && disabled == storedDisabled && externals == storedExternals
      && available == Available(allScripts, disabled, externals, pathValid)
      && events == events0 + [ScriptsFiltered(available), ScriptDisabled(name)]
    }

    method Disable(name: string, pathValid: string -> bool)
      modifies this
      ensures Disabled(name, pathValid, old(storedDisabled), old(events))
      ensures allScripts == old(allScripts) && storedExternals == old(storedExternals)
    {
      disabled := disabled + {name};
      storedDisabled := storedDisabled + {name};
      UpdateAvailable(pathValid);
      events := events + [ScriptDisabled(name)];
    }

    /** `enable_script`: only a currently disabled name is enabled. */
    method EnableScript(name: string, pathValid: string -> bool)
      modifies this
      ensures name in old(disabled) ==>
        && storedDisabled == old(storedDisabled) - {name}
        && disabled == storedDisabled && externals == storedExternals
        && available == Available(allScripts, disabled, externals, pathValid)
        && events == old(events) + [ScriptsFiltered(available), ScriptEnabled(name)]
      ensures name !in old(disabled) ==> unchanged(this)
      ensures allScripts == old(allScripts) && storedExternals == old(storedExternals)
    {
      if name in disabled {
        disabled := disabled - {name};
        storedDisabled := storedDisabled - {name};
        UpdateAvailable(pathValid);
        events := events + [ScriptEnabled(name)];
      }
    }
  }

  /** A disabled native script is not available. */
  lemma DisabledNotAvailable(scripts: seq<LoadedScript>, disabled: set<string>, externals: map<string, string>,
                             pathValid: string -> bool, name: string)
    requires name in disabled && name !in externals
    ensures forall s :: s in Available(scripts, disabled, externals, pathValid) ==> s.info.displayName != name
  {
  }

  /** An enabled native script is available. */
  lemma EnabledAvailable(scripts: seq<LoadedScript>, disabled: set<string>, externals: map<string, string>,
                         pathValid: string -> bool, name: string)
    requires name !in disabled && name !in externals
    ensures forall s :: s in scripts && s.info.displayName == name ==> s in Available(scripts, disabled, externals, pathValid)
  {
  }

  // ---------------------------------------------------------------- execution

  /** A worker thread, as the request it runs. */
  datatype Worker = Worker(scriptKey: string, arguments: map<string, PyValue>)

  datatype ExecutionEvent =
    | ExecutionStarted(name: string)
    | ExecutionCompleted(name: string, report: RunReport)
    | ExecutionFailed(name: string, error: string)

  /** The key a script is executed under: its identifier, or its lower-cased
      file stem when it has none. */
  function ScriptKey(s: LoadedScript): (r: string)
    ensures s.identifier != [] ==> r == s.identifier
    ensures s.identifier == [] ==> r == Lower(Stem(s.info.filePath.name))
  {
    if s.identifier != [] then s.identifier else Lower(Stem(s.info.filePath.name))
  }

  /** `result.get('success', False)`. */
  predicate Succeeded(r: RunReport)
  {
    r.Ran? && r.result.success
  }

  /** `result.get('message', 'Unknown error')`. */
  function ReportMessage(r: RunReport): string
  {
    if r.NotRun? then r.message else r.result.message
  }

  /** Strategies that call into the script itself and must stay on the main thread. */
  predicate RunsInline(strategy: ExecutionStrategy)
  {
    strategy == FunctionCall || strategy == ModuleExec
  }

  class ScriptExecutionModel {
    const collection: ScriptCollectionModel
    var results: map<string, RunReport>
    var workers: map<string, Worker>
    var events: seq<ExecutionEvent>

    ghost predicate Valid()
      reads collection, collection.loader, collection.loader.executor
    {
      collection.Valid() && collection.loader.executor.Valid()
    }

    constructor(collection: ScriptCollectionModel)
      ensures this.collection == collection && results == map[] && workers == map[] && events == []
    {
      this.collection := collection;
      results := map[];
      workers := map[];
      events := [];
    }

    /** `execute_script`: a running name is refused, an unknown one fails;
        otherwise the run is launched. */
    method ExecuteScript(name: string, arguments: Option<map<string, PyValue>>, async: bool,
                         env: Environment, now: real)
      returns (ok: bool)
      requires Valid()
      modifies this, collection.loader.executor
      ensures Valid()
      ensures name in old(workers) ==>
        && !ok && workers == old(workers) && results == old(results)
        && events == old(events) + [ExecutionFailed(name, "Script is already running")]
        && unchanged(collection.loader.executor)
      ensures name !in old(workers) && ScriptByName(collection.allScripts, name).None? ==>
        && !ok && workers == old(workers) && results == old(results)
        && events == old(events) + [ExecutionFailed(name, "Script not found: " + name)]
        && unchanged(collection.loader.executor)
      ensures name !in old(workers) && ScriptByName(collection.allScripts, name).Some? ==>
        Launched(name, ScriptByName(collection.allScripts, name).value, arguments, async, env, now, ok,
                 old(workers), old(results), old(events), old(collection.loader.executor.order),
                 old(collection.loader.executor.accessTimes), old(collection.loader.executor.lastCleanup))
    {
      if name in workers {
        events := events + [ExecutionFailed(name, "Script is already running")];
        return false;
      }
      var found := collection.GetScriptByName(name);
      if found.None? {
        events := events + [ExecutionFailed(name, "Script not found: " + name)];
        return false;
      }
      ok := Launch(name, found.value, arguments, async, env, now);
    }

    /** What launching `script` under `name` did, from the state before: an
        asynchronous request of a strategy that may leave the main thread
        became a worker; any other run went through the loader with the
        given arguments (or none), its report, the one the loader's
        `Reported` describes for the executor's cache before the run, was
        stored and its success returned. */
    ghost predicate Launched(name: string, script: LoadedScript, arguments: Option<map<string, PyValue>>, async: bool,
                             env: Environment, now: real, ok: bool, workers0: map<string, Worker>,
                             results0: map<string, RunReport>, events0: seq<ExecutionEvent>,
                             order0: seq<string>, times0: map<string, real>, last0: real)
      reads this, collection, collection.loader, collection.loader.executor
    {
      var request := Worker(ScriptKey(script), if arguments.Some? then arguments.value else map[]);
      if async && !RunsInline(script.info.strategy) then
        && ok && workers == workers0[name := request] && results == results0
        && events == events0 + [ExecutionStarted(name)]
      else
        && workers == workers0
        && name in results && results == results0[name := results[name]]
        && ok == Succeeded(results[name])
        && (collection.loader.Valid() && collection.loader.GetScript(request.scriptKey).None? ==> results[name] == NotRun(NotFoundMessage(request.scriptKey)))
        && collection.loader.Reported(request.scriptKey, request.arguments, env, now, results[name], order0, times0, last0)
        && events == events0 + [ExecutionStarted(name),
             if ok then ExecutionCompleted(name, results[name]) else ExecutionFailed(name, ReportMessage(results[name]))]
    }

    method Launch(name: string, script: LoadedScript, arguments: Option<map<string, PyValue>>, async: bool,
                  env: Environment, now: real)
      returns (ok: bool)
      requires Valid()
      modifies this, collection.loader.executor
      ensures Valid()
      ensures Launched(name, script, arguments, async, env, now, ok, old(workers), old(results), old(events),
                       old(collection.loader.executor.order), old(collection.loader.executor.accessTimes),
                       old(collection.loader.executor.lastCleanup))
      ensures async && !RunsInline(script.info.strategy) ==> unchanged(collection.loader.executor)
    {
      events := events + [ExecutionStarted(name)];
      var key := ScriptKey(script);
      var args := if arguments.Some? then arguments.value else map[];
      if async && !RunsInline(script.info.strategy) {
        workers := workers[name := Worker(key, args)];
        return true;
      }
      ghost var started := events;
      ok := RunInline(name, key, args, env, now);
      ghost var last := if ok then ExecutionCompleted(name, results[name]) else ExecutionFailed(name, ReportMessage(results[name]));
      assert events == started + [last];
      assert started + [last] == old(events) + [ExecutionStarted(name), last];
    }

    /** The synchronous branch of `execute_script`. */
    method RunInline(name: string, key: string, args: map<string, PyValue>, env: Environment, now: real)
      returns (ok: bool)
      requires Valid()
      modifies this, collection.loader.executor
      ensures Valid()
      ensures workers == old(workers)
      ensures name in results && results == old(results)[name := results[name]]
      ensures ok == Succeeded(results[name])
      ensures collection.loader.GetScript(key).None? ==> results[name] == NotRun(NotFoundMessage(key))
      ensures collection.loader.Reported(key, args, env, now, results[name], old(collection.loader.executor.order),
                                        old(collection.loader.executor.accessTimes), old(collection.loader.executor.lastCleanup))
      ensures events == old(events) + [if ok then ExecutionCompleted(name, results[name])
                                       else ExecutionFailed(name, ReportMessage(results[name]))]
    {
      var report := collection.loader.ExecuteScript(key, Some(args), _ => map[], env, now);
      results := results[name := report];
      ok := Succeeded(report);
      if ok {
        events := events + [ExecutionCompleted(name, report)];
      } else {
        events := events + [ExecutionFailed(name, ReportMessage(report))];
      }
    }

    /** `cancel_script_execution`: a running name always loses its worker,
        whichever way the thread ends. */
    method CancelExecution(name: string) returns (cancelled: bool)
      modifies this
      ensures cancelled <==> name in old(workers)
      ensures workers == old(workers) - {name} && results == old(results)
      ensures events == old(events) + (if cancelled then [ExecutionFailed(name, "Execution cancelled by user")] else [])
    {
      if name !in workers {
        return false;
      }
      workers := workers - {name};
      events := events + [ExecutionFailed(name, "Execution cancelled by user")];
      return true;
    }

    /** `_handle_execution_completed`. */
    method HandleCompleted(name: string, report: RunReport)
      modifies this
      ensures results == old(results)[name := report] && workers == old(workers)
      ensures events == old(events) + [ExecutionCompleted(name, report)]
    {
      results := results[name := report];
      events := events + [ExecutionCompleted(name, report)];
    }

    /** `_handle_execution_failed`. */
    method HandleFailed(name: string, error: string)
      modifies this
      ensures results == old(results) && workers == old(workers)
      ensures events == old(events) + [ExecutionFailed(name, error)]
    {
      events := events + [ExecutionFailed(name, error)];
    }

    /** `_cleanup_worker`: a finished worker stops counting as running. */
    method CleanupWorker(name: string)
      modifies this
      ensures workers == old(workers) - {name} && results == old(results) && events == old(events)
    {
      workers := workers - {name};
    }

    /** `is_script_running`. */
    predicate IsRunning(name: string)
      reads this
    {
      name in workers
    }
  }

  // ---------------------------------------------------------------- hotkeys

  datatype HotkeyModelEvent =
    | HotkeyRegistered(script: string, hotkey: string)
    | HotkeyUnregistered(script: string)
    | HotkeysChanged
    | RegistrationFailed(script: string, hotkey: string, error: string)

  class HotkeyModel {
    const registry: HotkeyRegistry
    var cache: map<string, string>
    var events: seq<HotkeyModelEvent>

    /** The cache mirrors the registry's assignments. */
    ghost predicate Valid()
      reads this, registry
    {
      registry.Valid() && cache == registry.forward
    }

    /** `__init__` with `_load_hotkeys`: the cache starts as a copy of the
        registry's mappings. */
    constructor(registry: HotkeyRegistry)
      requires registry.Valid()
      ensures Valid() && this.registry == registry && events == []
    {
      this.registry := registry;
      cache := registry.forward;
      events := [];
    }

    /** `get_hotkey_for_script`. */
    function HotkeyForScript(script: string): (r: Option<string>)
      reads this, registry
      requires Valid()
      ensures r.Some? <==> registry.GetHotkey(script).Some?
      ensures r.Some? ==> r == registry.GetHotkey(script)
    {
      if script in cache then Some(cache[script]) else None
    }

    /** `is_hotkey_available`: free, or held by the excluded script. */
    function IsHotkeyAvailable(hotkey: string, exclude: Option<string>): (r: bool)
      reads this, registry
      requires Valid()
      ensures r <==> registry.HotkeyConflict(hotkey, exclude).None?
    {
      var holder := registry.ScriptForHotkey(hotkey);
      holder.None? || holder == exclude
    }

    /** `set_hotkey_for_script` as written, over `add_hotkey` as written: on
        success the cache takes the hotkey as passed, while the registry keeps
        it stripped. A whitespace-only hotkey is accepted: the cache holds it
        as passed and the registry holds "", which breaks the registry's
        invariant. */
    method SetHotkeyAsWritten(script: string, hotkey: string)
      requires Valid()
      modifies this, registry
      ensures var r := AddAsWritten(old(registry.forward), old(registry.reverse), script, hotkey);
        && (r.Ok? ==> cache == old(cache)[script := hotkey] && registry.forward == r.value.0
                      && events == old(events) + [HotkeyRegistered(script, hotkey), HotkeysChanged])
        && (r.Err? ==> cache == old(cache) && registry.forward == old(registry.forward)
                       && events == old(events) + [RegistrationFailed(script, hotkey, r.error)])
      ensures Strip(hotkey) != "" ==> registry.Valid()
      ensures var h := Strip(hotkey);
        var ok := script != "" && h != "" && (h !in old(registry.reverse) || old(registry.reverse)[h] == script);
        h != "" ==> (ok <==> AddAsWritten(old(registry.forward), old(registry.reverse), script, hotkey).Ok?)
      ensures AddAsWritten(old(registry.forward), old(registry.reverse), script, hotkey).Ok? && Strip(hotkey) != hotkey ==>
        script in cache && script in registry.forward && cache[script] != registry.forward[script]
      ensures script != "" && hotkey != "" && Strip(hotkey) == "" ==>
        && script in cache && cache[script] == hotkey
        && script in registry.forward && registry.forward[script] == ""
        && !registry.Valid()
    {
      ghost var f0, r0 := registry.forward, registry.reverse;
      if Strip(hotkey) != "" {
        AddAsWrittenAgrees(f0, r0, script, hotkey);
      }
      var ok, error := registry.AddHotkeyAsWritten(script, hotkey);
      if ok {
        cache := cache[script := hotkey];
        events := events + [HotkeyRegistered(script, hotkey), HotkeysChanged];
      } else {
        events := events + [RegistrationFailed(script, hotkey, error)];
      }
    }

    /** `set_hotkey_for_script`, caching what the registry stored: the cache
        changes only when the registry accepts, and then the script holds
        the stripped hotkey and no other script can take it. */
    method SetHotkeyForScript(script: string, hotkey: string)
      requires Valid()
      modifies this, registry
      ensures Valid()
      ensures var h := Strip(hotkey);
        var ok := script != "" && h != "" && (h !in old(registry.reverse) || old(registry.reverse)[h] == script);
        && (ok ==> cache == old(cache)[script := h] && events == old(events) + [HotkeyRegistered(script, h), HotkeysChanged])
        && (ok ==> IsHotkeyAvailable(h, Some(script)) && forall other :: other != script ==> !IsHotkeyAvailable(h, Some(other)))
        && (!ok ==> cache == old(cache) && registry.forward == old(registry.forward)
                    && exists e :: events == old(events) + [RegistrationFailed(script, hotkey, e)])
    {
      var ok, error := registry.AddHotkey(script, hotkey);
      if ok {
        var h := Strip(hotkey);
        cache := cache[script := h];
        events := events + [HotkeyRegistered(script, h), HotkeysChanged];
      } else {
        events := events + [RegistrationFailed(script, hotkey, error)];
      }
    }

    /** `remove_hotkey_for_script`: a cached script loses its hotkey in the
        registry and in the cache; another name changes nothing. */
    method RemoveHotkeyForScript(script: string)
      requires Valid()
      modifies this, registry
      ensures Valid()
      ensures cache == old(cache) - {script}
      ensures script in old(cache) ==> (events == old(events) + [HotkeyUnregistered(script), HotkeysChanged]
        && old(cache)[script] !in registry.reverse)
      ensures script !in old(cache) ==> events == old(events) && registry.forward == old(registry.forward)
    {
      if script in cache {
        var removed := registry.RemoveHotkey(script);
        if removed {
          cache := cache - {script};
          events := events + [HotkeyUnregistered(script), HotkeysChanged];
        }
      }
    }
  }
}
