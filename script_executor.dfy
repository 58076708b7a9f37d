/**
 * The single-shot execution engine: dispatch on the execution strategy, the
 * subprocess command line and the interpretation of its output, the
 * normalisation of a `main()` return value, argument validation, and the
 * bounded LRU / TTL cache of loaded modules.
 *
 * Everything the engine asks of the operating system or of the Python
 * interpreter is an input: the process outcome (`ProcessOutcome`), the JSON
 * parser, whether a reload succeeds, the outcome of loading a module
 * (`LoadOutcome`), what calling `main()` does (`CallOutcome`), and the clock.
 */
module Executor {
  import opened Text
  import opened Values
  import opened Analysis

  const DEFAULT_MAX_CACHE_SIZE: int := 20
  const DEFAULT_CACHE_TTL_SECONDS: int := 1800
  const CLEANUP_PERIOD_SECONDS: real := 300.0
  const DEFAULT_TIMEOUT_SECONDS: int := 30
  const SUCCESS_MESSAGE: string := "Script executed successfully"

  datatype ExecutionResult = ExecutionResult(
    success: bool,
    message: string,
    output: string,
    error: string,
    returnCode: Option<int>,
    data: Option<PyValue>)

  /** `ExecutionResult(success=False, error=...)`. */
  function Failure(error: string): (r: ExecutionResult)
    ensures !r.success && r.error == error && r.message == "" && r.output == "" && r.data.None?
  {
    ExecutionResult(false, "", "", error, None, None)
  }

  // ------------------------------------------------------------ command line

  /** The declared arguments that were supplied with a value other than
      None or "", in declaration order. */
  function Supplied(decl: seq<ArgumentInfo>, args: map<string, PyValue>): (r: seq<ArgumentInfo>)
    ensures |r| <= |decl|
    ensures forall i :: 0 <= i < |r| ==> r[i] in decl && r[i].name in args && Present(args[r[i].name])
    ensures forall a :: a in decl && a.name in args && Present(args[a.name]) ==> a in r
  {
    if decl == [] then []
    else
      var a := decl[0];
      (if a.name in args && Present(args[a.name]) then [a] else []) + Supplied(decl[1..], args)
  }

  /** `--name value` for each of the given arguments. */
  function Flags(supplied: seq<ArgumentInfo>, args: map<string, PyValue>): (r: seq<string>)
    requires forall i :: 0 <= i < |supplied| ==> supplied[i].name in args
    ensures |r| == 2 * |supplied|
  {
    if supplied == [] then []
    else ["--" + supplied[0].name, Str(args[supplied[0].name])] + Flags(supplied[1..], args)
  }

  /** The flags come in pairs: the i-th argument's `--name` then its value. */
  lemma {:induction false} FlagsPair(supplied: seq<ArgumentInfo>, args: map<string, PyValue>, i: nat)
    requires forall k :: 0 <= k < |supplied| ==> supplied[k].name in args
    requires i < |supplied|
    ensures Flags(supplied, args)[2 * i] == "--" + supplied[i].name
    ensures Flags(supplied, args)[2 * i + 1] == Str(args[supplied[i].name])
  {
    if i > 0 {
      FlagsPair(supplied[1..], args, i - 1);
      var rest := Flags(supplied[1..], args);
      assert Flags(supplied, args)[2 * i] == rest[2 * (i - 1)];
      assert Flags(supplied, args)[2 * i + 1] == rest[2 * (i - 1) + 1];
    }
  }

  predicate MissingRequired(a: ArgumentInfo, args: map<string, PyValue>)
  {
    a.required && a.name !in args
  }

  function MissingMessage(name: string): string
  {
    "Required argument '" + name + "' not provided"
  }

  /** The argument part of the subprocess command, or the error for the
      first declared required argument that was not supplied. */
  function ArgFlags(decl: seq<ArgumentInfo>, args: map<string, PyValue>): Result<seq<string>, string>
  {
    if decl == [] then Ok([])
    else
      var a := decl[0];
      if a.name in args then
        var rest := ArgFlags(decl[1..], args);
        if rest.Err? then rest
        else if Present(args[a.name]) then Ok(["--" + a.name, Str(args[a.name])] + rest.value)
        else rest
      else if a.required then Err(MissingMessage(a.name))
      else ArgFlags(decl[1..], args)
  }

  /** The command fails exactly when a declared required argument is missing,
      and then names the first such argument in declaration order. */
  lemma {:induction false} ArgFlagsFails(decl: seq<ArgumentInfo>, args: map<string, PyValue>)
    ensures ArgFlags(decl, args).Err? <==> exists i :: 0 <= i < |decl| && MissingRequired(decl[i], args)
    ensures ArgFlags(decl, args).Err? ==>
      exists i :: 0 <= i < |decl| && MissingRequired(decl[i], args)
        && ArgFlags(decl, args).error == MissingMessage(decl[i].name)
        && forall j :: 0 <= j < i ==> !MissingRequired(decl[j], args)
  {
    if decl != [] {
      ArgFlagsFails(decl[1..], args);
      if ArgFlags(decl[1..], args).Err? {
        var i :| 0 <= i < |decl[1..]| && MissingRequired(decl[1..][i], args)
          && ArgFlags(decl[1..], args).error == MissingMessage(decl[1..][i].name)
          && forall j :: 0 <= j < i ==> !MissingRequired(decl[1..][j], args);
        if !MissingRequired(decl[0], args) {
          assert MissingRequired(decl[i + 1], args);
          forall j | 0 <= j < i + 1 ensures !MissingRequired(decl[j], args) {
            if j > 0 { assert decl[j] == decl[1..][j - 1]; }
          }
        }
      } else if !MissingRequired(decl[0], args) {
        forall i | 0 <= i < |decl| ensures !MissingRequired(decl[i], args) {
          if i > 0 { assert decl[i] == decl[1..][i - 1]; }
        }
      }
    }
  }

  /** Without a missing required argument, the command carries `--name value`
      for exactly the supplied declared arguments, in declaration order;
      undeclared arguments are dropped. */
  lemma {:induction false} ArgFlagsSucceeds(decl: seq<ArgumentInfo>, args: map<string, PyValue>)
    requires forall i :: 0 <= i < |decl| ==> !MissingRequired(decl[i], args)
    ensures ArgFlags(decl, args) == Ok(Flags(Supplied(decl, args), args))
  {
    if decl != [] {
      ArgFlagsSucceeds(decl[1..], args);
      var a := decl[0];
      var rest := Supplied(decl[1..], args);
      if a.name in args && Present(args[a.name]) {
        assert Supplied(decl, args) == [a] + rest;
        assert ([a] + rest)[1..] == rest;
      } else {
        assert Supplied(decl, args) == rest;
      }
    }
  }

  function Prepend(flags: seq<string>, r: Result<seq<string>, string>): Result<seq<string>, string>
  {
    match r
    case Ok(v) => Ok(flags + v)
    case Err(e) => Err(e)
  }

  /** The command loop of `_execute_subprocess`: the interpreter, the script
      path, then the flags, or the missing-argument error. */
  method BuildCommand(interpreter: string, path: string, decl: seq<ArgumentInfo>, args: map<string, PyValue>)
    returns (cmd: Result<seq<string>, string>)
    ensures cmd == Prepend([interpreter, path], ArgFlags(decl, args))
  {
    var line := [interpreter, path];
    var i := 0;
    while i < |decl|
      invariant 0 <= i <= |decl|
      invariant Prepend(line, ArgFlags(decl[i..], args)) == Prepend([interpreter, path], ArgFlags(decl, args))
    {
      var a := decl[i];
      assert decl[i..][1..] == decl[i + 1..];
      assert decl[i..][0] == a;
      if a.name in args {
        var value := args[a.name];
        if Present(value) {
          var rest := ArgFlags(decl[i + 1..], args);
          if rest.Ok? {
            assert line + ["--" + a.name, Str(value)] + rest.value == line + (["--" + a.name, Str(value)] + rest.value);
          }
          line := line + ["--" + a.name, Str(value)];
        }
      } else if a.required {
        assert ArgFlags(decl[i..], args) == Err(MissingMessage(a.name));
        return Err(MissingMessage(a.name));
      }
      i := i + 1;
    }
    assert decl[i..] == [];
    assert line + [] == line;
    cmd := Ok(line);
  }

  // ------------------------------------------------------------ subprocess result

  datatype ProcessOutcome =
    | Completed(returnCode: int, stdout: string, stderr: string)
    | TimedOut(killedCode: int, partialOut: string, partialErr: string)
    | LaunchFailed(reason: string)

  /** Interpreting a finished process: success is exit code 0 unless the
      whole stripped output parses as a JSON object, whose "success" and
      "message" then override. */
  function Interpret(returnCode: int, stdout: string, stderr: string, parseJson: string -> Option<PyValue>): (r: ExecutionResult)
    ensures r.output == Strip(stdout) && r.error == Strip(stderr) && r.returnCode == Some(returnCode)
    ensures Strip(stdout) == [] ==> r.data.None? && r.message == [] && (r.success <==> returnCode == 0)
  {
    var output := Strip(stdout);
    var error := Strip(stderr);
    var data := if output == [] then None else parseJson(output);
    if data.Some? && data.value.PyDict? then
      var entries := data.value.entries;
      var success := Truthy(Get(entries, "success", PyBool(returnCode == 0)));
      var message := Str(Get(entries, "message", PyStr(output)));
      ExecutionResult(success, message, output, error, Some(returnCode), data)
    else
      ExecutionResult(returnCode == 0, output, output, error, Some(returnCode), data)
  }

  /** Output that is not a JSON object leaves exit-code success and the raw
      output as the message; a JSON object's keys override them, each only
      when present. */
  lemma InterpretOverrides(returnCode: int, stdout: string, stderr: string, parseJson: string -> Option<PyValue>)
    ensures var r := Interpret(returnCode, stdout, stderr, parseJson);
      var output := Strip(stdout);
      && (output == [] || !parseJson(output).Some? || !parseJson(output).value.PyDict? ==>
            (r.success <==> returnCode == 0) && r.message == output)
      && (output != [] && parseJson(output).Some? && parseJson(output).value.PyDict? ==>
            var e := parseJson(output).value.entries;
            && r.data == parseJson(output)
            && ("success" !in e ==> (r.success <==> returnCode == 0))
            && ("success" in e ==> (r.success <==> Truthy(e["success"])))
            && ("message" !in e ==> r.message == output)
            && ("message" in e ==> r.message == Str(e["message"])))
  {
    var output := Strip(stdout);
    var r := Interpret(returnCode, stdout, stderr, parseJson);
    if output != [] && parseJson(output).Some? && parseJson(output).value.PyDict? {
      var e := parseJson(output).value.entries;
      var s := Get(e, "success", PyBool(returnCode == 0));
      var m := Get(e, "message", PyStr(output));
      assert r.success == Truthy(s) && r.message == Str(m);
      if "success" !in e {
        assert s == PyBool(returnCode == 0);
      }
      if "message" !in e {
        assert m == PyStr(output);
      }
    } else {
      assert r.success == (returnCode == 0) && r.message == output;
    }
  }

  function TimeoutMessage(seconds: int): string
  {
    "Script execution timed out (" + IntToString(seconds) + " seconds)"
  }

  /** `_execute_subprocess`. */
  function SubprocessResult(info: ScriptInfo, args: map<string, PyValue>, interpreter: string,
                            timeoutSetting: Option<int>, outcome: ProcessOutcome,
                            parseJson: string -> Option<PyValue>): ExecutionResult
  {
    match Prepend([interpreter, info.filePath.text], ArgFlags(info.arguments, args))
    case Err(e) => Failure(e)
    case Ok(_) =>
      var timeout := if timeoutSetting.Some? then timeoutSetting.value else DEFAULT_TIMEOUT_SECONDS;
      match outcome
      case Completed(rc, out, err) => Interpret(rc, out, err, parseJson)
      case TimedOut(rc, out, err) =>
        ExecutionResult(false, TimeoutMessage(timeout), Strip(out), Strip(err), Some(rc), None)
      case LaunchFailed(reason) => Failure("Subprocess execution failed: " + reason)
  }

  /** A missing required argument fails before the process is launched: the
      result does not depend on the process outcome at all. */
  lemma MissingArgumentFailsBeforeLaunch(info: ScriptInfo, args: map<string, PyValue>, interpreter: string,
                                         timeoutSetting: Option<int>, o1: ProcessOutcome, o2: ProcessOutcome,
                                         parseJson: string -> Option<PyValue>, i: nat)
    requires i < |info.arguments| && MissingRequired(info.arguments[i], args)
    ensures var r := SubprocessResult(info, args, interpreter, timeoutSetting, o1, parseJson);
      && r == SubprocessResult(info, args, interpreter, timeoutSetting, o2, parseJson)
      && !r.success && StartsWith(r.error, "Required argument '")
  {
    ArgFlagsFails(info.arguments, args);
    var e := ArgFlags(info.arguments, args).error;
    var j :| 0 <= j < |info.arguments| && MissingRequired(info.arguments[j], args)
      && e == MissingMessage(info.arguments[j].name);
    assert e[..|"Required argument '"|] == "Required argument '";
  }

  /** A timed-out process fails with the timeout from the settings, 30
      seconds without settings. */
  lemma TimeoutFails(info: ScriptInfo, args: map<string, PyValue>, interpreter: string,
                     timeoutSetting: Option<int>, rc: int, out: string, err: string,
                     parseJson: string -> Option<PyValue>)
    requires ArgFlags(info.arguments, args).Ok?
    ensures var r := SubprocessResult(info, args, interpreter, timeoutSetting, TimedOut(rc, out, err), parseJson);
      && !r.success && r.returnCode == Some(rc)
      && r.message == TimeoutMessage(if timeoutSetting.Some? then timeoutSetting.value else 30)
  {
  }

  // ------------------------------------------------------------ main() return values

  /** The normalisation of the value returned by a script's `main()`. */
  function NormalizeReturn(v: PyValue): (r: ExecutionResult)
    ensures r.error == "" && r.output == "" && r.returnCode.None?
  {
    match v
    case PyNone => ExecutionResult(true, SUCCESS_MESSAGE, "", "", None, None)
    case PyDict(entries, _) =>
      ExecutionResult(Truthy(Get(entries, "success", PyBool(true))),
                      Str(Get(entries, "message", PyStr(SUCCESS_MESSAGE))), "", "", None, Some(v))
    case PyStr(s) => ExecutionResult(true, s, "", "", None, None)
    case PyBool(b) => ExecutionResult(b, if b then SUCCESS_MESSAGE else "Script execution failed", "", "", None, None)
    case _ => ExecutionResult(true, Str(v), "", "", None, None)
  }

  /** A return value reports failure exactly when it is `False` or a dict
      whose "success" is falsy; only dicts are kept as data; the message is
      the returned text, a dict's "message", or `str()` of the value. */
  lemma NormalizeReturnSpec(v: PyValue)
    ensures var r := NormalizeReturn(v);
      && (!r.success <==> v == PyBool(false) || (v.PyDict? && "success" in v.entries && !Truthy(v.entries["success"])))
      && (r.data.Some? <==> v.PyDict?)
      && (v.PyStr? ==> r.message == v.s)
      && (v.PyDict? && "message" in v.entries ==> r.message == Str(v.entries["message"]))
      && (v == PyNone || (v.PyDict? && "message" !in v.entries) ==> r.message == SUCCESS_MESSAGE)
      && (v.PyInt? || v.PyFloat? || v.PyOther? ==> r.message == Str(v))
  {
  }

  // ------------------------------------------------------------ validation

  /** `arg_info.choices and value not in arg_info.choices`. */
  predicate OutsideChoices(a: ArgumentInfo, v: PyValue)
  {
    a.choices.Some? && a.choices.value != [] && !(v.PyStr? && v.s in a.choices.value)
  }

  /** The int check of a declared `int` argument fails. */
  predicate NotAnInteger(a: ArgumentInfo, v: PyValue)
  {
    a.argType == "int" && !IntConvertible(v)
  }

  function ArgumentErrors(a: ArgumentInfo, args: map<string, PyValue>): (r: seq<string>)
    ensures |r| <= 3
  {
    (if a.required && a.name !in args then ["Required argument '" + a.name + "' is missing"] else [])
    + (if a.name in args && OutsideChoices(a, args[a.name])
       then ["Argument '" + a.name + "' must be one of: " + Join(a.choices.value, ", ")] else [])
    + (if a.name in args && NotAnInteger(a, args[a.name])
       then ["Argument '" + a.name + "' must be an integer"] else [])
  }

  /** `validate_arguments`: the error messages of every declared argument, in
      declaration order. */
  function ValidationErrors(decl: seq<ArgumentInfo>, args: map<string, PyValue>): (r: seq<string>)
    ensures |r| <= 3 * |decl|
  {
    if decl == [] then [] else ArgumentErrors(decl[0], args) + ValidationErrors(decl[1..], args)
  }

  /** One declared argument passes validation. */
  predicate ArgumentValid(a: ArgumentInfo, args: map<string, PyValue>)
  {
    && (a.required ==> a.name in args)
    && (a.name in args ==> !OutsideChoices(a, args[a.name]) && !NotAnInteger(a, args[a.name]))
  }

  /** Validation reports nothing exactly when every declared argument is
      supplied where required, within its choices and convertible where
      declared `int`. */
  lemma {:induction false} ValidationErrorsSpec(decl: seq<ArgumentInfo>, args: map<string, PyValue>)
    ensures ValidationErrors(decl, args) == [] <==> forall i :: 0 <= i < |decl| ==> ArgumentValid(decl[i], args)
  {
    if decl != [] {
      ValidationErrorsSpec(decl[1..], args);
      assert ArgumentErrors(decl[0], args) == [] <==> ArgumentValid(decl[0], args);
      if forall i :: 1 <= i < |decl| ==> ArgumentValid(decl[i], args) {
        forall i | 0 <= i < |decl[1..]| ensures ArgumentValid(decl[1..][i], args) {
          assert decl[1..][i] == decl[i + 1];
        }
      }
    }
  }

  /** `get_script_status`. */
  function ScriptStatus(info: ScriptInfo): (r: string)
    ensures r == "Ready" <==> info.isExecutable
    ensures r == "Error" <==> !info.isExecutable
  {
    if !info.isExecutable then "Error" else "Ready"
  }

  // ------------------------------------------------------------ module cache

  predicate NoDuplicates(o: seq<string>)
  {
    forall i, j :: 0 <= i < j < |o| ==> o[i] != o[j]
  }

  /** `o` without `x`. */
  function Without(o: seq<string>, x: string): (r: seq<string>)
    ensures x !in r
    ensures forall y :: y in r <==> y in o && y != x
    ensures |r| <= |o|
  {
    if o == [] then []
    else (if o[0] == x then [] else [o[0]]) + Without(o[1..], x)
  }

  lemma {:induction false} WithoutKeepsDistinct(o: seq<string>, x: string)
    requires NoDuplicates(o)
    ensures NoDuplicates(Without(o, x))
    ensures x in o ==> |Without(o, x)| == |o| - 1
    ensures x !in o ==> Without(o, x) == o
  {
    if o != [] {
      WithoutKeepsDistinct(o[1..], x);
      var rest := Without(o[1..], x);
      if o[0] != x {
        var r := [o[0]] + rest;
        forall i, j | 0 <= i < j < |r| ensures r[i] != r[j] {
          assert r[j] == rest[j - 1];
          if i > 0 { assert r[i] == rest[i - 1]; }
          else { assert r[j] in o[1..]; }
        }
      } else {
        assert x !in o[1..];
      }
    }
  }

  /** `move_to_end`: the least-recently-used order after an access. */
  function MoveToEnd(o: seq<string>, x: string): (r: seq<string>)
    ensures |r| > 0 && r[|r| - 1] == x
    ensures forall y :: y in r <==> y in o || y == x
  {
    Without(o, x) + [x]
  }

  /** `_cache_module`'s eviction: the oldest entry leaves when the cache is full. */
  function Evicted(o: seq<string>, maxSize: int): (r: seq<string>)
    requires |o| < maxSize || o != []
  {
    if |o| >= maxSize then o[1..] else o
  }

  /** `loaded_modules[name] = module`: an existing key keeps its position. */
  function Put(o: seq<string>, x: string): (r: seq<string>)
    ensures x in r && forall y :: y in r <==> y in o || y == x
  {
    if x in o then o else o + [x]
  }

  /** The cache order after `_cache_module`. */
  function CachedOrder(o: seq<string>, x: string, maxSize: int): seq<string>
    requires |o| < maxSize || o != []
  {
    Put(Evicted(o, maxSize), x)
  }

  /** Caching keeps the entries distinct, holds the new name, never exceeds
      a positive maximum, and when the cache was full removes exactly the
      least recently used entry (unless that is the name being cached). */
  lemma CachedOrderSpec(o: seq<string>, x: string, maxSize: int)
    requires NoDuplicates(o) && 1 <= maxSize && |o| <= maxSize
    ensures var r := CachedOrder(o, x, maxSize);
      && NoDuplicates(r) && x in r && |r| <= maxSize
      && (|o| < maxSize ==> forall y :: y in r <==> y in o || y == x)
      && (|o| == maxSize ==> forall y :: y in r <==> (y in o && y != o[0]) || y == x)
  {
    var e := Evicted(o, maxSize);
    assert NoDuplicates(e);
    if |o| == maxSize {
      forall y | y in e ensures y in o && y != o[0] {
        var k :| 0 <= k < |e| && e[k] == y;
        assert o[k + 1] == y;
      }
      forall y | y in o && y != o[0] ensures y in e {
        var k :| 0 <= k < |o| && o[k] == y;
        assert e[k - 1] == y;
      }
    }
    if x !in e {
      var r := e + [x];
      forall i, j | 0 <= i < j < |r| ensures r[i] != r[j] {
        if j == |e| { assert r[i] in e; }
      }
    }
  }

  /** Removing the entries not accessed within the time-to-live. */
  function KeepFresh(o: seq<string>, times: map<string, real>, now: real, ttl: int): (r: seq<string>)
    requires forall y :: y in o ==> y in times
    ensures forall y :: y in r <==> y in o && now - times[y] <= ttl as real
    ensures |r| <= |o|
  {
    if o == [] then []
    else
      var last := o[|o| - 1];
      KeepFresh(o[..|o| - 1], times, now, ttl) + (if now - times[last] <= ttl as real then [last] else [])
  }

  lemma {:induction false} KeepFreshDistinct(o: seq<string>, times: map<string, real>, now: real, ttl: int)
    requires forall y :: y in o ==> y in times
    requires NoDuplicates(o)
    ensures NoDuplicates(KeepFresh(o, times, now, ttl))
  {
    if o != [] {
      var init := o[..|o| - 1];
      var last := o[|o| - 1];
      KeepFreshDistinct(init, times, now, ttl);
      assert last !in init;
    }
  }

  function Restrict(times: map<string, real>, keep: seq<string>): (r: map<string, real>)
    ensures r.Keys == times.Keys * set y | y in keep
    ensures forall y :: y in r ==> r[y] == times[y]
  {
    map y | y in times && y in keep :: times[y]
  }

  // ------------------------------------------------------------ loading and calling

  datatype LoadOutcome = Loaded | NoSpec | LoadRaised(message: string)

  datatype CallOutcome = NoMainFunction | CallRaised(message: string) | CallReturned(value: PyValue)

  /** What the interpreter does on this run: the process outcome, the JSON
      parser, whether a reload succeeds, a fresh load, and the call. */
  datatype Environment = Environment(
    interpreter: string,
    process: ProcessOutcome,
    parseJson: string -> Option<PyValue>,
    reloadSucceeds: bool,
    load: LoadOutcome,
    call: CallOutcome)

  function SpecMessage(info: ScriptInfo): string
  {
    "Could not load module spec for " + info.filePath.text
  }

  /** The name of the function called: `main_function or 'main'`. */
  function MainName(info: ScriptInfo): string
  {
    if info.mainFunction.Some? && info.mainFunction.value != "" then info.mainFunction.value else "main"
  }

  /** Calling the main function of a loaded module. */
  function CallResult(info: ScriptInfo, call: CallOutcome): ExecutionResult
  {
    match call
    case NoMainFunction => Failure("Function '" + MainName(info) + "' not found in script")
    case CallRaised(e) => Failure("Function execution failed: " + e)
    case CallReturned(v) => NormalizeReturn(v)
  }

  /** `OrderedDict.popitem` on an empty cache: raised when the maximum size is
      not positive. */
  const EMPTY_CACHE_ERROR: string := "Function execution failed: 'dictionary is empty'"

  /** `_execute_module`. Building `sys.argv` has no observable effect. */
  function ModuleResult(info: ScriptInfo, load: LoadOutcome): (r: ExecutionResult)
    ensures r.success <==> load == Loaded
  {
    match load
    case Loaded => ExecutionResult(true, SUCCESS_MESSAGE, "", "", None, None)
    case NoSpec => Failure(SpecMessage(info))
    case LoadRaised(e) => Failure("Module execution failed: " + e)
  }

  /** The cache order after `_cleanup_stale_modules`: unchanged within 300
      seconds of the last cleanup, otherwise only the fresh modules. */
  function AfterCleanup(o: seq<string>, times: map<string, real>, lastCleanup: real, now: real, ttl: int)
    : (r: seq<string>)
    requires forall y :: y in o ==> y in times
    ensures forall y :: y in r ==> y in o
    ensures now - lastCleanup < CLEANUP_PERIOD_SECONDS ==> r == o
  {
    if now - lastCleanup < CLEANUP_PERIOD_SECONDS then o else KeepFresh(o, times, now, ttl)
  }

  /** `_execute_function_call` on the cache order `o`: its result and the
      cache order after it. A cached module is moved to the end and called
      when its reload succeeds; otherwise the module is loaded anew, and
      only a load that succeeds is cached (which fails when the cache is
      empty and its maximum size is below 1) and called. */
  function FunctionCallOutcome(o: seq<string>, info: ScriptInfo, env: Environment, maxSize: int)
    : (res: (ExecutionResult, seq<string>))
    ensures var name := Stem(info.filePath.name);
      name in res.1 <==> name in o || (env.load == Loaded && (o != [] || maxSize > 0))
    ensures forall y :: y in res.1 && y != Stem(info.filePath.name) ==> y in o
    ensures res.0.success ==> env.call.CallReturned? && (env.load == Loaded || (Stem(info.filePath.name) in o && env.reloadSucceeds))
  {
    var name := Stem(info.filePath.name);
    var hit := name in o;
    var touched := if hit then MoveToEnd(o, name) else o;
    if hit && env.reloadSucceeds then (CallResult(info, env.call), touched)
    else
      match env.load
      case NoSpec => (Failure(SpecMessage(info)), touched)
      case LoadRaised(e) => (Failure("Function execution failed: " + e), touched)
      case Loaded =>
        if !hit && o == [] && maxSize <= 0 then (Failure(EMPTY_CACHE_ERROR), o)
        else (CallResult(info, env.call), CachedOrder(touched, name, maxSize))
  }

  function NotExecutableMessage(info: ScriptInfo): string
  {
    "Script is not executable: " + (if info.error.Some? then info.error.value else "None")
  }

  class ScriptExecutor {
    /** The keys of `loaded_modules`, least recently used first. */
    var order: seq<string>
    var accessTimes: map<string, real>
    var maxCacheSize: int
    var cacheTtl: int
    var lastCleanup: real
    /** The script timeout from the settings; None without settings. */
    var timeoutSetting: Option<int>

    ghost predicate Valid()
      reads this
    {
      && NoDuplicates(order)
      && (forall y :: y in accessTimes <==> y in order)
      && (|order| <= maxCacheSize || order == [])
    }

    constructor(timeoutSetting: Option<int>, maxCacheSize: int, cacheTtl: int, now: real)
      ensures Valid()
      ensures order == [] && accessTimes == map[] && lastCleanup == now
      ensures this.maxCacheSize == maxCacheSize && this.cacheTtl == cacheTtl && this.timeoutSetting == timeoutSetting
    {
      order := [];
      accessTimes := map[];
      this.maxCacheSize := maxCacheSize;
      this.cacheTtl := cacheTtl;
      lastCleanup := now;
      this.timeoutSetting := timeoutSetting;
    }

    /** `_cache_module`: evict the least recently used entry when full, then
        store the name with its access time. Fails, changing nothing, when
        the cache is empty and yet full (a maximum size below 1). */
    method CacheModule(name: string, now: real) returns (ok: bool)
      requires Valid()
      modifies this
      ensures Valid()
      ensures ok <==> |old(order)| < maxCacheSize || old(order) != []
      ensures !ok ==> order == old(order) && accessTimes == old(accessTimes)
      ensures ok ==> order == CachedOrder(old(order), name, maxCacheSize)
      ensures ok && |old(order)| >= maxCacheSize ==>
        accessTimes == (old(accessTimes) - {old(order)[0]})[name := now]
      ensures ok && |old(order)| < maxCacheSize ==> accessTimes == old(accessTimes)[name := now]
      ensures maxCacheSize == old(maxCacheSize) && cacheTtl == old(cacheTtl)
      ensures lastCleanup == old(lastCleanup) && timeoutSetting == old(timeoutSetting)
    {
      if |order| >= maxCacheSize {
        if order == [] {
          return false;
        }
        accessTimes := accessTimes - {order[0]};
        order := order[1..];
      }
      order := Put(order, name);
      accessTimes := accessTimes[name := now];
      ok := true;
    }

    /** The hit path of `_execute_function_call`: move to the end and record
        the access time. */
    method Touch(name: string, now: real)
      requires Valid() && name in order
      modifies this
      ensures Valid()
      ensures order == MoveToEnd(old(order), name) && accessTimes == old(accessTimes)[name := now]
      ensures maxCacheSize == old(maxCacheSize) && cacheTtl == old(cacheTtl)
      ensures lastCleanup == old(lastCleanup) && timeoutSetting == old(timeoutSetting)
    {
      WithoutKeepsDistinct(order, name);
      var rest := Without(order, name);
      forall i, j | 0 <= i < j < |rest + [name]| ensures (rest + [name])[i] != (rest + [name])[j] {
        if j == |rest| { assert (rest + [name])[i] in rest; }
      }
      order := rest + [name];
      accessTimes := accessTimes[name := now];
    }

    /** `_cleanup_stale_modules`: at most once per 300 seconds, drop every
        module not accessed within the time-to-live. */
    method CleanupStale(now: real)
      requires Valid()
      modifies this
      ensures Valid()
      ensures now - old(lastCleanup) < CLEANUP_PERIOD_SECONDS ==>
        order == old(order) && accessTimes == old(accessTimes) && lastCleanup == old(lastCleanup)
      ensures now - old(lastCleanup) >= CLEANUP_PERIOD_SECONDS ==>
        && order == KeepFresh(old(order), old(accessTimes), now, cacheTtl)
        && accessTimes == Restrict(old(accessTimes), order)
        && lastCleanup == now
      ensures maxCacheSize == old(maxCacheSize) && cacheTtl == old(cacheTtl) && timeoutSetting == old(timeoutSetting)
    {
      if now - lastCleanup < CLEANUP_PERIOD_SECONDS {
        return;
      }
      lastCleanup := now;
      var kept: seq<string> := [];
      var i := 0;
      while i < |order|
        invariant 0 <= i <= |order|
        invariant kept == KeepFresh(order[..i], accessTimes, now, cacheTtl)
      {
        assert order[..i + 1][..i] == order[..i];
        var name := order[i];
        if now - accessTimes[name] <= cacheTtl as real {
          kept := kept + [name];
        }
        i := i + 1;
      }
      assert order[..i] == order;
      KeepFreshDistinct(order, accessTimes, now, cacheTtl);
      accessTimes := Restrict(accessTimes, kept);
      order := kept;
    }

    /** `clear_module_cache`: empties the cache and returns how many modules it held. */
    method ClearCache() returns (count: nat)
      requires Valid()
      modifies this
      ensures Valid()
      ensures count == |old(order)| && order == [] && accessTimes == map[]
      ensures maxCacheSize == old(maxCacheSize) && cacheTtl == old(cacheTtl)
      ensures lastCleanup == old(lastCleanup) && timeoutSetting == old(timeoutSetting)
    {
      count := |order|;
      order := [];
      accessTimes := map[];
    }

    /** `_execute_function_call`: reload a cached module (falling back to a
        fresh load when the reload fails), or load and cache it, then call
        its main function. */
    method RunFunctionCall(info: ScriptInfo, env: Environment, now: real) returns (r: ExecutionResult)
      requires Valid()
      modifies this
      ensures Valid()
      ensures var name := Stem(info.filePath.name);
        var hit := name in old(order);
        var touched := if hit then MoveToEnd(old(order), name) else old(order);
        var loadAnew := !hit || !env.reloadSucceeds;
        && (!loadAnew ==> order == touched && r == CallResult(info, env.call))
        && (loadAnew && env.load == NoSpec ==> order == touched && r == Failure(SpecMessage(info)))
        && (loadAnew && env.load.LoadRaised? ==>
              order == touched && r == Failure("Function execution failed: " + env.load.message))
        && (loadAnew && env.load == Loaded && !hit && old(order) == [] && maxCacheSize <= 0 ==>
              order == [] && r == Failure(EMPTY_CACHE_ERROR))
        && (loadAnew && env.load == Loaded && (hit || old(order) != [] || maxCacheSize > 0) ==>
              order == CachedOrder(touched, name, maxCacheSize) && r == CallResult(info, env.call))
      ensures (r, order) == FunctionCallOutcome(old(order), info, env, maxCacheSize)
      ensures maxCacheSize == old(maxCacheSize) && cacheTtl == old(cacheTtl)
      ensures lastCleanup == old(lastCleanup) && timeoutSetting == old(timeoutSetting)
    {
      var name := Stem(info.filePath.name);
      var hit := name in order;
      if hit {
        Touch(name, now);
      }
      if !hit || !env.reloadSucceeds {
        match env.load
        case NoSpec =>
          return Failure(SpecMessage(info));
        case LoadRaised(e) =>
          return Failure("Function execution failed: " + e);
        case Loaded =>
          var ok := CacheModule(name, now);
          if !ok {
            return Failure(EMPTY_CACHE_ERROR);
          }
      }
      r := CallResult(info, env.call);
    }

    /** `execute_script`: periodic cache cleanup, the executability gate, then
        dispatch on the strategy; every failure is a result, never raised. */
    method ExecuteScript(info: ScriptInfo, arguments: Option<map<string, PyValue>>, env: Environment, now: real)
      returns (r: ExecutionResult)
      requires Valid()
      modifies this
      ensures Valid()
      ensures !info.isExecutable ==> r == Failure(NotExecutableMessage(info))
      ensures info.isExecutable && info.strategy == Subprocess ==>
        r == SubprocessResult(info, if arguments.Some? then arguments.value else map[], env.interpreter,
                              timeoutSetting, env.process, env.parseJson)
      ensures info.isExecutable && info.strategy == ModuleExec ==> r == ModuleResult(info, env.load)
      ensures info.isExecutable && info.strategy !in {Subprocess, FunctionCall, ModuleExec} ==>
        r == Failure("Unknown execution strategy: " + StrategyName(info.strategy))
      ensures info.isExecutable && info.strategy == FunctionCall ==>
        (r, order) == FunctionCallOutcome(AfterCleanup(old(order), old(accessTimes), old(lastCleanup), now, cacheTtl),
                                          info, env, maxCacheSize)
      ensures info.strategy != FunctionCall || !info.isExecutable ==>
        order == AfterCleanup(old(order), old(accessTimes), old(lastCleanup), now, cacheTtl)
      ensures maxCacheSize == old(maxCacheSize) && cacheTtl == old(cacheTtl) && timeoutSetting == old(timeoutSetting)
    {
      CleanupStale(now);
      if !info.isExecutable {
        return Failure(NotExecutableMessage(info));
      }
      var args := if arguments.Some? then arguments.value else map[];
      match info.strategy
      case Subprocess =>
        r := SubprocessResult(info, args, env.interpreter, timeoutSetting, env.process, env.parseJson);
      case FunctionCall =>
        r := RunFunctionCall(info, env, now);
      case ModuleExec =>
        r := ModuleResult(info, env.load);
      case _ =>
        r := Failure("Unknown execution strategy: " + StrategyName(info.strategy));
    }
  }
}
