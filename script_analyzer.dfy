/**
 * Script classification: routing by suffix, display names, execution
 * strategy, configuration needs, executability rules, the batch / shell /
 * PowerShell parameter scanners and smart-punctuation sanitising.
 *
 * The Python AST analysis (main function, argparse arguments, executable
 * statements) is the input `PythonFacts`; reading the file is the input
 * `source` (an error message where reading or parsing raised). The regex
 * extraction of PowerShell parameters from the `param(...)` block is the
 * function parameter `extractParams`.
 */
module Analysis {
  import opened Text
  import opened Values

  datatype ScriptType = PythonScript | PowerShellScript | BatchScript | ShellScript

  datatype ExecutionStrategy =
    | Subprocess | FunctionCall | ModuleExec | AsService | ViaPowerShell | ViaBatch | ViaShell

  /** `str(strategy)` of the enumeration member. */
  function StrategyName(s: ExecutionStrategy): string
  {
    match s
    case Subprocess => "ExecutionStrategy.SUBPROCESS"
    case FunctionCall => "ExecutionStrategy.FUNCTION_CALL"
    case ModuleExec => "ExecutionStrategy.MODULE_EXEC"
    case AsService => "ExecutionStrategy.SERVICE"
    case ViaPowerShell => "ExecutionStrategy.POWERSHELL"
    case ViaBatch => "ExecutionStrategy.BATCH"
    case ViaShell => "ExecutionStrategy.SHELL"
  }

  datatype ArgumentInfo = ArgumentInfo(
    name: string,
    required: bool,
    default: PyValue,
    help: string,
    argType: string,
    choices: Option<seq<string>>)

  /** A script file: the path as text and its final component. */
  datatype FilePath = FilePath(text: string, name: string)

  datatype ScriptInfo = ScriptInfo(
    filePath: FilePath,
    displayName: string,
    strategy: ExecutionStrategy,
    scriptType: ScriptType,
    mainFunction: Option<string>,
    arguments: seq<ArgumentInfo>,
    hasMainBlock: bool,
    isExecutable: bool,
    error: Option<string>,
    needsConfiguration: bool)

  /** What the AST analysis of a Python script finds. */
  datatype PythonFacts = PythonFacts(hasMainFunction: bool, arguments: seq<ArgumentInfo>, hasExecutableCode: bool)

  // ------------------------------------------------------------ routing

  datatype Route = ToPython | ToPowerShell | ToBatch | ToShell | Unsupported

  function RouteOf(suffix: string): (r: Route)
    ensures r == ToBatch <==> suffix == ".bat" || suffix == ".cmd"
    ensures r == Unsupported <==> suffix !in {".py", ".ps1", ".bat", ".cmd", ".sh"}
  {
    if suffix == ".py" then ToPython
    else if suffix == ".ps1" then ToPowerShell
    else if suffix == ".bat" || suffix == ".cmd" then ToBatch
    else if suffix == ".sh" then ToShell
    else Unsupported
  }

  // ------------------------------------------------------------ display name

  function SeparatorToSpace(c: char): char
  {
    if c == '_' || c == '-' then ' ' else c
  }

  function ReplaceSeparators(s: string): (r: string)
    ensures |r| == |s|
    ensures forall i :: 0 <= i < |s| ==> r[i] == SeparatorToSpace(s[i])
  {
    if s == [] then [] else [SeparatorToSpace(s[0])] + ReplaceSeparators(s[1..])
  }

  predicate IsWord(w: string)
  {
    w != [] && forall i :: 0 <= i < |w| ==> !IsSpace(w[i])
  }

  /** The end of the run of non-whitespace characters starting at `j`. */
  function WordEnd(s: string, j: nat): (e: nat)
    requires j <= |s|
    ensures j <= e <= |s|
    ensures forall k :: j <= k < e ==> !IsSpace(s[k])
    ensures e < |s| ==> IsSpace(s[e])
    decreases |s| - j
  {
    if j < |s| && !IsSpace(s[j]) then WordEnd(s, j + 1) else j
  }

  /** Python `s.split()`: the maximal runs of non-whitespace characters. */
  function Words(s: string): (ws: seq<string>)
    ensures forall i :: 0 <= i < |ws| ==> IsWord(ws[i])
    decreases |s|
  {
    var t := TrimLeft(s);
    if t == [] then []
    else
      var e := WordEnd(t, 0);
      WordAtStart(t);
      var rest := Words(t[e..]);
      AllWordsCons(t[..e], rest);
      [t[..e]] + rest
  }

  /** A text that starts with a non-whitespace character starts with a word. */
  lemma WordAtStart(t: string)
    requires t != [] && !IsSpace(t[0])
    ensures WordEnd(t, 0) > 0 && IsWord(t[..WordEnd(t, 0)])
  {
    var e := WordEnd(t, 0);
    var w := t[..e];
    forall k | 0 <= k < |w| ensures !IsSpace(w[k]) { assert w[k] == t[k]; }
  }

  lemma AllWordsCons(w: string, rest: seq<string>)
    requires IsWord(w) && forall i :: 0 <= i < |rest| ==> IsWord(rest[i])
    ensures forall i :: 0 <= i < |[w] + rest| ==> IsWord(([w] + rest)[i])
  {
    var r := [w] + rest;
    forall i | 0 <= i < |r| ensures IsWord(r[i]) {
      if i > 0 { assert r[i] == rest[i - 1]; }
    }
  }

  /** A character that does not occur in the text occurs in none of its words. */
  lemma {:induction false} WordsAvoid(s: string, c: char)
    requires c !in s
    ensures forall i :: 0 <= i < |Words(s)| ==> c !in Words(s)[i]
    decreases |s|
  {
    var t := TrimLeft(s);
    if t != [] {
      var e := WordEnd(t, 0);
      assert t == s[|s| - |t|..];
      WordsAvoid(t[e..], c);
      var rest := Words(t[e..]);
      assert Words(s) == [t[..e]] + rest;
      forall i | 0 <= i < |Words(s)| ensures c !in Words(s)[i] {
        if i > 0 { assert Words(s)[i] == rest[i - 1]; }
      }
    }
  }

  function CapitalizeAll(ws: seq<string>): (r: seq<string>)
    ensures |r| == |ws|
    ensures forall i :: 0 <= i < |ws| ==> r[i] == Capitalize(ws[i])
  {
    if ws == [] then [] else [Capitalize(ws[0])] + CapitalizeAll(ws[1..])
  }

  /** `_get_display_name`: the stem with '_' and '-' as spaces, split into
      words, each word capitalized, joined by single spaces. */
  function DisplayName(stem: string): string
  {
    Join(CapitalizeAll(Words(ReplaceSeparators(stem))), " ")
  }

  predicate NoSeparator(c: char) { c != '_' && c != '-' && (IsSpace(c) ==> c == ' ') }

  /** Joining non-empty words that hold no whitespace, '_' or '-' with one
      space gives text with single inner spaces and no space at either end. */
  lemma {:induction false} JoinWordsShape(ws: seq<string>)
    requires forall i :: 0 <= i < |ws| ==> IsWord(ws[i])
    requires forall i, k :: 0 <= i < |ws| && 0 <= k < |ws[i]| ==> ws[i][k] != '_' && ws[i][k] != '-'
    ensures var r := Join(ws, " ");
      && (r == [] <==> ws == [])
      && (r != [] ==> !IsSpace(r[0]) && !IsSpace(r[|r| - 1]))
      && (forall i :: 0 <= i < |r| ==> NoSeparator(r[i]))
      && (forall i :: 0 <= i < |r| - 1 ==> !(IsSpace(r[i]) && IsSpace(r[i + 1])))
  {
    if |ws| > 1 {
      JoinWordsShape(ws[1..]);
      var rest := Join(ws[1..], " ");
      var r := ws[0] + " " + rest;
      assert r == Join(ws, " ");
      forall i | 0 <= i < |r| ensures NoSeparator(r[i]) {
        if i < |ws[0]| { assert r[i] == ws[0][i]; }
        else if i > |ws[0]| { assert r[i] == rest[i - |ws[0]| - 1]; }
      }
      forall i | 0 <= i < |r| - 1 ensures !(IsSpace(r[i]) && IsSpace(r[i + 1])) {
        if i < |ws[0]| - 1 { assert r[i] == ws[0][i]; }
        else if i == |ws[0]| - 1 { assert r[i] == ws[0][i]; }
        else if i == |ws[0]| { assert r[i + 1] == rest[0]; }
        else { assert r[i] == rest[i - |ws[0]| - 1] && r[i + 1] == rest[i - |ws[0]|]; }
      }
      assert r[|r| - 1] == rest[|rest| - 1];
    }
  }

  lemma CapitalizeKeepsWord(w: string)
    requires IsWord(w) && forall k :: 0 <= k < |w| ==> w[k] != '_' && w[k] != '-'
    ensures IsWord(Capitalize(w))
    ensures forall k :: 0 <= k < |w| ==> Capitalize(w)[k] != '_' && Capitalize(w)[k] != '-'
  {
    var c := Capitalize(w);
    forall k | 0 <= k < |w|
      ensures !IsSpace(c[k]) && c[k] != '_' && c[k] != '-'
    {
      if k > 0 { assert c[k] == c[1..][k - 1] == Lower(w[1..])[k - 1]; }
    }
  }

  /** A display name has no '_' or '-', no whitespace but single inner
      spaces, and is empty exactly when the stem holds no word. */
  lemma DisplayNameShape(stem: string)
    ensures var r := DisplayName(stem);
      && (r == [] <==> Words(ReplaceSeparators(stem)) == [])
      && (r != [] ==> !IsSpace(r[0]) && !IsSpace(r[|r| - 1]))
      && (forall i :: 0 <= i < |r| ==> NoSeparator(r[i]))
      && (forall i :: 0 <= i < |r| - 1 ==> !(IsSpace(r[i]) && IsSpace(r[i + 1])))
  {
    var s := ReplaceSeparators(stem);
    var ws := Words(s);
    assert '_' !in s && '-' !in s;
    WordsAvoid(s, '_');
    WordsAvoid(s, '-');
    forall i | 0 <= i < |ws|
      ensures forall k :: 0 <= k < |ws[i]| ==> ws[i][k] != '_' && ws[i][k] != '-'
    {
      assert '_' !in ws[i] && '-' !in ws[i];
    }
    var cs := CapitalizeAll(ws);
    forall i | 0 <= i < |cs|
      ensures IsWord(cs[i])
      ensures forall k :: 0 <= k < |cs[i]| ==> cs[i][k] != '_' && cs[i][k] != '-'
    {
      CapitalizeKeepsWord(ws[i]);
    }
    JoinWordsShape(cs);
  }

  // ------------------------------------------------------------ strategy

  const MAIN_GUARD_DOUBLE: string := "if __name__ == \"__main__\""
  const MAIN_GUARD_SINGLE: string := "if __name__ == '__main__'"

  /** `_has_main_block`: the guard, in either quoting, occurs somewhere in the source. */
  function HasMainBlock(source: string): (r: bool)
    ensures r <==> exists i :: OccursAt(source, MAIN_GUARD_DOUBLE, i) || OccursAt(source, MAIN_GUARD_SINGLE, i)
  {
    ContainsOccurs(source, MAIN_GUARD_DOUBLE);
    ContainsOccurs(source, MAIN_GUARD_SINGLE);
    Contains(source, MAIN_GUARD_DOUBLE) || Contains(source, MAIN_GUARD_SINGLE)
  }

  /** `_determine_execution_strategy`. */
  function DetermineStrategy(hasMainFunction: bool, hasMainBlock: bool, arguments: seq<ArgumentInfo>): (r: ExecutionStrategy)
    ensures r in {Subprocess, FunctionCall, ModuleExec}
    ensures r == FunctionCall <==> arguments == [] && hasMainFunction
    ensures r == ModuleExec <==> arguments == [] && !hasMainFunction && !hasMainBlock
    ensures arguments != [] ==> r == Subprocess
  {
    if arguments != [] then Subprocess
    else if hasMainFunction then FunctionCall
    else if hasMainBlock then Subprocess
    else ModuleExec
  }

  /** `_determine_configuration_needs`: the loop returns at the first
      argument that is required or has no default. */
  function NeedsConfiguration(arguments: seq<ArgumentInfo>): (r: bool)
    ensures r <==> exists i :: 0 <= i < |arguments| && (arguments[i].required || arguments[i].default == PyNone)
  {
    if arguments == [] then false
    else if arguments[0].required || arguments[0].default == PyNone then true
    else
      var rest := NeedsConfiguration(arguments[1..]);
      assert rest <==> exists i :: 1 <= i < |arguments| && (arguments[i].required || arguments[i].default == PyNone) by {
        if rest {
          var i :| 0 <= i < |arguments[1..]| && (arguments[1..][i].required || arguments[1..][i].default == PyNone);
          assert arguments[i + 1] == arguments[1..][i];
        }
        if exists i :: 1 <= i < |arguments| && (arguments[i].required || arguments[i].default == PyNone) {
          var i :| 1 <= i < |arguments| && (arguments[i].required || arguments[i].default == PyNone);
          assert arguments[1..][i - 1] == arguments[i];
        }
      }
      rest
  }

  /** `any(arg.required for arg in arguments)`. */
  function AnyRequired(arguments: seq<ArgumentInfo>): (r: bool)
    ensures r <==> exists i :: 0 <= i < |arguments| && arguments[i].required
  {
    if arguments == [] then false
    else if arguments[0].required then true
    else
      var rest := AnyRequired(arguments[1..]);
      assert rest <==> exists i :: 1 <= i < |arguments| && arguments[i].required by {
        if rest {
          var i :| 0 <= i < |arguments[1..]| && arguments[1..][i].required;
          assert arguments[i + 1] == arguments[1..][i];
        }
        if exists i :: 1 <= i < |arguments| && arguments[i].required {
          var i :| 1 <= i < |arguments| && arguments[i].required;
          assert arguments[1..][i - 1] == arguments[i];
        }
      }
      rest
  }

  // ------------------------------------------------------------ executability

  /** A line that counts as code: non-blank after stripping and not starting
      with any of the comment markers. */
  predicate IsCodeLine(line: string, markers: seq<string>)
  {
    var t := Strip(line);
    t != [] && forall k :: 0 <= k < |markers| ==> !StartsWith(t, markers[k])
  }

  function HasCodeLine(lines: seq<string>, markers: seq<string>): (r: bool)
    ensures r <==> exists i :: 0 <= i < |lines| && IsCodeLine(lines[i], markers)
  {
    if lines == [] then false
    else if IsCodeLine(lines[0], markers) then true
    else
      var rest := HasCodeLine(lines[1..], markers);
      assert rest ==> exists i :: 0 <= i < |lines| && IsCodeLine(lines[i], markers) by {
        if rest {
          var i :| 0 <= i < |lines[1..]| && IsCodeLine(lines[1..][i], markers);
          assert lines[i + 1] == lines[1..][i];
        }
      }
      assert (exists i :: 0 <= i < |lines| && IsCodeLine(lines[i], markers)) ==> rest by {
        if exists i :: 0 <= i < |lines| && IsCodeLine(lines[i], markers) {
          var i :| 0 <= i < |lines| && IsCodeLine(lines[i], markers);
          assert i > 0;
          assert lines[1..][i - 1] == lines[i];
        }
      }
      rest
  }

  /** A batch file is executable iff some line is code, REM and :: lines being comments. */
  function BatchExecutable(source: string): bool
  {
    HasCodeLine(Split(source, '\n'), ["REM", "::"])
  }

  /** A shell file is executable iff some line is code, # lines being comments. */
  function ShellExecutable(source: string): bool
  {
    HasCodeLine(Split(source, '\n'), ["#"])
  }

  // ------------------------------------------------------------ smart punctuation

  /** SMART_PUNCTUATION_TRANSLATIONS. */
  function SmartReplacement(c: char): Option<char>
  {
    if c in {'\U{2018}', '\U{2019}', '\U{201a}', '\U{201b}'} then Some('\'')
    else if c in {'\U{201c}', '\U{201d}', '\U{201e}', '\U{201f}', '\U{ab}', '\U{bb}'} then Some('"')
    else if c in {'\U{2013}', '\U{2014}', '\U{2015}', '\U{2212}'} then Some('-')
    else if c == '\U{a0}' then Some(' ')
    else None
  }

  predicate IsSmart(c: char) { SmartReplacement(c).Some? }

  function Translate(s: string): (r: string)
    ensures |r| == |s|
    ensures forall i :: 0 <= i < |s| ==> r[i] == if IsSmart(s[i]) then SmartReplacement(s[i]).value else s[i]
  {
    if s == [] then [] else [if IsSmart(s[0]) then SmartReplacement(s[0]).value else s[0]] + Translate(s[1..])
  }

  /** `_sanitize_source_text`: the identity when no smart character occurs,
      otherwise the translation. */
  function Sanitize(s: string): string
  {
    if forall i :: 0 <= i < |s| ==> !IsSmart(s[i]) then s else Translate(s)
  }

  /** Sanitising preserves length, leaves no smart character, changes only
      smart characters, and is idempotent. */
  lemma SanitizeSpec(s: string)
    ensures |Sanitize(s)| == |s|
    ensures forall i :: 0 <= i < |s| ==> !IsSmart(Sanitize(s)[i])
    ensures forall i :: 0 <= i < |s| && !IsSmart(s[i]) ==> Sanitize(s)[i] == s[i]
    ensures Sanitize(Sanitize(s)) == Sanitize(s)
  {
  }

  // ------------------------------------------------------------ positional parameters

  /** The end of the run of digits starting at `j`. */
  function RunEnd(s: string, j: nat): (e: nat)
    requires j <= |s|
    ensures j <= e <= |s|
    ensures forall k :: j <= k < e ==> IsDigit(s[k])
    ensures e < |s| ==> !IsDigit(s[e])
    decreases |s| - j
  {
    if j < |s| && IsDigit(s[j]) then RunEnd(s, j + 1) else j
  }

  /** The number written by the maximal digit run after a marker at `j`. */
  function NumberAfter(s: string, j: nat): nat
    requires j + 1 < |s|
  {
    DigitsValue(s[j + 1..RunEnd(s, j + 1)])
  }

  predicate MarkerAt(s: string, marker: char, j: int)
  {
    0 <= j && j + 1 < |s| && s[j] == marker && IsDigit(s[j + 1])
  }

  /** Every number the pattern marker + `\d+` finds at a position before `upTo`. */
  function MarkedBefore(s: string, marker: char, upTo: nat): set<nat>
  {
    set j | 0 <= j < upTo && MarkerAt(s, marker, j) :: NumberAfter(s, j)
  }

  function MarkedNumbers(s: string, marker: char): set<nat>
  {
    MarkedBefore(s, marker, |s|)
  }

  function PositionalArg(n: nat): ArgumentInfo
    requires 1 <= n <= 9
  {
    ArgumentInfo("arg" + [DigitChar(n)], false, PyNone, "", "str", None)
  }

  /** The numbers from `k` to 9 that were found, in ascending order. */
  function FoundFrom(found: set<nat>, k: nat): (ns: seq<nat>)
    requires 1 <= k
    ensures forall i :: 0 <= i < |ns| ==> k <= ns[i] <= 9
    ensures forall i, j :: 0 <= i < j < |ns| ==> ns[i] < ns[j]
    decreases 10 - k
  {
    if k > 9 then []
    else if k in found then [k] + FoundFrom(found, k + 1)
    else FoundFrom(found, k + 1)
  }

  /** One optional `argN` per number from `k` to 9 that was found, in ascending order. */
  function PositionalFrom(found: set<nat>, k: nat): (r: seq<ArgumentInfo>)
    requires 1 <= k
    ensures |r| == |FoundFrom(found, k)|
    ensures forall i :: 0 <= i < |r| ==> !r[i].required && r[i].argType == "str"
  {
    var ns := FoundFrom(found, k);
    seq(|ns|, i requires 0 <= i < |ns| => PositionalArg(ns[i]))
  }

  function PositionalArgs(found: set<nat>): seq<ArgumentInfo>
  {
    PositionalFrom(found, 1)
  }

  /** The number N of an argument named `argN`. */
  function ArgNumber(a: ArgumentInfo): int
  {
    if |a.name| == 4 then a.name[3] as int - '0' as int else -1
  }

  lemma ArgNumberOf(n: nat)
    requires 1 <= n <= 9
    ensures ArgNumber(PositionalArg(n)) == n
  {
    assert PositionalArg(n).name == ['a', 'r', 'g', DigitChar(n)];
  }

  /** Every positional argument is `argN` for a number N from `k` to 9 that was found. */
  lemma PositionalFromFound(found: set<nat>, k: nat)
    requires 1 <= k
    ensures forall i :: 0 <= i < |PositionalFrom(found, k)| ==>
      var n := ArgNumber(PositionalFrom(found, k)[i]);
      k <= n <= 9 && n in found && PositionalFrom(found, k)[i] == PositionalArg(n)
  {
    var ns := FoundFrom(found, k);
    forall i | 0 <= i < |PositionalFrom(found, k)|
      ensures var n := ArgNumber(PositionalFrom(found, k)[i]);
        k <= n <= 9 && n in found && PositionalFrom(found, k)[i] == PositionalArg(n)
    {
      ArgNumberOf(ns[i]);
      FoundFromIn(found, k, i);
    }
  }

  /** The listed numbers were found. */
  lemma {:induction false} FoundFromIn(found: set<nat>, k: nat, i: nat)
    requires 1 <= k && i < |FoundFrom(found, k)|
    ensures FoundFrom(found, k)[i] in found
    decreases 10 - k
  {
    if k <= 9 {
      var ns := FoundFrom(found, k);
      var rest := FoundFrom(found, k + 1);
      if k in found {
        assert ns == [k] + rest;
        if i > 0 {
          assert ns[i] == rest[i - 1];
          FoundFromIn(found, k + 1, i - 1);
        }
      } else {
        assert ns == rest;
        FoundFromIn(found, k + 1, i);
      }
    }
  }

  /** The positional arguments are in strictly ascending order of N. */
  lemma PositionalAscending(found: set<nat>, k: nat)
    requires 1 <= k
    ensures forall i, j :: 0 <= i < j < |PositionalFrom(found, k)| ==>
      ArgNumber(PositionalFrom(found, k)[i]) < ArgNumber(PositionalFrom(found, k)[j])
  {
    var ns := FoundFrom(found, k);
    forall i, j | 0 <= i < j < |PositionalFrom(found, k)|
      ensures ArgNumber(PositionalFrom(found, k)[i]) < ArgNumber(PositionalFrom(found, k)[j])
    {
      ArgNumberOf(ns[i]);
      ArgNumberOf(ns[j]);
    }
  }

  /** Every number from `k` to 9 that was found is listed. */
  lemma {:induction false} FoundFromComplete(found: set<nat>, k: nat, n: nat)
    requires 1 <= k <= n <= 9 && n in found
    ensures n in FoundFrom(found, k)
    decreases 10 - k
  {
    var rest := FoundFrom(found, k + 1);
    assert FoundFrom(found, k) == (if k in found then [k] else []) + rest;
    if n != k {
      FoundFromComplete(found, k + 1, n);
    }
  }

  /** Every number N from `k` to 9 that was found has its `argN`. */
  lemma PositionalFromComplete(found: set<nat>, k: nat)
    requires 1 <= k
    ensures forall n :: k <= n <= 9 && n in found ==> PositionalArg(n) in PositionalFrom(found, k)
  {
    var ns := FoundFrom(found, k);
    forall n | k <= n <= 9 && n in found
      ensures PositionalArg(n) in PositionalFrom(found, k)
    {
      FoundFromComplete(found, k, n);
      var i :| 0 <= i < |ns| && ns[i] == n;
      assert PositionalFrom(found, k)[i] == PositionalArg(n);
    }
  }

  /** `_extract_batch_params` and the positional branch of
      `_extract_shell_params`: a scan for the marker followed by digits,
      keeping numbers 1..9, then one argument per number in ascending order. */
  method PositionalParams(source: string, marker: char) returns (arguments: seq<ArgumentInfo>)
    requires !IsDigit(marker)
    ensures arguments == PositionalArgs(MarkedNumbers(source, marker))
  {
    var found: set<nat> := {};
    var i := 0;
    while i < |source|
      invariant 0 <= i <= |source|
      invariant found == SmallOnly(MarkedBefore(source, marker, i))
    {
      MarkedBeforeStep(source, marker, i);
      if source[i] == marker && i + 1 < |source| && IsDigit(source[i + 1]) {
        var j, value := ScanNumber(source, i + 1);
        assert value == NumberAfter(source, i);
        SmallOnlyAdd(MarkedBefore(source, marker, i), value);
        if 1 <= value <= 9 {
          found := found + {value};
        }
        MarkedBeforeSkipDigits(source, marker, i + 1, j);
        i := j;
      } else {
        i := i + 1;
      }
    }
    arguments := PositionalArgs(found);
    FoundFromOnlySmall(MarkedNumbers(source, marker), found, 1);
  }

  /** The numbers 1 to 9 of a set. */
  function SmallOnly(s: set<nat>): (r: set<nat>)
    ensures forall n :: n in r <==> n in s && 1 <= n <= 9
  {
    set n | n in s && 1 <= n <= 9
  }

  lemma SmallOnlyAdd(s: set<nat>, v: nat)
    ensures SmallOnly(s + {v}) == SmallOnly(s) + (if 1 <= v <= 9 then {v} else {})
  {
  }

  /** The run of digits from `start` and its decimal value, as `\d+` matches it. */
  method ScanNumber(source: string, start: nat) returns (end: nat, value: nat)
    requires start <= |source|
    ensures end == RunEnd(source, start)
    ensures value == DigitsValue(source[start..end])
  {
    end := start;
    value := 0;
    while end < |source| && IsDigit(source[end])
      invariant start <= end <= |source|
      invariant forall k :: start <= k < end ==> IsDigit(source[k])
      invariant value == DigitsValue(source[start..end])
    {
      assert source[start..end + 1][..end - start] == source[start..end];
      value := value * 10 + (source[end] as int - '0' as int);
      end := end + 1;
    }
    RunEndUnique(source, start, end);
  }

  lemma {:induction false} RunEndUnique(s: string, j: nat, e: nat)
    requires j <= e <= |s|
    requires forall k :: j <= k < e ==> IsDigit(s[k])
    requires e == |s| || !IsDigit(s[e])
    ensures RunEnd(s, j) == e
    decreases e - j
  {
    if j < e { RunEndUnique(s, j + 1, e); }
  }

  lemma MarkedBeforeStep(s: string, marker: char, i: nat)
    ensures MarkedBefore(s, marker, i + 1) ==
      MarkedBefore(s, marker, i) + (if MarkerAt(s, marker, i) then {NumberAfter(s, i)} else {})
  {
    if MarkerAt(s, marker, i) {
      assert NumberAfter(s, i) in MarkedBefore(s, marker, i + 1);
    }
  }

  lemma {:induction false} MarkedBeforeSkipDigits(s: string, marker: char, lo: nat, hi: nat)
    requires lo <= hi <= |s| && !IsDigit(marker)
    requires forall k :: lo <= k < hi ==> IsDigit(s[k])
    ensures MarkedBefore(s, marker, hi) == MarkedBefore(s, marker, lo)
    decreases hi
  {
    if lo < hi {
      MarkedBeforeSkipDigits(s, marker, lo, hi - 1);
      MarkedBeforeStep(s, marker, hi - 1);
    }
  }

  lemma {:induction false} FoundFromOnlySmall(all: set<nat>, small: set<nat>, k: nat)
    requires 1 <= k
    requires small == set n | n in all && 1 <= n <= 9
    ensures FoundFrom(all, k) == FoundFrom(small, k)
    decreases 10 - k
  {
    if k <= 9 { FoundFromOnlySmall(all, small, k + 1); }
  }

  // ------------------------------------------------------------ getopts

  /** The end of the run of whitespace starting at `j`. */
  function SpaceEnd(s: string, j: nat): (e: nat)
    requires j <= |s|
    ensures j <= e <= |s|
    ensures forall k :: j <= k < e ==> IsSpace(s[k])
    ensures e < |s| ==> !IsSpace(s[e])
    decreases |s| - j
  {
    if j < |s| && IsSpace(s[j]) then SpaceEnd(s, j + 1) else j
  }

  /** The option string of a match of `getopts\s+"([^"]+)"` starting at `i`. */
  function GetoptsAt(s: string, i: nat): (r: Option<string>)
    requires i <= |s|
    ensures r.Some? ==> r.value != [] && '"' !in r.value
  {
    if !StartsWith(s[i..], "getopts") then None
    else
      var w := SpaceEnd(s, i + 7);
      if w == i + 7 || w == |s| || s[w] != '"' || '"' !in s[w + 1..] then None
      else
        var c := IndexOf(s[w + 1..], '"');
        if c == 0 then None else Some(s[w + 1..][..c])
  }

  /** `re.search`: the leftmost match at or after `i`. */
  function FindGetopts(s: string, i: nat): (r: Option<string>)
    requires i <= |s|
    ensures r.Some? ==> r.value != [] && '"' !in r.value
    decreases |s| - i
  {
    if GetoptsAt(s, i).Some? then GetoptsAt(s, i)
    else if i < |s| then FindGetopts(s, i + 1)
    else None
  }

  function LetterArg(c: char): ArgumentInfo
  {
    ArgumentInfo([c], false, PyNone, "", "str", None)
  }

  /** One optional argument per letter of a getopts option string, in order. */
  function LetterArgs(options: string): (r: seq<ArgumentInfo>)
    ensures |r| <= |options|
    ensures forall i :: 0 <= i < |r| ==> !r[i].required && r[i].argType == "str"
  {
    if options == [] then []
    else (if IsAlpha(options[0]) then [LetterArg(options[0])] else []) + LetterArgs(options[1..])
  }

  /** The getopts arguments are exactly one per letter of the option string:
      every argument is a letter of it, and every letter has its argument. */
  lemma {:induction false} LetterArgsSpec(options: string)
    ensures var r := LetterArgs(options);
      && (forall i :: 0 <= i < |r| ==>
            |r[i].name| == 1 && IsAlpha(r[i].name[0]) && r[i].name[0] in options && r[i] == LetterArg(r[i].name[0]))
      && (forall c :: c in options && IsAlpha(c) ==> LetterArg(c) in r)
  {
    if options != [] {
      LetterArgsSpec(options[1..]);
      var rest := LetterArgs(options[1..]);
      var head := if IsAlpha(options[0]) then [LetterArg(options[0])] else [];
      var r := head + rest;
      assert r == LetterArgs(options);
      forall i | 0 <= i < |r|
        ensures |r[i].name| == 1 && IsAlpha(r[i].name[0]) && r[i].name[0] in options && r[i] == LetterArg(r[i].name[0])
      {
        if i >= |head| {
          assert r[i] == rest[i - |head|];
          assert rest[i - |head|].name[0] in options[1..];
        }
      }
      forall c | c in options && IsAlpha(c) ensures LetterArg(c) in r {
        if c != options[0] {
          assert c in options[1..];
          var i :| 0 <= i < |rest| && rest[i] == LetterArg(c);
          assert r[|head| + i] == rest[i];
        } else {
          assert r[0] == LetterArg(c);
        }
      }
    }
  }

  /** The getopts loop of `_extract_shell_params`. */
  method GetoptsParams(options: string) returns (arguments: seq<ArgumentInfo>)
    ensures arguments == LetterArgs(options)
  {
    arguments := [];
    var i := 0;
    while i < |options|
      invariant 0 <= i <= |options|
      invariant arguments + LetterArgs(options[i..]) == LetterArgs(options)
    {
      var head := if IsAlpha(options[i]) then [LetterArg(options[i])] else [];
      assert options[i..][1..] == options[i + 1..];
      assert LetterArgs(options[i..]) == head + LetterArgs(options[i + 1..]);
      assert arguments + LetterArgs(options[i..]) == (arguments + head) + LetterArgs(options[i + 1..]);
      arguments := arguments + head;
      i := i + 1;
    }
  }

  /** `_extract_shell_params`: getopts letters when the pattern matches,
      otherwise the positional `$N` numbers; every argument is an optional string. */
  function ShellParams(source: string): (r: seq<ArgumentInfo>)
    ensures forall i :: 0 <= i < |r| ==> !r[i].required && r[i].argType == "str"
    ensures FindGetopts(source, 0).Some? ==>
      forall c :: c in FindGetopts(source, 0).value && IsAlpha(c) ==> LetterArg(c) in r
    ensures FindGetopts(source, 0).None? ==>
      && (forall n :: 1 <= n <= 9 && n in MarkedNumbers(source, '$') ==> PositionalArg(n) in r)
      && (forall i, j :: 0 <= i < j < |r| ==> ArgNumber(r[i]) < ArgNumber(r[j]))
  {
    match FindGetopts(source, 0)
    case Some(options) =>
      LetterArgsSpec(options);
      LetterArgs(options)
    case None =>
      var found := MarkedNumbers(source, '$');
      PositionalFromComplete(found, 1);
      PositionalAscending(found, 1);
      PositionalArgs(found)
  }

  /** Shell and batch parameters are never required. */
  lemma ScannedParamsOptional(source: string)
    ensures !AnyRequired(ShellParams(source))
    ensures !AnyRequired(PositionalArgs(MarkedNumbers(source, '%')))
  {
  }

  // ------------------------------------------------------------ PowerShell param block

  /** The position just after a match of `param\s*\(` (case-insensitive) at `i`. */
  function ParamOpenAt(s: string, i: nat): (r: Option<nat>)
    requires i <= |s|
    ensures r.Some? ==> i + 6 <= r.value <= |s| && s[r.value - 1] == '('
  {
    if i + 5 > |s| || Lower(s[i..i + 5]) != "param" then None
    else
      var w := SpaceEnd(s, i + 5);
      if w < |s| && s[w] == '(' then Some(w + 1) else None
  }

  function FindParamOpen(s: string, i: nat): (r: Option<nat>)
    requires i <= |s|
    ensures r.Some? ==> i + 6 <= r.value <= |s|
    decreases |s| - i
  {
    if ParamOpenAt(s, i).Some? then ParamOpenAt(s, i)
    else if i < |s| then FindParamOpen(s, i + 1)
    else None
  }

  function Delta(c: char): int
  {
    if c == '(' then 1 else if c == ')' then -1 else 0
  }

  /** Opening minus closing parentheses. */
  function Balance(t: string): int
  {
    if t == [] then 0 else Balance(t[..|t| - 1]) + Delta(t[|t| - 1])
  }

  /** The paren scan: from `pos` with `count` open parentheses, the position
      just after the one that closes the first. */
  function CloseFrom(s: string, pos: nat, count: nat): (r: Option<nat>)
    requires pos <= |s| && count > 0
    ensures r.Some? ==> pos < r.value <= |s| && s[r.value - 1] == ')'
    decreases |s| - pos
  {
    if pos == |s| then None
    else
      var next := count + Delta(s[pos]);
      if next == 0 then Some(pos + 1) else CloseFrom(s, pos + 1, next)
  }

  /** The scan closes exactly where the balance after the opening parenthesis
      first drops below zero, and finds nothing when it never does. */
  lemma {:induction false} CloseFromBalance(s: string, start: nat, pos: nat, count: nat)
    requires start <= pos <= |s| && count > 0
    requires count == 1 + Balance(s[start..pos])
    requires forall q :: start <= q <= pos ==> 1 + Balance(s[start..q]) > 0
    ensures CloseFrom(s, pos, count).Some? ==>
      var e := CloseFrom(s, pos, count).value;
      && 1 + Balance(s[start..e]) == 0
      && forall q :: start <= q < e ==> 1 + Balance(s[start..q]) > 0
    ensures CloseFrom(s, pos, count).None? ==>
      forall q :: start <= q <= |s| ==> 1 + Balance(s[start..q]) > 0
    decreases |s| - pos
  {
    if pos < |s| {
      assert s[start..pos + 1][..pos - start] == s[start..pos];
      var next := count + Delta(s[pos]);
      assert next == 1 + Balance(s[start..pos + 1]);
      if next != 0 {
        CloseFromBalance(s, start, pos + 1, next);
      }
    }
  }

  /** The text between `param(` and its matching `)`, if they balance. */
  function PowerShellBlock(s: string): Option<string>
  {
    match FindParamOpen(s, 0)
    case None => None
    case Some(start) =>
      match CloseFrom(s, start, 1)
      case None => None
      case Some(e) => Some(s[start..e - 1])
  }

  /** The paren-counting loop of `_extract_powershell_params`. */
  method ParamBlock(source: string) returns (block: Option<string>)
    ensures block == PowerShellBlock(source)
  {
    var open := FindParamOpen(source, 0);
    if open.None? {
      return None;
    }
    var start := open.value;
    var count := 1;
    var pos := start;
    while pos < |source| && count > 0
      invariant start <= pos <= |source|
      invariant count >= 0
      invariant count > 0 ==> CloseFrom(source, pos, count) == CloseFrom(source, start, 1)
      invariant count == 0 ==> pos > start && CloseFrom(source, start, 1) == Some(pos)
      decreases |source| - pos
    {
      if source[pos] == '(' {
        count := count + 1;
      } else if source[pos] == ')' {
        count := count - 1;
      }
      pos := pos + 1;
    }
    if count != 0 {
      return None;
    }
    block := Some(source[start..pos - 1]);
  }

  /** A found block is exactly balanced. */
  lemma PowerShellBlockBalanced(s: string)
    requires PowerShellBlock(s).Some?
    ensures Balance(PowerShellBlock(s).value) == 0
  {
    var start := FindParamOpen(s, 0).value;
    var e := CloseFrom(s, start, 1).value;
    CloseFromBalance(s, start, start, 1);
    assert s[start..e][..e - 1 - start] == s[start..e - 1];
  }

  /** `_extract_powershell_params`: no arguments unless the block balances. */
  function PowerShellParams(source: string, extractParams: string -> seq<ArgumentInfo>): (r: seq<ArgumentInfo>)
    ensures PowerShellBlock(source).None? ==> r == []
  {
    match PowerShellBlock(source)
    case None => []
    case Some(block) => extractParams(block)
  }

  // ------------------------------------------------------------ analyze_script

  function Failed(path: FilePath, strategy: ExecutionStrategy, scriptType: ScriptType, message: string): (info: ScriptInfo)
    ensures info.filePath == path && info.displayName == DisplayName(Stem(path.name))
    ensures info.isExecutable <==> info.error.None?
  {
    ScriptInfo(path, DisplayName(Stem(path.name)), strategy, scriptType, None, [], false, false, Some(message), false)
  }

  function AnalyzePython(path: FilePath, source: Result<string, string>, facts: Result<PythonFacts, string>, isService: bool): (info: ScriptInfo)
    ensures info.filePath == path && info.displayName == DisplayName(Stem(path.name))
    ensures info.isExecutable <==> info.error.None?
  {
    if source.Err? then Failed(path, Subprocess, PythonScript, source.error)
    else if facts.Err? then Failed(path, Subprocess, PythonScript, facts.error)
    else
      var code := Sanitize(source.value);
      var f := facts.value;
      var mainBlock := HasMainBlock(code);
      var strategy := if isService then AsService else DetermineStrategy(f.hasMainFunction, mainBlock, f.arguments);
      var executable := mainBlock || f.hasMainFunction || f.hasExecutableCode;
      var error := if executable then None
                   else if Strip(code) == [] then Some("Script is empty")
                   else Some("Script has no executable code");
      ScriptInfo(path, DisplayName(Stem(path.name)), strategy, PythonScript,
                 if f.hasMainFunction then Some("main") else None,
                 f.arguments, mainBlock, executable, error, NeedsConfiguration(f.arguments))
  }

  function AnalyzePowerShell(path: FilePath, source: Result<string, string>,
                             extractParams: string -> seq<ArgumentInfo>): (info: ScriptInfo)
    ensures info.filePath == path && info.displayName == DisplayName(Stem(path.name))
    ensures info.isExecutable <==> info.error.None?
  {
    if source.Err? then Failed(path, ViaPowerShell, PowerShellScript, source.error)
    else
      var arguments := PowerShellParams(source.value, extractParams);
      var executable := Strip(source.value) != [];
      ScriptInfo(path, DisplayName(Stem(path.name)), ViaPowerShell, PowerShellScript, None, arguments, false,
                 executable, if executable then None else Some("Script is empty"), AnyRequired(arguments))
  }

  function AnalyzeBatch(path: FilePath, source: Result<string, string>): (info: ScriptInfo)
    ensures info.filePath == path && info.displayName == DisplayName(Stem(path.name))
    ensures info.isExecutable <==> info.error.None?
  {
    if source.Err? then Failed(path, ViaBatch, BatchScript, source.error)
    else
      var arguments := PositionalArgs(MarkedNumbers(source.value, '%'));
      var executable := BatchExecutable(source.value);
      ScriptInfo(path, DisplayName(Stem(path.name)), ViaBatch, BatchScript, None, arguments, false, executable,
                 if executable then None else Some("Script is empty or contains only comments"), AnyRequired(arguments))
  }

  function AnalyzeShell(path: FilePath, source: Result<string, string>): (info: ScriptInfo)
    ensures info.filePath == path && info.displayName == DisplayName(Stem(path.name))
    ensures info.isExecutable <==> info.error.None?
  {
    if source.Err? then Failed(path, ViaShell, ShellScript, source.error)
    else
      var arguments := ShellParams(source.value);
      var executable := ShellExecutable(source.value);
      ScriptInfo(path, DisplayName(Stem(path.name)), ViaShell, ShellScript, None, arguments, false, executable,
                 if executable then None else Some("Script is empty or contains only comments"), AnyRequired(arguments))
  }

  /** `analyze_script`: routing by the lower-cased suffix and the per-type analysis. */
  function AnalyzeScript(path: FilePath, source: Result<string, string>, facts: Result<PythonFacts, string>,
                         isService: bool, extractParams: string -> seq<ArgumentInfo>): (info: ScriptInfo)
    ensures info.filePath == path && info.displayName == DisplayName(Stem(path.name))
    ensures info.isExecutable <==> info.error.None?
  {
    var suffix := Lower(Suffix(path.name));
    match RouteOf(suffix)
    case ToPython => AnalyzePython(path, source, facts, isService)
    case ToPowerShell => AnalyzePowerShell(path, source, extractParams)
    case ToBatch => AnalyzeBatch(path, source)
    case ToShell => AnalyzeShell(path, source)
    case Unsupported =>
      ScriptInfo(path, DisplayName(Stem(path.name)), Subprocess, PythonScript, None, [], false, false,
                 Some("Unsupported script type: " + suffix), false)
  }

  /** A file whose lower-cased suffix is not one of the five known ones is
      reported as not executable with the unsupported-type message. */
  lemma UnsupportedScript(path: FilePath, source: Result<string, string>, facts: Result<PythonFacts, string>,
                          isService: bool, extractParams: string -> seq<ArgumentInfo>)
    requires Lower(Suffix(path.name)) !in {".py", ".ps1", ".bat", ".cmd", ".sh"}
    ensures var info := AnalyzeScript(path, source, facts, isService, extractParams);
      && !info.isExecutable && info.strategy == Subprocess && info.arguments == []
      && info.error == Some("Unsupported script type: " + Lower(Suffix(path.name)))
  {
    assert RouteOf(Lower(Suffix(path.name))) == Unsupported;
  }

  /** A read failure makes any supported script not executable, with the
      reader's message as its error. */
  lemma UnreadableScript(path: FilePath, message: string, facts: Result<PythonFacts, string>,
                         isService: bool, extractParams: string -> seq<ArgumentInfo>)
    requires Lower(Suffix(path.name)) in {".py", ".ps1", ".bat", ".cmd", ".sh"}
    ensures var info := AnalyzeScript(path, Err(message), facts, isService, extractParams);
      && !info.isExecutable && info.error == Some(message) && info.arguments == []
  {
  }

  /** A readable PowerShell script runs via PowerShell, is executable
      exactly when its text is not blank, and needs configuration exactly
      when an extracted argument is required. */
  lemma PowerShellExecutability(path: FilePath, source: string, facts: Result<PythonFacts, string>,
                                isService: bool, extractParams: string -> seq<ArgumentInfo>)
    requires Lower(Suffix(path.name)) == ".ps1"
    ensures var info := AnalyzeScript(path, Ok(source), facts, isService, extractParams);
      && info.strategy == ViaPowerShell && info.scriptType == PowerShellScript
      && (info.isExecutable <==> Strip(source) != [])
      && info.needsConfiguration == AnyRequired(info.arguments)
  {
    assert RouteOf(Lower(Suffix(path.name))) == ToPowerShell;
    assert AnalyzeScript(path, Ok(source), facts, isService, extractParams) == AnalyzePowerShell(path, Ok(source), extractParams);
  }

  /** A readable batch script runs via cmd, is executable exactly when it
      has a non-comment line, and never needs configuration. */
  lemma BatchExecutability(path: FilePath, source: string, facts: Result<PythonFacts, string>,
                           isService: bool, extractParams: string -> seq<ArgumentInfo>)
    requires Lower(Suffix(path.name)) == ".bat" || Lower(Suffix(path.name)) == ".cmd"
    ensures var info := AnalyzeScript(path, Ok(source), facts, isService, extractParams);
      && info.strategy == ViaBatch && info.scriptType == BatchScript
      && (info.isExecutable <==> BatchExecutable(source))
      && info.arguments == PositionalArgs(MarkedNumbers(source, '%'))
      && !info.needsConfiguration
  {
    assert RouteOf(Lower(Suffix(path.name))) == ToBatch;
    assert AnalyzeScript(path, Ok(source), facts, isService, extractParams) == AnalyzeBatch(path, Ok(source));
    ScannedParamsOptional(source);
  }

  /** A readable shell script runs via the shell, is executable exactly
      when it has a non-comment line, and never needs configuration. */
  lemma ShellExecutability(path: FilePath, source: string, facts: Result<PythonFacts, string>,
                           isService: bool, extractParams: string -> seq<ArgumentInfo>)
    requires Lower(Suffix(path.name)) == ".sh"
    ensures var info := AnalyzeScript(path, Ok(source), facts, isService, extractParams);
      && info.strategy == ViaShell && info.scriptType == ShellScript
      && (info.isExecutable <==> ShellExecutable(source))
      && info.arguments == ShellParams(source)
      && !info.needsConfiguration
  {
    assert RouteOf(Lower(Suffix(path.name))) == ToShell;
    assert AnalyzeScript(path, Ok(source), facts, isService, extractParams) == AnalyzeShell(path, Ok(source));
    ScannedParamsOptional(source);
  }

  /** Python scripts: a registered service always runs as a service;
      otherwise the strategy is one of the three in-process or subprocess
      ones, and configuration is needed exactly when an argument is required
      or has no default. */
  lemma PythonStrategy(path: FilePath, source: string, facts: PythonFacts,
                       isService: bool, extractParams: string -> seq<ArgumentInfo>)
    requires Lower(Suffix(path.name)) == ".py"
    ensures var info := AnalyzeScript(path, Ok(source), Ok(facts), isService, extractParams);
      && (isService ==> info.strategy == AsService)
      && (!isService ==> info.strategy in {Subprocess, FunctionCall, ModuleExec})
      && info.needsConfiguration == NeedsConfiguration(facts.arguments)
      && info.arguments == facts.arguments
  {
    assert RouteOf(Lower(Suffix(path.name))) == ToPython;
  }
}
