/**
 * The script loader: discovery of the scripts in the scripts directory and
 * of the external scripts configured in the settings, the tables that map
 * identifiers and legacy names to loaded scripts, and the gate in front of
 * the executor.
 *
 * The file system, the analyzer and the settings store are inputs: a
 * default script is its file name and what analysing it gave; an external
 * script is its configured name and path, whether the path is valid, and
 * what analysing it gave. Both discoveries run in a thread pool in the
 * source; their results are taken here in the order the analyses
 * completed, which is an input.
 */
module Loading {
  import opened Text
  import opened Values
  import opened Analysis
  import opened Executor

  /** A `ScriptInfo` with the attributes the loader gives it. */
  datatype LoadedScript = LoadedScript(
    info: ScriptInfo,
    identifier: string,
    legacyKeys: seq<string>,
    isExternal: bool,
    originPath: string)

  // ---------------------------------------------------------------- identifiers

  predicate LowerCase(s: string)
  {
    forall i :: 0 <= i < |s| ==> !IsUpperChar(s[i])
  }

  lemma LowerAppend(a: string, b: string)
    ensures Lower(a + b) == Lower(a) + Lower(b)
  {
    assert |Lower(a + b)| == |Lower(a) + Lower(b)|;
    forall i | 0 <= i < |a + b|
      ensures Lower(a + b)[i] == (Lower(a) + Lower(b))[i]
    {
      if i < |a| {
        assert (a + b)[i] == a[i];
      } else {
        assert (a + b)[i] == b[i - |a|];
      }
    }
  }

  lemma LowerOfLowerCase(s: string)
    requires LowerCase(s)
    ensures Lower(s) == s
  {
    assert |Lower(s)| == |s|;
    forall i | 0 <= i < |s|
      ensures Lower(s)[i] == s[i]
    {
    }
  }

  /** `_generate_default_identifier`: the stem followed by the lower-cased
      suffix, all lower-cased, which is the whole file name lower-cased. */
  function DefaultIdentifier(fileName: string): (r: string)
    ensures r == Lower(fileName) && LowerCase(r)
  {
    var stem := Stem(fileName);
    var suffix := Lower(Suffix(fileName));
    LowerAppend(stem, suffix);
    LowerAppend(stem, Suffix(fileName));
    LowerIdempotent(Suffix(fileName));
    Lower(if suffix != [] then stem + suffix else stem)
  }

  /** `_resolve_script_identifier`: nothing for an empty name; the name when
      it is a loaded identifier; else its lower-cased form when that is one;
      else the first identifier listed under the lower-cased name. */
  function Resolve(loaded: map<string, LoadedScript>, aliases: map<string, seq<string>>, name: string): (r: Option<string>)
    ensures name == [] ==> r.None?
    ensures r.Some? ==> r.value == name || r.value == Lower(name) || (Lower(name) in aliases && r.value in aliases[Lower(name)])
  {
    if name == [] then None
    else if name in loaded then Some(name)
    else if Lower(name) in loaded then Some(Lower(name))
    else if Lower(name) in aliases && aliases[Lower(name)] != [] then Some(aliases[Lower(name)][0])
    else None
  }

  // ---------------------------------------------------------------- the tables

  /** `loaded_scripts` (with its keys in insertion order), `legacy_aliases`
      and `failed_scripts`. */
  datatype Tables = Tables(
    loaded: map<string, LoadedScript>,
    keys: seq<string>,
    aliases: map<string, seq<string>>,
    failed: map<string, string>)

  const EMPTY_TABLES := Tables(map[], [], map[], map[])

  /** Every alias list is non-empty, has no repeated identifier and lists
      only loaded identifiers. */
  ghost predicate AliasesValid(aliases: map<string, seq<string>>, loaded: map<string, LoadedScript>)
  {
    forall a :: a in aliases ==>
      (aliases[a] != [] && NoDuplicates(aliases[a]) && forall i :: 0 <= i < |aliases[a]| ==> aliases[a][i] in loaded)
  }

  ghost predicate TablesValid(t: Tables)
  {
    && NoDuplicates(t.keys)
    && (forall k :: k in t.loaded <==> k in t.keys)
    && (forall k :: k in t.loaded ==> t.loaded[k].identifier == k && LowerCase(k))
    && AliasesValid(t.aliases, t.loaded)
  }

  /** A resolved name is always a loaded identifier. */
  lemma ResolvedIsLoaded(t: Tables, name: string)
    requires TablesValid(t)
    ensures Resolve(t.loaded, t.aliases, name).Some? ==> Resolve(t.loaded, t.aliases, name).value in t.loaded
  {
  }

  /** Resolving is idempotent: a resolved identifier resolves to itself. */
  lemma ResolveStable(t: Tables, name: string)
    requires TablesValid(t)
    requires Resolve(t.loaded, t.aliases, name).Some?
    ensures var id := Resolve(t.loaded, t.aliases, name).value;
      id != [] ==> Resolve(t.loaded, t.aliases, id) == Some(id)
  {
  }

  /** Resolution ignores case: every identifier is lower-case. */
  lemma ResolveIgnoresCase(t: Tables, name: string)
    requires TablesValid(t)
    ensures Resolve(t.loaded, t.aliases, name) == Resolve(t.loaded, t.aliases, Lower(name))
  {
    LowerIdempotent(name);
    if name in t.loaded {
      LowerOfLowerCase(name);
    }
  }

  /** `if identifier not in alias_list: alias_list.append(identifier)`. */
  function AppendNew(list: seq<string>, id: string): (r: seq<string>)
    ensures id in r && forall x :: x in r <==> x in list || x == id
  {
    if id in list then list else list + [id]
  }

  /** `legacy_aliases.setdefault(key, [])` followed by `AppendNew`. */
  function AddAlias(aliases: map<string, seq<string>>, key: string, id: string): (r: map<string, seq<string>>)
    ensures r.Keys == aliases.Keys + {key}
    ensures forall a :: a in aliases && a != key ==> r[a] == aliases[a]
  {
    aliases[key := AppendNew(if key in aliases then aliases[key] else [], id)]
  }

  function AddAliases(aliases: map<string, seq<string>>, keys: seq<string>, id: string): map<string, seq<string>>
    decreases |keys|
  {
    if keys == [] then aliases else AddAliases(AddAlias(aliases, keys[0], id), keys[1..], id)
  }

  /** Dictionary assignment: a new key goes last, an old one keeps its place. */
  function Insert(keys: seq<string>, k: string): (r: seq<string>)
    ensures forall x :: x in r <==> x in keys || x == k
  {
    if k in keys then keys else keys + [k]
  }

  /** Storing a script under its identifier and listing it under each alias key. */
  function Register(t: Tables, s: LoadedScript, aliasKeys: seq<string>): Tables
  {
    Tables(t.loaded[s.identifier := s], Insert(t.keys, s.identifier), AddAliases(t.aliases, aliasKeys, s.identifier), t.failed)
  }

  lemma AppendNewDistinct(list: seq<string>, id: string)
    requires NoDuplicates(list)
    ensures NoDuplicates(AppendNew(list, id))
  {
  }

  lemma AddAliasValid(aliases: map<string, seq<string>>, loaded: map<string, LoadedScript>, key: string, id: string)
    requires AliasesValid(aliases, loaded) && id in loaded
    ensures AliasesValid(AddAlias(aliases, key, id), loaded)
  {
    var list := if key in aliases then aliases[key] else [];
    AppendNewDistinct(list, id);
    var r := AddAlias(aliases, key, id);
    forall a | a in r
      ensures r[a] != [] && NoDuplicates(r[a]) && forall i :: 0 <= i < |r[a]| ==> r[a][i] in loaded
    {
      if a == key {
        assert r[a] == AppendNew(list, id);
        forall i | 0 <= i < |r[a]|
          ensures r[a][i] in loaded
        {
          assert r[a][i] in AppendNew(list, id);
        }
      }
    }
  }

  lemma {:induction false} AddAliasesValid(aliases: map<string, seq<string>>, loaded: map<string, LoadedScript>, keys: seq<string>, id: string)
    requires AliasesValid(aliases, loaded) && id in loaded
    ensures AliasesValid(AddAliases(aliases, keys, id), loaded)
    decreases |keys|
  {
    if keys != [] {
      AddAliasValid(aliases, loaded, keys[0], id);
      AddAliasesValid(AddAlias(aliases, keys[0], id), loaded, keys[1..], id);
    }
  }

  lemma AliasesGrow(aliases: map<string, seq<string>>, loaded: map<string, LoadedScript>, id: string, s: LoadedScript)
    requires AliasesValid(aliases, loaded)
    ensures AliasesValid(aliases, loaded[id := s])
  {
    forall a | a in aliases
      ensures forall i :: 0 <= i < |aliases[a]| ==> aliases[a][i] in loaded[id := s]
    {
    }
  }

  /** Registering keeps the tables consistent. */
  lemma RegisterValid(t: Tables, s: LoadedScript, aliasKeys: seq<string>)
    requires TablesValid(t) && LowerCase(s.identifier)
    ensures TablesValid(Register(t, s, aliasKeys))
  {
    var loaded := t.loaded[s.identifier := s];
    AliasesGrow(t.aliases, t.loaded, s.identifier, s);
    AddAliasesValid(t.aliases, loaded, aliasKeys, s.identifier);
  }

  // ---------------------------------------------------------------- default scripts

  /** What analysing one script gave. */
  datatype AnalysisOutcome = Analyzed(info: ScriptInfo) | AnalysisRaised(message: string)

  datatype DefaultFile = DefaultFile(name: string, outcome: AnalysisOutcome)

  /** `f"{None}"` for a missing error. */
  function ErrorText(error: Option<string>): string
  {
    if error.Some? then error.value else "None"
  }

  predicate IsDunder(name: string)
  {
    StartsWith(name, "__")
  }

  predicate DefaultLoads(f: DefaultFile)
  {
    !IsDunder(f.name) && f.outcome.Analyzed? && f.outcome.info.isExecutable
  }

  /** The script a loadable default file becomes. */
  function DefaultScript(f: DefaultFile): (s: LoadedScript)
    requires f.outcome.Analyzed?
    ensures s.identifier == Lower(f.name) && LowerCase(s.identifier) && !s.isExternal
  {
    LoadedScript(f.outcome.info, DefaultIdentifier(f.name), [Stem(f.name)], false, f.name)
  }

  /** One completed analysis of `_discover_default_scripts`. */
  function DefaultStep(t: Tables, f: DefaultFile): Tables
  {
    if IsDunder(f.name) then t
    else
      match f.outcome
      case AnalysisRaised(e) =>
        t.(failed := t.failed[f.name := "Failed to analyze " + f.name + ": " + e])
      case Analyzed(info) =>
        if info.isExecutable then
          var s := DefaultScript(f);
          Register(t, s, [Lower(Stem(f.name)), s.identifier])
        else
          t.(failed := t.failed[f.name := "Script not executable: " + ErrorText(info.error)])
  }

  function DefaultsFrom(t: Tables, files: seq<DefaultFile>): Tables
    decreases |files|
  {
    if files == [] then t else DefaultStep(DefaultsFrom(t, files[..|files| - 1]), files[|files| - 1])
  }

  /** The scripts `_discover_default_scripts` returns, in completion order. */
  function DefaultScripts(files: seq<DefaultFile>): seq<LoadedScript>
    decreases |files|
  {
    if files == [] then []
    else
      var last := files[|files| - 1];
      DefaultScripts(files[..|files| - 1]) + (if DefaultLoads(last) then [DefaultScript(last)] else [])
  }

  lemma {:induction false} DefaultsValid(t: Tables, files: seq<DefaultFile>)
    requires TablesValid(t)
    ensures TablesValid(DefaultsFrom(t, files))
    decreases |files|
  {
    if files != [] {
      DefaultsValid(t, files[..|files| - 1]);
      var f := files[|files| - 1];
      if !IsDunder(f.name) && f.outcome.Analyzed? && f.outcome.info.isExecutable {
        RegisterValid(DefaultsFrom(t, files[..|files| - 1]), DefaultScript(f), [Lower(Stem(f.name)), DefaultScript(f).identifier]);
      }
    }
  }

  /** The index of the file the default script at index `i` comes from. */
  function DefaultSource(files: seq<DefaultFile>, i: nat): (j: nat)
    requires i < |DefaultScripts(files)|
    ensures j < |files| && DefaultLoads(files[j]) && DefaultScripts(files)[i] == DefaultScript(files[j])
    decreases |files|
  {
    assert files != [];
    var init := files[..|files| - 1];
    var last := files[|files| - 1];
    assert DefaultScripts(files) == DefaultScripts(init) + (if DefaultLoads(last) then [DefaultScript(last)] else []);
    if i < |DefaultScripts(init)| then
      var j := DefaultSource(init, i);
      assert files[j] == init[j];
      assert DefaultScripts(files)[i] == DefaultScripts(init)[i];
      j
    else
      assert DefaultLoads(last) && i == |DefaultScripts(init)|;
      assert DefaultScripts(files)[i] == DefaultScript(last);
      |files| - 1
  }

  /** Every default script comes from a file not starting with `__`, is not
      external, and is identified by its lower-cased file name. */
  lemma DefaultScriptsShape(files: seq<DefaultFile>)
    ensures forall i :: 0 <= i < |DefaultScripts(files)| ==>
      var s := DefaultScripts(files)[i];
      !IsDunder(s.originPath) && !s.isExternal && s.identifier == Lower(s.originPath)
        && exists j :: 0 <= j < |files| && DefaultLoads(files[j]) && s == DefaultScript(files[j])
  {
    forall i | 0 <= i < |DefaultScripts(files)|
      ensures var s := DefaultScripts(files)[i];
        !IsDunder(s.originPath) && !s.isExternal && s.identifier == Lower(s.originPath)
          && exists j :: 0 <= j < |files| && DefaultLoads(files[j]) && s == DefaultScript(files[j])
    {
      var j := DefaultSource(files, i);
      assert DefaultScripts(files)[i].originPath == files[j].name;
    }
  }

  /** A file starting with `__` is skipped: it is neither loaded nor failed. */
  lemma DunderSkipped(t: Tables, f: DefaultFile)
    requires IsDunder(f.name)
    ensures DefaultStep(t, f) == t
  {
  }

  // ---------------------------------------------------------------- external scripts

  /** What analysing an external script gave; `Deleted` is the
      `FileNotFoundError` of a file removed after its path was checked. */
  datatype ExternalOutcome = ExtAnalyzed(info: ScriptInfo) | Deleted | ExtRaised(message: string)

  datatype ExternalEntry = ExternalEntry(name: string, path: string, pathValid: bool, outcome: ExternalOutcome)

  function FailureKey(name: string): string
  {
    name + " (external)"
  }

  predicate ExternalLoads(e: ExternalEntry)
  {
    e.pathValid && e.outcome.ExtAnalyzed? && e.outcome.info.isExecutable
  }

  /** The script a loadable external entry becomes: named as configured. */
  function ExternalScript(e: ExternalEntry): (s: LoadedScript)
    requires e.outcome.ExtAnalyzed?
    ensures s.identifier == Lower(e.name) && LowerCase(s.identifier) && s.isExternal
    ensures s.info.displayName == e.name && s.originPath == e.path
  {
    var info := e.outcome.info;
    LoadedScript(info.(displayName := e.name), Lower(e.name), [Stem(info.filePath.name)], true, e.path)
  }

  /** One entry of `_discover_external_scripts`. */
  function ExternalStep(t: Tables, e: ExternalEntry): Tables
  {
    if !e.pathValid then
      t.(failed := t.failed[FailureKey(e.name) := "External script path is invalid or missing: " + e.path])
    else
      match e.outcome
      case Deleted =>
        t.(failed := t.failed[FailureKey(e.name) :=
             "External script " + e.name + " was deleted during analysis: " + e.path])
      case ExtRaised(m) =>
        t.(failed := t.failed[FailureKey(e.name) :=
             "Failed to analyze external script " + e.name + " at " + e.path + ": " + m])
      case ExtAnalyzed(info) =>
        if info.isExecutable then
          var s := ExternalScript(e);
          Register(t, s, [Lower(e.name), Lower(Stem(info.filePath.name)), Lower(s.identifier)])
        else
          t.(failed := t.failed[FailureKey(e.name) := "External script not executable: " + ErrorText(info.error)])
  }

  function ExternalsFrom(t: Tables, entries: seq<ExternalEntry>): Tables
    decreases |entries|
  {
    if entries == [] then t else ExternalStep(ExternalsFrom(t, entries[..|entries| - 1]), entries[|entries| - 1])
  }

  function ExternalScripts(entries: seq<ExternalEntry>): seq<LoadedScript>
    decreases |entries|
  {
    if entries == [] then []
    else
      var last := entries[|entries| - 1];
      ExternalScripts(entries[..|entries| - 1]) + (if ExternalLoads(last) then [ExternalScript(last)] else [])
  }

  lemma {:induction false} ExternalsValid(t: Tables, entries: seq<ExternalEntry>)
    requires TablesValid(t)
    ensures TablesValid(ExternalsFrom(t, entries))
    decreases |entries|
  {
    if entries != [] {
      ExternalsValid(t, entries[..|entries| - 1]);
      var e := entries[|entries| - 1];
      if e.pathValid && e.outcome.ExtAnalyzed? && e.outcome.info.isExecutable {
        var s := ExternalScript(e);
        RegisterValid(ExternalsFrom(t, entries[..|entries| - 1]), s,
                      [Lower(e.name), Lower(Stem(e.outcome.info.filePath.name)), Lower(s.identifier)]);
      }
    }
  }

  /** Every failure an external entry records is under its `(external)` key. */
  lemma ExternalFailureKeys(t: Tables, e: ExternalEntry)
    ensures forall k :: k in ExternalStep(t, e).failed && k !in t.failed ==> k == FailureKey(e.name)
    ensures forall k :: k in ExternalStep(t, e).failed && k != FailureKey(e.name) ==>
      k in t.failed && ExternalStep(t, e).failed[k] == t.failed[k]
  {
  }

  // ---------------------------------------------------------------- ordering

  /** Python's `<=` on strings: code point by code point, a prefix first. */
  predicate StrLe(a: string, b: string)
    decreases |a|
  {
    a == [] || (b != [] && (a[0] < b[0] || (a[0] == b[0] && StrLe(a[1..], b[1..]))))
  }

  lemma {:induction false} StrLeTotal(a: string, b: string)
    ensures StrLe(a, b) || StrLe(b, a)
    decreases |a|
  {
    if a != [] && b != [] && a[0] == b[0] {
      StrLeTotal(a[1..], b[1..]);
    }
  }

  lemma {:induction false} StrLeRefl(a: string)
    ensures StrLe(a, a)
    decreases |a|
  {
    if a != [] {
      StrLeRefl(a[1..]);
    }
  }

  lemma {:induction false} StrLeTrans(a: string, b: string, c: string)
    requires StrLe(a, b) && StrLe(b, c)
    ensures StrLe(a, c)
    decreases |a|
  {
    if a != [] && a[0] == b[0] && b[0] == c[0] {
      StrLeTrans(a[1..], b[1..], c[1..]);
    }
  }

  /** The sort key of discovery: the lower-cased display name. */
  function SortKey(s: LoadedScript): string
  {
    Lower(s.info.displayName)
  }

  predicate SortedByName(s: seq<LoadedScript>)
  {
    forall i, j :: 0 <= i < j < |s| ==> StrLe(SortKey(s[i]), SortKey(s[j]))
  }

  /** `x` placed after every element whose key is not greater. */
  function InsertByName(sorted: seq<LoadedScript>, x: LoadedScript): (r: seq<LoadedScript>)
    ensures multiset(r) == multiset(sorted) + multiset{x}
    decreases |sorted|
  {
    if sorted == [] then [x]
    else if StrLe(SortKey(sorted[|sorted| - 1]), SortKey(x)) then sorted + [x]
    else
      var init := sorted[..|sorted| - 1];
      assert sorted == init + [sorted[|sorted| - 1]];
      InsertByName(init, x) + [sorted[|sorted| - 1]]
  }

  lemma {:induction false} InsertByNameSorted(sorted: seq<LoadedScript>, x: LoadedScript)
    requires SortedByName(sorted)
    ensures SortedByName(InsertByName(sorted, x))
    decreases |sorted|
  {
    if sorted != [] {
      var last := sorted[|sorted| - 1];
      var r := InsertByName(sorted, x);
      if StrLe(SortKey(last), SortKey(x)) {
        forall i, j | 0 <= i < j < |r|
          ensures StrLe(SortKey(r[i]), SortKey(r[j]))
        {
          if j == |sorted| {
            StrLeRefl(SortKey(last));
            StrLeTrans(SortKey(sorted[i]), SortKey(last), SortKey(x));
          }
        }
      } else {
        var init := sorted[..|sorted| - 1];
        InsertByNameSorted(init, x);
        StrLeTotal(SortKey(last), SortKey(x));
        var front := InsertByName(init, x);
        assert r == front + [last];
        forall i, j | 0 <= i < j < |r|
          ensures StrLe(SortKey(r[i]), SortKey(r[j]))
        {
          if j == |front| {
            assert r[i] == front[i];
            assert front[i] in multiset(init) + multiset{x} by {
              assert front[i] in multiset(front);
            }
            if front[i] != x {
              var k :| 0 <= k < |init| && init[k] == front[i];
              assert sorted[k] == init[k];
            }
          }
        }
      }
    }
  }

  /** `scripts.sort(key=lambda info: info.display_name.lower())`. */
  function SortByName(s: seq<LoadedScript>): (r: seq<LoadedScript>)
    ensures multiset(r) == multiset(s)
    decreases |s|
  {
    if s == [] then []
    else
      assert s == s[..|s| - 1] + [s[|s| - 1]];
      InsertByName(SortByName(s[..|s| - 1]), s[|s| - 1])
  }

  /** Discovery returns its scripts ordered by lower-cased display name. */
  lemma {:induction false} SortByNameSorted(s: seq<LoadedScript>)
    ensures SortedByName(SortByName(s))
    decreases |s|
  {
    if s != [] {
      SortByNameSorted(s[..|s| - 1]);
      InsertByNameSorted(SortByName(s[..|s| - 1]), s[|s| - 1]);
    }
  }

  // ---------------------------------------------------------------- arguments

  /** The first legacy key with stored arguments gives them; none gives `{}`. */
  function LegacyArguments(keys: seq<string>, stored: string -> map<string, PyValue>): (r: map<string, PyValue>)
    ensures r != map[] ==> exists i :: 0 <= i < |keys| && r == stored(keys[i]) && forall j :: 0 <= j < i ==> stored(keys[j]) == map[]
    ensures r == map[] ==> forall i :: 0 <= i < |keys| ==> stored(keys[i]) == map[]
    decreases |keys|
  {
    if keys == [] then map[]
    else if stored(keys[0]) != map[] then stored(keys[0])
    else
      var rest := LegacyArguments(keys[1..], stored);
      assert forall i :: 1 <= i < |keys| ==> keys[1..][i - 1] == keys[i];
      if rest != map[] then
        var i :| 0 <= i < |keys[1..]| && rest == stored(keys[1..][i]) && forall j :: 0 <= j < i ==> stored(keys[1..][j]) == map[];
        assert keys[1..][i] == keys[i + 1];
        rest
      else rest
  }

  /** How a run request ended: refused before the executor was called (the
      dictionary with only `success` false and `message`), or run. */
  datatype RunReport = NotRun(message: string) | Ran(result: ExecutionResult)

  function NotFoundMessage(name: string): string
  {
    "Script \"" + name + "\" not found"
  }

  // ---------------------------------------------------------------- refreshing external scripts

  /** `[i for i in identifiers if i not in removed]`. */
  function Filtered(list: seq<string>, removed: set<string>): (r: seq<string>)
    ensures forall x :: x in r <==> x in list && x !in removed
    ensures NoDuplicates(list) ==> NoDuplicates(r)
    decreases |list|
  {
    if list == [] then []
    else
      var rest := Filtered(list[1..], removed);
      assert forall x :: x in list[1..] ==> x in list;
      if list[0] in removed then rest else [list[0]] + rest
  }

  function ExternalIds(loaded: map<string, LoadedScript>): set<string>
  {
    set k | k in loaded && loaded[k].isExternal
  }

  /** The tables once the external scripts, their aliases and their failures
      are gone, before they are discovered again. */
  function Pruned(t: Tables): (r: Tables)
  {
    var removed := ExternalIds(t.loaded);
    Tables(
      map k | k in t.loaded && k !in removed :: t.loaded[k],
      Filtered(t.keys, removed),
      if removed == {} then t.aliases
      else map a | a in t.aliases && Filtered(t.aliases[a], removed) != [] :: Filtered(t.aliases[a], removed),
      map k | k in t.failed && !Contains(k, "(external)") :: t.failed[k])
  }

  /** Pruning leaves the default scripts and the other failures exactly as
      they were, removes every external script, and keeps the tables
      consistent. */
  lemma PrunedSpec(t: Tables)
    requires TablesValid(t)
    ensures var r := Pruned(t);
      && TablesValid(r)
      && (forall k :: k in r.loaded <==> k in t.loaded && !t.loaded[k].isExternal)
      && (forall k :: k in r.loaded ==> r.loaded[k] == t.loaded[k])
      && (forall k :: k in r.failed <==> k in t.failed && !Contains(k, "(external)"))
      && (forall k :: k in r.failed ==> r.failed[k] == t.failed[k])
  {
    var r := Pruned(t);
    var removed := ExternalIds(t.loaded);
    forall a | a in r.aliases
      ensures r.aliases[a] != [] && NoDuplicates(r.aliases[a])
        && forall i :: 0 <= i < |r.aliases[a]| ==> r.aliases[a][i] in r.loaded
    {
      if removed != {} {
        assert r.aliases[a] == Filtered(t.aliases[a], removed);
        forall i | 0 <= i < |r.aliases[a]|
          ensures r.aliases[a][i] in r.loaded
        {
          assert r.aliases[a][i] in Filtered(t.aliases[a], removed);
        }
      }
    }
  }

  // ---------------------------------------------------------------- the loader

  class ScriptLoader {
    var loaded: map<string, LoadedScript>
    var keys: seq<string>
    var aliases: map<string, seq<string>>
    var failed: map<string, string>
    const executor: ScriptExecutor

    function State(): Tables
      reads this
    {
      Tables(loaded, keys, aliases, failed)
    }

    ghost predicate Valid()
      reads this
    {
      TablesValid(State())
    }

    constructor(executor: ScriptExecutor)
      ensures Valid() && State() == EMPTY_TABLES && this.executor == executor
    {
      loaded := map[];
      keys := [];
      aliases := map[];
      failed := map[];
      this.executor := executor;
    }

    /** The `setdefault`/`append` pair for one alias key. */
    method AddAliasEntry(key: string, id: string)
      modifies this
      ensures State() == old(State()).(aliases := AddAlias(old(aliases), key, id))
    {
      var list := if key in aliases then aliases[key] else [];
      if id !in list {
        list := list + [id];
      }
      aliases := aliases[key := list];
    }

    /** Storing a script and its alias entries. */
    method RegisterScript(s: LoadedScript, aliasKeys: seq<string>)
      modifies this
      ensures State() == Register(old(State()), s, aliasKeys)
    {
      loaded := loaded[s.identifier := s];
      if s.identifier !in keys {
        keys := keys + [s.identifier];
      }
      ghost var before := aliases;
      var i := 0;
      while i < |aliasKeys|
        invariant 0 <= i <= |aliasKeys|
        invariant AddAliases(aliases, aliasKeys[i..], s.identifier) == AddAliases(before, aliasKeys, s.identifier)
        invariant loaded == old(loaded)[s.identifier := s] && keys == Insert(old(keys), s.identifier) && failed == old(failed)
      {
        assert aliasKeys[i..][1..] == aliasKeys[i + 1..];
        AddAliasEntry(aliasKeys[i], s.identifier);
        i := i + 1;
      }
      assert aliasKeys[i..] == [];
    }

    /** `_discover_default_scripts`: nothing when the directory is missing;
        otherwise every completed analysis is registered or recorded as a
        failure. */
    method DiscoverDefault(directoryExists: bool, files: seq<DefaultFile>) returns (scripts: seq<LoadedScript>)
      modifies this
      ensures !directoryExists ==> scripts == [] && State() == old(State())
      ensures directoryExists ==> scripts == DefaultScripts(files) && State() == DefaultsFrom(old(State()), files)
    {
      scripts := [];
      if !directoryExists {
        return;
      }
      ghost var start := State();
      var i := 0;
      while i < |files|
        invariant 0 <= i <= |files|
        invariant State() == DefaultsFrom(start, files[..i])
        invariant scripts == DefaultScripts(files[..i])
      {
        assert files[..i + 1][..i] == files[..i] && files[..i + 1][i] == files[i];
        var found := DiscoverOne(files[i]);
        scripts := scripts + found;
        i := i + 1;
      }
      assert files[..i] == files;
    }

    /** One completed analysis of `_discover_default_scripts`: the script it
        registers, if any. */
    method DiscoverOne(f: DefaultFile) returns (found: seq<LoadedScript>)
      modifies this
      ensures State() == DefaultStep(old(State()), f)
      ensures found == if DefaultLoads(f) then [DefaultScript(f)] else []
    {
      found := [];
      if !IsDunder(f.name) {
        match f.outcome
        case AnalysisRaised(e) =>
          failed := failed[f.name := "Failed to analyze " + f.name + ": " + e];
        case Analyzed(info) =>
          if info.isExecutable {
            var s := DefaultScript(f);
            RegisterScript(s, [Lower(Stem(f.name)), s.identifier]);
            found := [s];
          } else {
            failed := failed[f.name := "Script not executable: " + ErrorText(info.error)];
          }
      }
    }

    /** `_discover_external_scripts`. */
    method DiscoverExternal(entries: seq<ExternalEntry>) returns (scripts: seq<LoadedScript>)
      modifies this
      ensures scripts == ExternalScripts(entries) && State() == ExternalsFrom(old(State()), entries)
    {
      scripts := [];
      ghost var start := State();
      var i := 0;
      while i < |entries|
        invariant 0 <= i <= |entries|
        invariant State() == ExternalsFrom(start, entries[..i])
        invariant scripts == ExternalScripts(entries[..i])
      {
        var e := entries[i];
        assert entries[..i + 1][..i] == entries[..i];
        if !e.pathValid {
          failed := failed[FailureKey(e.name) := "External script path is invalid or missing: " + e.path];
        } else {
          match e.outcome
          case Deleted =>
            failed := failed[FailureKey(e.name) := "External script " + e.name + " was deleted during analysis: " + e.path];
          case ExtRaised(m) =>
            failed := failed[FailureKey(e.name) :=
              "Failed to analyze external script " + e.name + " at " + e.path + ": " + m];
          case ExtAnalyzed(info) =>
            if info.isExecutable {
              var s := ExternalScript(e);
              RegisterScript(s, [Lower(e.name), Lower(Stem(info.filePath.name)), Lower(s.identifier)]);
              scripts := scripts + [s];
            } else {
              failed := failed[FailureKey(e.name) := "External script not executable: " + ErrorText(info.error)];
            }
        }
        i := i + 1;
      }
      assert entries[..i] == entries;
    }

    /** `discover_scripts`: the tables are rebuilt from scratch, default
        scripts first, and the scripts come back ordered by lower-cased
        display name. */
    method DiscoverScripts(directoryExists: bool, files: seq<DefaultFile>, entries: seq<ExternalEntry>)
      returns (scripts: seq<LoadedScript>)
      modifies this
      ensures Valid()
      ensures var defaults := if directoryExists then DefaultsFrom(EMPTY_TABLES, files) else EMPTY_TABLES;
        State() == ExternalsFrom(defaults, entries)
      ensures scripts == SortByName((if directoryExists then DefaultScripts(files) else []) + ExternalScripts(entries))
      ensures SortedByName(scripts)
    {
      failed := map[];
      loaded := map[];
      keys := [];
      aliases := map[];
      var defaults := DiscoverDefault(directoryExists, files);
      var externals := DiscoverExternal(entries);
      scripts := SortByName(defaults + externals);
      SortByNameSorted(defaults + externals);
      DefaultsValid(EMPTY_TABLES, files);
      ExternalsValid(if directoryExists then DefaultsFrom(EMPTY_TABLES, files) else EMPTY_TABLES, entries);
    }

    /** `_resolve_script_identifier`. */
    function ResolveIdentifier(name: string): Option<string>
      reads this
    {
      Resolve(loaded, aliases, name)
    }

    /** `get_script`: the script a non-empty resolved identifier names. */
    function GetScript(name: string): (r: Option<LoadedScript>)
      reads this
      requires Valid()
      ensures r.Some? <==> ResolveIdentifier(name).Some? && ResolveIdentifier(name).value != []
      ensures r.Some? ==> r.value == loaded[ResolveIdentifier(name).value] && r.value.identifier == ResolveIdentifier(name).value
    {
      ResolvedIsLoaded(State(), name);
      var id := ResolveIdentifier(name);
      if id.Some? && id.value != [] then Some(loaded[id.value]) else None
    }

    /** The legacy-key loop of `get_script_arguments`. */
    method LegacyLookup(legacyKeys: seq<string>, stored: string -> map<string, PyValue>) returns (r: map<string, PyValue>)
      ensures r == LegacyArguments(legacyKeys, stored)
    {
      var i := 0;
      while i < |legacyKeys|
        invariant 0 <= i <= |legacyKeys|
        invariant LegacyArguments(legacyKeys[i..], stored) == LegacyArguments(legacyKeys, stored)
      {
        assert legacyKeys[i..][1..] == legacyKeys[i + 1..];
        var found := stored(legacyKeys[i]);
        if found != map[] {
          return found;
        }
        i := i + 1;
      }
      return map[];
    }

    /** `get_script_arguments` as a value: the arguments stored under the
        resolved identifier (or the name itself), else those of the first
        legacy key of the script that has any, else none. */
    function ArgumentsFor(name: string, stored: string -> map<string, PyValue>): (r: map<string, PyValue>)
      reads this
      requires Valid()
      ensures var resolved := ResolveIdentifier(name);
        var id := if resolved.Some? && resolved.value != [] then resolved.value else name;
        && (stored(id) != map[] ==> r == stored(id))
        && (stored(id) == map[] && GetScript(id).None? ==> r == map[])
        && (stored(id) == map[] && GetScript(id).Some? ==>
              (r == map[] || exists i :: 0 <= i < |GetScript(id).value.legacyKeys| && r == stored(GetScript(id).value.legacyKeys[i])))
    {
      var resolved := ResolveIdentifier(name);
      var id := if resolved.Some? && resolved.value != [] then resolved.value else name;
      if stored(id) != map[] then stored(id)
      else if GetScript(id).Some? then LegacyArguments(GetScript(id).value.legacyKeys, stored)
      else map[]
    }

    /** `get_script_arguments`. */
    method ScriptArguments(name: string, stored: string -> map<string, PyValue>) returns (r: map<string, PyValue>)
      requires Valid()
      ensures r == ArgumentsFor(name, stored)
    {
      var resolved := ResolveIdentifier(name);
      var id := if resolved.Some? && resolved.value != [] then resolved.value else name;
      r := stored(id);
      if r != map[] {
        return;
      }
      var script := GetScript(id);
      if script.Some? {
        r := LegacyLookup(script.value.legacyKeys, stored);
      }
    }

    /** What `execute_script` reports when `name` runs with the arguments
        `args`, given the executor's cache before the run (`order0`, `times0`,
        `last0`) and the executor as it is afterwards. */
    ghost predicate Reported(name: string, args: map<string, PyValue>, env: Environment, now: real, r: RunReport,
                             order0: seq<string>, times0: map<string, real>, last0: real)
      reads this, executor
    {
      && Valid()
      && (forall y :: y in order0 ==> y in times0)
      && (GetScript(name).None? ==> r == NotRun(NotFoundMessage(name)))
      && (GetScript(name).Some? ==>
        var info := GetScript(name).value.info;
        var errors := ValidationErrors(info.arguments, args);
        var cleaned := AfterCleanup(order0, times0, last0, now, executor.cacheTtl);
        && (errors != [] ==> r == NotRun("Argument validation failed: " + Join(errors, "; ")))
        && (errors == [] ==> r.Ran?)
        && (errors == [] && !info.isExecutable ==> r.result == Failure(NotExecutableMessage(info)))
        && (errors == [] && info.isExecutable && info.strategy == Subprocess ==>
              r.result == SubprocessResult(info, args, env.interpreter, executor.timeoutSetting, env.process, env.parseJson))
        && (errors == [] && info.isExecutable && info.strategy == ModuleExec ==> r.result == ModuleResult(info, env.load))
        && (errors == [] && info.isExecutable && info.strategy == FunctionCall ==>
              (r.result, executor.order) == FunctionCallOutcome(cleaned, info, env, executor.maxCacheSize))
        && (errors == [] && info.isExecutable && info.strategy !in {Subprocess, FunctionCall, ModuleExec} ==>
              r.result == Failure("Unknown execution strategy: " + StrategyName(info.strategy))))
    }

    /** `execute_script`: an unknown name and failed validation are answered
        without calling the executor; otherwise the executor runs the script
        with the given arguments, or the stored ones when none are given. */
    method ExecuteScript(name: string, arguments: Option<map<string, PyValue>>,
                         stored: string -> map<string, PyValue>, env: Environment, now: real)
      returns (r: RunReport)
      requires Valid() && executor.Valid()
      modifies executor
      ensures executor.Valid()
      ensures GetScript(name).None? ==> r == NotRun(NotFoundMessage(name)) && unchanged(executor)
      ensures GetScript(name).Some? ==>
        var script := GetScript(name).value;
        var info := script.info;
        var args := if arguments.Some? then arguments.value else ArgumentsFor(script.identifier, stored);
        var errors := ValidationErrors(info.arguments, args);
        && (errors != [] ==> r == NotRun("Argument validation failed: " + Join(errors, "; ")) && unchanged(executor))
        && (errors == [] ==> r.Ran?)
        && (errors == [] && !info.isExecutable ==> r.result == Failure(NotExecutableMessage(info)))
        && (errors == [] && info.isExecutable && info.strategy == Subprocess ==>
              r.result == SubprocessResult(info, args, env.interpreter, executor.timeoutSetting, env.process, env.parseJson))
        && (errors == [] && info.isExecutable && info.strategy == ModuleExec ==> r.result == ModuleResult(info, env.load))
        && (errors == [] && info.isExecutable && info.strategy == FunctionCall ==>
              (r.result, executor.order)
                == FunctionCallOutcome(AfterCleanup(old(executor.order), old(executor.accessTimes), old(executor.lastCleanup),
                                                    now, executor.cacheTtl),
                                       info, env, executor.maxCacheSize))
        && (errors == [] && info.isExecutable && info.strategy !in {Subprocess, FunctionCall, ModuleExec} ==>
              r.result == Failure("Unknown execution strategy: " + StrategyName(info.strategy)))
        && (errors == [] && (info.strategy != FunctionCall || !info.isExecutable) ==>
              executor.order == AfterCleanup(old(executor.order), old(executor.accessTimes), old(executor.lastCleanup),
                                             now, executor.cacheTtl))
      ensures Reported(name, if arguments.Some? then arguments.value
                             else if GetScript(name).Some? then ArgumentsFor(GetScript(name).value.identifier, stored)
                             else map[],
                       env, now, r, old(executor.order), old(executor.accessTimes), old(executor.lastCleanup))
    {
      var id := ResolveIdentifier(name);
      ResolvedIsLoaded(State(), name);
      if id.None? || id.value == [] {
        return NotRun(NotFoundMessage(name));
      }
      var script := loaded[id.value];
      var args: map<string, PyValue>;
      if arguments.None? {
        args := ScriptArguments(id.value, stored);
      } else {
        args := arguments.value;
      }
      var errors := ValidationErrors(script.info.arguments, args);
      if errors != [] {
        return NotRun("Argument validation failed: " + Join(errors, "; "));
      }
      var result := executor.ExecuteScript(script.info, Some(args), env, now);
      r := Ran(result);
    }

    /** `refresh_external_scripts`: the external scripts, the alias entries
        that pointed at them and the external failures are removed, then the
        external scripts are discovered again; default scripts stay. */
    method RefreshExternal(entries: seq<ExternalEntry>) returns (all: seq<LoadedScript>)
      requires Valid()
      modifies this
      ensures Valid()
      ensures State() == ExternalsFrom(Pruned(old(State())), entries)
      ensures all == AllScripts(State())
    {
      ghost var t := State();
      var removed := RemoveExternal();
      PruneAliases(removed);
      DropExternalFailures();
      PrunedSpec(t);
      assert State() == Pruned(t);
      var _ := DiscoverExternal(entries);
      ExternalsValid(Pruned(t), entries);
      all := AllScripts(State());
    }

    /** The first loop of `refresh_external_scripts`. */
    method RemoveExternal() returns (removed: set<string>)
      requires Valid()
      modifies this
      ensures removed == ExternalIds(old(loaded))
      ensures loaded == map k | k in old(loaded) && k !in removed :: old(loaded)[k]
      ensures keys == Filtered(old(keys), removed)
      ensures aliases == old(aliases) && failed == old(failed)
    {
      removed := {};
      var i := 0;
      while i < |keys|
        invariant 0 <= i <= |old(keys)| && keys == old(keys)
        invariant removed == set k | k in old(keys)[..i] && old(loaded)[k].isExternal
        invariant loaded == map k | k in old(loaded) && k !in removed :: old(loaded)[k]
        invariant aliases == old(aliases) && failed == old(failed)
      {
        var id := keys[i];
        assert old(keys)[..i + 1] == old(keys)[..i] + [id];
        if loaded[id].isExternal {
          removed := removed + {id};
          loaded := loaded - {id};
        }
        i := i + 1;
      }
      assert old(keys)[..i] == old(keys);
      keys := Filtered(keys, removed);
    }

    /** The alias loop of `refresh_external_scripts`. */
    method PruneAliases(removed: set<string>)
      modifies this
      ensures removed == {} ==> aliases == old(aliases)
      ensures removed != {} ==>
        aliases == map a | a in old(aliases) && Filtered(old(aliases)[a], removed) != [] :: Filtered(old(aliases)[a], removed)
      ensures loaded == old(loaded) && keys == old(keys) && failed == old(failed)
    {
      if removed == {} {
        return;
      }
      var todo := aliases.Keys;
      while todo != {}
        invariant todo <= old(aliases).Keys
        invariant forall a :: a in aliases <==> a in old(aliases) && (a in todo || Filtered(old(aliases)[a], removed) != [])
        invariant forall a :: a in aliases ==> aliases[a] == if a in todo then old(aliases)[a] else Filtered(old(aliases)[a], removed)
        invariant loaded == old(loaded) && keys == old(keys) && failed == old(failed)
        decreases |todo|
      {
        var a :| a in todo;
        var kept := Filtered(aliases[a], removed);
        if kept != [] {
          aliases := aliases[a := kept];
        } else {
          aliases := aliases - {a};
        }
        todo := todo - {a};
      }
    }

    /** The failure loop of `refresh_external_scripts`. */
    method DropExternalFailures()
      modifies this
      ensures failed == map k | k in old(failed) && !Contains(k, "(external)") :: old(failed)[k]
      ensures loaded == old(loaded) && keys == old(keys) && aliases == old(aliases)
    {
      var todo := failed.Keys;
      while todo != {}
        invariant todo <= old(failed).Keys
        invariant forall k :: k in failed <==> k in old(failed) && (k in todo || !Contains(k, "(external)"))
        invariant forall k :: k in failed ==> failed[k] == old(failed)[k]
        invariant loaded == old(loaded) && keys == old(keys) && aliases == old(aliases)
        decreases |todo|
      {
        var k :| k in todo;
        if Contains(k, "(external)") {
          failed := failed - {k};
        }
        todo := todo - {k};
      }
    }
  }

  /** `list(loaded_scripts.values())`, in insertion order. */
  function AllScripts(t: Tables): (r: seq<LoadedScript>)
    requires forall k :: k in t.keys ==> k in t.loaded
    ensures |r| == |t.keys| && forall i :: 0 <= i < |r| ==> r[i] == t.loaded[t.keys[i]]
    decreases |t.keys|
  {
    if t.keys == [] then []
    else [t.loaded[t.keys[0]]] + AllScripts(t.(keys := t.keys[1..]))
  }
}
