/**
 * The settings manager: a persistent key/value store addressed by
 * "category/option" keys, with a table of defaults, string booleans
 * read back as booleans, a change signal, and the custom display names of
 * scripts.
 *
 * The platform settings store is a map from keys to values; `events`
 * records the `settings_changed` signal.
 */
module Preferences {
  import opened Text
  import opened Values

  // ---------------------------------------------------------------- defaults

  /** `DEFAULTS`: each category with its options, in declaration order. */
  const DEFAULTS: seq<(string, seq<(string, PyValue)>)> := [
    ("startup", [("run_on_startup", PyBool(false)), ("start_minimized", PyBool(true)),
                 ("show_notification", PyBool(true))]),
    ("window", [("geometry", PyNone), ("last_position", PyNone)]),
    ("behavior", [("minimize_to_tray", PyBool(true)), ("close_to_tray", PyBool(true)),
                  ("single_instance", PyBool(true)), ("show_script_notifications", PyBool(true))]),
    ("hotkeys", []),
    ("custom_names", []),
    ("appearance", [("font_family", PyStr("System Default")), ("font_size", PyInt(9))]),
    ("script_arguments", [])
  ]

  /** The value of the first entry named `key`. */
  function Find<V>(entries: seq<(string, V)>, key: string): (r: Option<V>)
    ensures r.Some? <==> exists i :: 0 <= i < |entries| && entries[i].0 == key
    ensures r.Some? ==> exists i :: 0 <= i < |entries| && entries[i] == (key, r.value)
    decreases |entries|
  {
    if entries == [] then None
    else if entries[0].0 == key then Some(entries[0].1)
    else
      var rest := Find(entries[1..], key);
      assert forall i :: 1 <= i < |entries| ==> entries[1..][i - 1] == entries[i];
      rest
  }

  function DefaultOf(category: string, option: string): Option<PyValue>
  {
    match Find(DEFAULTS, category)
    case Some(options) => Find(options, option)
    case None => None
  }

  function FullKey(category: string, option: string): string
  {
    category + "/" + option
  }

  /** `_ensure_defaults` on one category: each missing option is written. */
  function WithOptions(store: map<string, PyValue>, category: string, options: seq<(string, PyValue)>)
    : map<string, PyValue>
    decreases |options|
  {
    if options == [] then store
    else
      var key := FullKey(category, options[0].0);
      var next := if key in store then store else store[key := options[0].1];
      WithOptions(next, category, options[1..])
  }

  /** Writing one category's defaults keeps every stored value, adds a key
      for each option and nothing else. */
  lemma {:induction false} WithOptionsSpec(store: map<string, PyValue>, category: string, options: seq<(string, PyValue)>)
    ensures var r := WithOptions(store, category, options);
      && (forall k :: k in store ==> k in r && r[k] == store[k])
      && (forall j :: 0 <= j < |options| ==> FullKey(category, options[j].0) in r)
      && (forall k :: k in r ==> k in store || exists j :: 0 <= j < |options| && k == FullKey(category, options[j].0))
    decreases |options|
  {
    if options != [] {
      var key := FullKey(category, options[0].0);
      var next := if key in store then store else store[key := options[0].1];
      WithOptionsSpec(next, category, options[1..]);
      assert forall j :: 1 <= j < |options| ==> options[1..][j - 1] == options[j];
    }
  }

  /** `_ensure_defaults`. */
  function WithDefaults(store: map<string, PyValue>, categories: seq<(string, seq<(string, PyValue)>)>)
    : map<string, PyValue>
    decreases |categories|
  {
    if categories == [] then store
    else WithDefaults(WithOptions(store, categories[0].0, categories[0].1), categories[1..])
  }

  /** After `_ensure_defaults` every default key is present and every key
      that was present keeps its value. */
  lemma {:induction false} WithDefaultsSpec(store: map<string, PyValue>, categories: seq<(string, seq<(string, PyValue)>)>)
    ensures forall k :: k in store ==> k in WithDefaults(store, categories) && WithDefaults(store, categories)[k] == store[k]
    ensures forall i, j :: 0 <= i < |categories| && 0 <= j < |categories[i].1| ==>
      FullKey(categories[i].0, categories[i].1[j].0) in WithDefaults(store, categories)
    decreases |categories|
  {
    if categories != [] {
      var next := WithOptions(store, categories[0].0, categories[0].1);
      WithOptionsSpec(store, categories[0].0, categories[0].1);
      WithDefaultsSpec(next, categories[1..]);
      assert forall i :: 1 <= i < |categories| ==> categories[1..][i - 1] == categories[i];
    }
  }

  /** The loops of `_ensure_defaults`. */
  method EnsureDefaults(initial: map<string, PyValue>, categories: seq<(string, seq<(string, PyValue)>)>)
    returns (written: map<string, PyValue>)
    ensures written == WithDefaults(initial, categories)
  {
    written := initial;
    var i := 0;
    while i < |categories|
      invariant 0 <= i <= |categories|
      invariant WithDefaults(written, categories[i..]) == WithDefaults(initial, categories)
    {
      var (category, options) := categories[i];
      ghost var before := written;
      var j := 0;
      while j < |options|
        invariant 0 <= j <= |options|
        invariant WithOptions(written, category, options[j..]) == WithOptions(before, category, options)
      {
        var key := FullKey(category, options[j].0);
        assert options[j..][1..] == options[j + 1..];
        if key !in written {
          written := written[key := options[j].1];
        }
        j := j + 1;
      }
      assert options[j..] == [];
      assert categories[i..][1..] == categories[i + 1..];
      i := i + 1;
    }
    assert categories[i..] == [];
  }

  // ---------------------------------------------------------------- reading and writing

  /** A string "true" or "false" in any letter case. */
  predicate IsBoolText(v: PyValue)
  {
    v.PyStr? && (Lower(v.s) == "true" || Lower(v.s) == "false")
  }

  /** The string-boolean conversion of `get`. */
  function Converted(v: PyValue): (r: PyValue)
    ensures !IsBoolText(r)
    ensures !IsBoolText(v) ==> r == v
    ensures IsBoolText(v) ==> r == PyBool(Lower(v.s) == "true")
  {
    if v.PyStr? && Lower(v.s) == "true" then PyBool(true)
    else if v.PyStr? && Lower(v.s) == "false" then PyBool(false)
    else v
  }

  /** The default `get` uses: the table's value for a two-part key it
      names, else the caller's. */
  function DefaultFor(key: string, default: PyValue): PyValue
  {
    var parts := Split(key, '/');
    if |parts| == 2 && DefaultOf(parts[0], parts[1]).Some? then DefaultOf(parts[0], parts[1]).value else default
  }

  /** `get`: the stored value, else the default, with string booleans
      converted. */
  function Lookup(store: map<string, PyValue>, key: string, default: PyValue): (r: PyValue)
    ensures !IsBoolText(r)
    ensures key in store && !IsBoolText(store[key]) ==> r == store[key]
  {
    Converted(if key in store then store[key] else DefaultFor(key, default))
  }

  /** A missing option of the table reads as its default, whatever default
      the caller gives. */
  lemma MissingReadsDefault(store: map<string, PyValue>, category: string, option: string, default: PyValue)
    requires '/' !in category && '/' !in option
    requires DefaultOf(category, option).Some? && FullKey(category, option) !in store
    ensures Lookup(store, FullKey(category, option), default) == Converted(DefaultOf(category, option).value)
  {
    SplitJoin([category, option], '/');
    assert Join([category, option], "/") == FullKey(category, option);
  }

  /** A key outside the table reads as the caller's default. */
  lemma UnknownReadsCallerDefault(store: map<string, PyValue>, key: string, default: PyValue)
    requires key !in store
    requires forall c, o :: DefaultOf(c, o).Some? ==> key != FullKey(c, o)
    ensures Lookup(store, key, default) == Converted(default)
  {
    var parts := Split(key, '/');
    if |parts| == 2 {
      JoinSplit(key, '/');
      assert Join(parts, "/") == FullKey(parts[0], parts[1]);
    }
  }

  /** Python `==` on the values a setting holds: a boolean equals the
      integer 1 or 0. */
  predicate PyEq(a: PyValue, b: PyValue)
  {
    match (a, b)
    case (PyBool(x), PyInt(i)) => (if x then 1 else 0) == i
    case (PyInt(i), PyBool(y)) => i == (if y then 1 else 0)
    case _ => a == b
  }

  // ---------------------------------------------------------------- custom names

  const CUSTOM_PREFIX := "custom_names/"

  function CustomKey(original: string): string
  {
    CUSTOM_PREFIX + original
  }

  /** The "custom_names" category has no options, so no custom-name key has
      a table default. */
  lemma CustomKeyNoDefault(original: string, default: PyValue)
    ensures DefaultFor(CustomKey(original), default) == default
  {
    var name := "custom_names";
    assert CustomKey(original) == name + ['/'] + original;
    assert '/' !in name;
    IndexAfter(name, '/', original);
    var parts := Split(CustomKey(original), '/');
    assert parts[0] == name;
    assert DEFAULTS[4].0 == name;
    assert Find(DEFAULTS, name) == Some([]);
  }

  /** The characters the custom-name pattern accepts. */
  predicate AllowedChar(c: char)
  {
    IsAlpha(c) || IsDigit(c) || IsSpace(c)
    || c == '-' || c == '_' || c == '(' || c == ')' || c == '[' || c == ']' || c == '.'
    || c == ',' || c == ':' || c == ';' || c == '!' || c == '?' || c == '\'' || c == '"'
  }

  predicate IsCustomKey(k: string)
  {
    StartsWith(k, CUSTOM_PREFIX)
  }

  /** A custom name held by a script other than `original`. */
  predicate CustomNameOfOther(store: map<string, PyValue>, k: string, original: string)
  {
    k in store && IsCustomKey(k) && k[|CUSTOM_PREFIX|..] != original
  }

  /** `_validate_custom_name`: 1 to 50 allowed characters, and no clash,
      ignoring case, with another script's name or another script's custom
      name. */
  predicate ValidCustomName(store: map<string, PyValue>, name: string, original: string, existing: seq<string>)
  {
    && 1 <= |name| <= 50
    && (forall i :: 0 <= i < |name| ==> AllowedChar(name[i]))
    && (forall j :: 0 <= j < |existing| ==> existing[j] == original || Lower(name) != Lower(existing[j]))
    && (forall k :: k in store && CustomNameOfOther(store, k, original) ==> Lower(Str(store[k])) != Lower(name))
  }

  /** `get_effective_name` as written: the custom name goes through `get`, so
      a stored "False" reads as a false boolean and the original name wins,
      and a stored "true" comes back as a boolean. */
  function EffectiveNameAsWritten(store: map<string, PyValue>, original: string): (r: PyValue)
    ensures Truthy(Lookup(store, CustomKey(original), PyNone)) ==> r == Lookup(store, CustomKey(original), PyNone)
    ensures !Truthy(Lookup(store, CustomKey(original), PyNone)) ==> r == PyStr(original)
  {
    var custom := Lookup(store, CustomKey(original), PyNone);
    if Truthy(custom) then custom else PyStr(original)
  }

  /** A custom name "False" is accepted but never shown. */
  lemma FalseCustomNameHidden(store: map<string, PyValue>, original: string)
    requires CustomKey(original) in store && store[CustomKey(original)] == PyStr("False")
    ensures EffectiveNameAsWritten(store, original) == PyStr(original)
  {
    var v := store[CustomKey(original)];
    assert Lower(v.s) == "false";
  }

  /** `get_effective_name` reading the stored custom name as text. */
  function EffectiveName(store: map<string, PyValue>, original: string): (r: string)
    ensures CustomKey(original) !in store ==> r == original
  {
    var key := CustomKey(original);
    if key in store && store[key].PyStr? && store[key].s != "" then store[key].s else original
  }

  // ---------------------------------------------------------------- the manager

  class SettingsManager {
    var store: map<string, PyValue>
    /** `settings_changed(key, value)` emissions. */
    var events: seq<(string, PyValue)>

    /** `__init__` over an existing store: the missing defaults are written,
        without signals. */
    constructor(initial: map<string, PyValue>)
      ensures store == WithDefaults(initial, DEFAULTS) && events == []
    {
      var written := EnsureDefaults(initial, DEFAULTS);
      store := written;
      events := [];
    }

    /** `get`. */
    function Get(key: string, default: PyValue): (r: PyValue)
      reads this
      ensures !IsBoolText(r)
      ensures key in store && !IsBoolText(store[key]) ==> r == store[key]
      ensures key in store && IsBoolText(store[key]) ==> r == PyBool(Lower(store[key].s) == "true")
    {
      Lookup(store, key, default)
    }

    /** `set`: the value is written, and the change signal fires only when
        it differs from what `get` read before. */
    method Set(key: string, value: PyValue)
      modifies this
      ensures store == old(store)[key := value]
      ensures events == old(events) + (if PyEq(old(Get(key, PyNone)), value) then [] else [(key, value)])
    {
      var previous := Get(key, PyNone);
      store := store[key := value];
      if !PyEq(previous, value) {
        events := events + [(key, value)];
      }
    }

    /** `get_category`: the category's options of the table, each read with
        `get`; nothing for a category the table does not have. */
    method GetCategory(category: string) returns (r: map<string, PyValue>)
      ensures Find(DEFAULTS, category).None? ==> r == map[]
      ensures Find(DEFAULTS, category).Some? ==>
        var options := Find(DEFAULTS, category).value;
        && (forall o :: o in r <==> Find(options, o).Some?)
        && (forall o :: o in r ==> r[o] == Get(FullKey(category, o), PyNone))
    {
      var found := Find(DEFAULTS, category);
      if found.None? {
        return map[];
      }
      r := ReadOptions(category, found.value);
    }

    /** The loop of `get_category`: each option of the category read with `get`. */
    method ReadOptions(category: string, options: seq<(string, PyValue)>) returns (r: map<string, PyValue>)
      ensures forall o :: o in r <==> Find(options, o).Some?
      ensures forall o :: o in r ==> r[o] == Get(FullKey(category, o), PyNone)
    {
      r := map[];
      var i := 0;
      while i < |options|
        invariant 0 <= i <= |options|
        invariant forall o :: o in r <==> exists j :: 0 <= j < i && options[j].0 == o
        invariant forall o :: o in r ==> r[o] == Get(FullKey(category, o), PyNone)
      {
        var o := options[i].0;
        r := r[o := Get(FullKey(category, o), PyNone)];
        i := i + 1;
      }
    }

    /** `get_custom_name`. */
    function GetCustomName(original: string): (r: PyValue)
      reads this
      ensures CustomKey(original) in store && !IsBoolText(store[CustomKey(original)]) ==> r == store[CustomKey(original)]
      ensures CustomKey(original) in store && IsBoolText(store[CustomKey(original)]) ==> r.PyBool?
      ensures CustomKey(original) !in store ==> r == PyNone
    {
      CustomKeyNoDefault(original, PyNone);
      Get(CustomKey(original), PyNone)
    }

    /** `_validate_custom_name`. */
    method ValidateCustomName(name: string, original: string, existing: seq<string>) returns (valid: bool)
      ensures valid <==> ValidCustomName(store, name, original, existing)
    {
      if |name| < 1 || |name| > 50 {
        return false;
      }
      var c := 0;
      while c < |name|
        invariant 0 <= c <= |name|
        invariant forall i :: 0 <= i < c ==> AllowedChar(name[i])
      {
        if !AllowedChar(name[c]) {
          return false;
        }
        c := c + 1;
      }
      var j := 0;
      while j < |existing|
        invariant 0 <= j <= |existing|
        invariant forall i :: 0 <= i < j ==> existing[i] == original || Lower(name) != Lower(existing[i])
      {
        if existing[j] != original && Lower(name) == Lower(existing[j]) {
          return false;
        }
        j := j + 1;
      }
      var todo := store.Keys;
      while todo != {}
        invariant todo <= store.Keys
        invariant forall k :: k in store && k !in todo && CustomNameOfOther(store, k, original) ==>
          Lower(Str(store[k])) != Lower(name)
        decreases |todo|
      {
        var k :| k in todo;
        if IsCustomKey(k) && k[|CUSTOM_PREFIX|..] != original && Lower(Str(store[k])) == Lower(name) {
          return false;
        }
        todo := todo - {k};
      }
      return true;
    }

    /** `remove_custom_name`. */
    method RemoveCustomName(original: string)
      modifies this
      ensures store == old(store) - {CustomKey(original)} && events == old(events)
    {
      var key := CustomKey(original);
      if key in store {
        store := store - {key};
      }
    }

    /** `set_custom_name`: the name is stripped; an empty one removes the
        custom name, an invalid one is refused without writing, a valid one
        is stored and then shown. */
    method SetCustomName(original: string, custom: string, existing: seq<string>) returns (ok: bool)
      modifies this
      ensures var name := Strip(custom);
        && (name == [] ==> ok && store == old(store) - {CustomKey(original)} && events == old(events))
        && (name != [] && !ValidCustomName(old(store), name, original, existing) ==>
              !ok && store == old(store) && events == old(events))
        && (name != [] && ValidCustomName(old(store), name, original, existing) ==>
              ok && store == old(store)[CustomKey(original) := PyStr(name)]
              && events == old(events) + (if PyEq(old(Get(CustomKey(original), PyNone)), PyStr(name)) then []
                                          else [(CustomKey(original), PyStr(name))]))
      ensures ok ==> EffectiveName(store, original) == if Strip(custom) == [] then original else Strip(custom)
    {
      var name := Strip(custom);
      if name == [] {
        RemoveCustomName(original);
        assert CustomKey(original) !in store;
        return true;
      }
      ok := StoreCustomName(original, name, existing);
    }

    /** The non-empty branch of `set_custom_name`: validate, then write. */
    method StoreCustomName(original: string, name: string, existing: seq<string>) returns (ok: bool)
      modifies this
      ensures ok == ValidCustomName(old(store), name, original, existing)
      ensures !ok ==> store == old(store) && events == old(events)
      ensures ok ==> store == old(store)[CustomKey(original) := PyStr(name)]
      ensures ok ==> events == old(events) + (if PyEq(old(Get(CustomKey(original), PyNone)), PyStr(name)) then []
                                              else [(CustomKey(original), PyStr(name))])
    {
      ok := ValidateCustomName(name, original, existing);
      if ok {
        Set(CustomKey(original), PyStr(name));
      }
    }
  }
}
