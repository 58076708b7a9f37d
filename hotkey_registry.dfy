/**
 * The hotkey registry: the persistent assignment of hotkey strings to
 * scripts, kept as a forward table (script -> hotkey) and a reverse table
 * (hotkey -> script) that must stay inverse to each other.
 *
 * The settings store is the map `stored` of the entries under the
 * "hotkeys/" group, keyed by script name. Emitted Qt signals are appended
 * to `events`. The lock only serialises threads and is not modelled.
 */
module Registry {
  import opened Text

  datatype RegistryEvent =
    | HotkeyAdded(script: string, hotkey: string)
    | HotkeyRemoved(script: string)
    | HotkeyUpdated(script: string, oldHotkey: string, newHotkey: string)

  /** The two tables describe the same one-to-one assignment. */
  predicate Inverse(forward: map<string, string>, reverse: map<string, string>)
  {
    && (forall s :: s in forward ==> forward[s] in reverse && reverse[forward[s]] == s)
    && (forall h :: h in reverse ==> reverse[h] in forward && forward[reverse[h]] == h)
  }

  /** Assigning `h` to `s`, when no other script holds `h`, keeps the
      tables inverse once the previous hotkey of `s` is freed. */
  lemma InverseAssign(forward: map<string, string>, reverse: map<string, string>, s: string, h: string)
    requires Inverse(forward, reverse)
    requires h !in reverse || reverse[h] == s
    ensures Inverse(forward[s := h], (if s in forward && forward[s] != h then reverse - {forward[s]} else reverse)[h := s])
  {
    var f := forward[s := h];
    var r := (if s in forward && forward[s] != h then reverse - {forward[s]} else reverse)[h := s];
    forall t | t in f ensures f[t] in r && r[f[t]] == t {
      if t != s {
        assert forward[t] != h;
        assert s in forward ==> forward[t] != forward[s];
      }
    }
    forall k | k in r ensures r[k] in f && f[r[k]] == k {
      if k != h {
        assert k in reverse && reverse[k] != s;
      }
    }
  }

  /** Freeing a key after assigning a different one is freeing it first. */
  lemma AssignThenFree(m: map<string, string>, k: string, v: string, freed: string)
    requires freed != k
    ensures m[k := v] - {freed} == (m - {freed})[k := v]
  {
  }

  /** Dropping a script and its hotkey keeps the tables inverse. */
  lemma InverseDrop(forward: map<string, string>, reverse: map<string, string>, s: string)
    requires Inverse(forward, reverse) && s in forward
    ensures Inverse(forward - {s}, reverse - {forward[s]})
  {
    var f := forward - {s};
    var r := reverse - {forward[s]};
    forall t | t in f ensures f[t] in r && r[f[t]] == t {
      assert forward[t] != forward[s];
    }
  }

  const EMPTY_ERROR: string := "Script name and hotkey cannot be empty"

  function AssignedMessage(hotkey: string, holder: string): string
  {
    "Hotkey " + hotkey + " is already assigned to " + holder
  }

  /** `add_hotkey` as written, on the two tables: the emptiness check looks
      at the hotkey before it is stripped, and the old reverse entry is
      dropped only when the old hotkey is truthy. */
  function AddAsWritten(forward: map<string, string>, reverse: map<string, string>, script: string, hotkey: string)
    : (r: Result<(map<string, string>, map<string, string>), string>)
    ensures r.Ok? ==> r.value.0 == forward[script := Strip(hotkey)]
  {
    if script == "" || hotkey == "" then Err(EMPTY_ERROR)
    else
      var h := Strip(hotkey);
      if h in reverse && reverse[h] != "" && reverse[h] != script then Err(AssignedMessage(h, reverse[h]))
      else
        var r := reverse[h := script];
        if script in forward && forward[script] != "" && forward[script] != h then Ok((forward[script := h], r - {forward[script]}))
        else Ok((forward[script := h], r))
  }

  /** On a well-formed pair of tables, and for a hotkey that is not blank
      after stripping, the add as written agrees with the corrected add:
      it succeeds exactly when no other script holds the stripped hotkey,
      and the old hotkey's reverse entry is dropped before the new one is set. */
  lemma AddAsWrittenAgrees(forward: map<string, string>, reverse: map<string, string>, script: string, hotkey: string)
    requires Inverse(forward, reverse)
    requires forall s :: s in forward ==> s != "" && forward[s] != ""
    requires Strip(hotkey) != ""
    ensures var h := Strip(hotkey);
      var r := AddAsWritten(forward, reverse, script, hotkey);
      && (r.Ok? <==> script != "" && (h !in reverse || reverse[h] == script))
      && (r.Ok? ==> r.value == (forward[script := h],
                                (if script in forward && forward[script] != h then reverse - {forward[script]} else reverse)[h := script]))
  {
    var h := Strip(hotkey);
    assert hotkey != "" by {
      if hotkey == "" {
        StripUnchanged(hotkey);
      }
    }
    if h in reverse {
      assert reverse[h] in forward;
    }
    if script in forward && forward[script] != h {
      AssignThenFree(reverse, h, script, forward[script]);
    }
  }

  /** Hence the add as written keeps well-formed tables well formed when the
      stripped hotkey is not blank. */
  lemma AddAsWrittenValid(forward: map<string, string>, reverse: map<string, string>, script: string, hotkey: string)
    requires Inverse(forward, reverse)
    requires forall s :: s in forward ==> s != "" && forward[s] != ""
    requires Strip(hotkey) != ""
    requires AddAsWritten(forward, reverse, script, hotkey).Ok?
    ensures var v := AddAsWritten(forward, reverse, script, hotkey).value;
      && Inverse(v.0, v.1)
      && (forall s :: s in v.0 ==> s != "" && v.0[s] != "")
  {
    AddAsWrittenAgrees(forward, reverse, script, hotkey);
    InverseAssign(forward, reverse, script, Strip(hotkey));
  }

  /** A whitespace-only hotkey passes the emptiness check and is stored as
      "". Re-assigning the script then leaves the stale reverse entry for ""
      behind, because "" is falsy, so the tables stop being inverse. */
  lemma BlankHotkeyBreaksInverse()
    ensures var first := AddAsWritten(map[], map[], "a", " ");
      && first.Ok? && Inverse(first.value.0, first.value.1)
      && var second := AddAsWritten(first.value.0, first.value.1, "a", "Ctrl+X");
      && second.Ok? && !Inverse(second.value.0, second.value.1)
  {
    assert Strip(" ") == "";
    var first := AddAsWritten(map[], map[], "a", " ");
    assert first == Ok((map["a" := ""], map["" := "a"]));
    StripUnchanged("Ctrl+X");
    var second := AddAsWritten(map["a" := ""], map["" := "a"], "a", "Ctrl+X");
    assert "Ctrl+X" !in map["" := "a"];
    assert second == Ok((map["a" := ""]["a" := "Ctrl+X"], map["" := "a"]["Ctrl+X" := "a"]));
    assert second.value.1[""] == "a" && second.value.0["a"] != "";
  }

  class HotkeyRegistry {
    var forward: map<string, string>
    var reverse: map<string, string>
    var stored: map<string, string>
    var events: seq<RegistryEvent>

    ghost predicate Valid()
      reads this
    {
      && Inverse(forward, reverse)
      && stored == forward
      && (forall s :: s in forward ==> s != "" && forward[s] != "")
    }

    /** A registry over an empty "hotkeys" group. */
    constructor()
      ensures Valid() && forward == map[] && reverse == map[] && events == []
    {
      forward := map[];
      reverse := map[];
      stored := map[];
      events := [];
    }

    /** `_save_mapping`: a non-empty hotkey is written, anything else
        removes the key. */
    method SaveMapping(script: string, hotkey: Option<string>)
      modifies this
      ensures hotkey.Some? && hotkey.value != "" ==> stored == old(stored)[script := hotkey.value]
      ensures hotkey.None? || hotkey.value == "" ==> stored == old(stored) - {script}
      ensures forward == old(forward) && reverse == old(reverse) && events == old(events)
    {
      if hotkey.Some? && hotkey.value != "" {
        stored := stored[script := hotkey.value];
      } else {
        stored := stored - {script};
      }
    }

    /** `add_hotkey`, with the emptiness check applied to the stripped
        hotkey: a hotkey held by another script is refused; otherwise the
        script takes the stripped hotkey and its previous hotkey is freed. */
    method AddHotkey(script: string, hotkey: string) returns (ok: bool, error: string)
      requires Valid()
      modifies this
      ensures Valid()
      ensures var h := Strip(hotkey);
        ok <==> script != "" && h != "" && (h !in old(reverse) || old(reverse)[h] == script)
      ensures (script == "" || Strip(hotkey) == "") ==> error == EMPTY_ERROR
      ensures var h := Strip(hotkey);
        script != "" && h != "" && h in old(reverse) && old(reverse)[h] != script ==>
          error == AssignedMessage(h, old(reverse)[h])
      ensures !ok ==> forward == old(forward) && reverse == old(reverse) && stored == old(stored) && events == old(events)
      ensures ok ==> var h := Strip(hotkey);
        && error == ""
        && forward == old(forward)[script := h]
        && reverse == (if script in old(forward) && old(forward)[script] != h
                       then old(reverse) - {old(forward)[script]} else old(reverse))[h := script]
        && events == old(events) + [if script in old(forward) && old(forward)[script] != h
                                    then HotkeyUpdated(script, old(forward)[script], h)
                                    else HotkeyAdded(script, h)]
    {
      var h := Strip(hotkey);
      if script == "" || h == "" {
        return false, EMPTY_ERROR;
      }
      if h in reverse && reverse[h] != script {
        return false, AssignedMessage(h, reverse[h]);
      }
      var previous := if script in forward then Some(forward[script]) else None;
      InverseAssign(forward, reverse, script, h);
      forward := forward[script := h];
      ghost var before := reverse;
      reverse := reverse[h := script];
      if previous.Some? && previous.value != h {
        reverse := reverse - {previous.value};
        AssignThenFree(before, h, script, previous.value);
      }
      SaveMapping(script, Some(h));
      if previous.Some? && previous.value != h {
        events := events + [HotkeyUpdated(script, previous.value, h)];
      } else {
        events := events + [HotkeyAdded(script, h)];
      }
      ok, error := true, "";
    }

    /** `add_hotkey` as written (`AddAsWritten`) on the registry: a
        whitespace-only hotkey passes the emptiness check and is stored as "",
        which `_save_mapping` then removes from the settings. On a valid
        registry it keeps the registry valid whenever the stripped hotkey is
        not blank. */
    method AddHotkeyAsWritten(script: string, hotkey: string) returns (ok: bool, error: string)
      modifies this
      ensures var r := AddAsWritten(old(forward), old(reverse), script, hotkey);
        && (ok <==> r.Ok?)
        && (ok ==> forward == r.value.0 && reverse == r.value.1 && error == "")
        && (!ok ==> error == r.error && forward == old(forward) && reverse == old(reverse)
                    && stored == old(stored) && events == old(events))
      ensures ok ==> var h := Strip(hotkey);
        && stored == (if h != "" then old(stored)[script := h] else old(stored) - {script})
        && events == old(events) + [if script in old(forward) && old(forward)[script] != "" && old(forward)[script] != h
                                    then HotkeyUpdated(script, old(forward)[script], h)
                                    else HotkeyAdded(script, h)]
      ensures old(Valid()) && Strip(hotkey) != "" ==> Valid()
    {
      ghost var wasValid := Valid();
      var r := AddAsWritten(forward, reverse, script, hotkey);
      if r.Err? {
        return false, r.error;
      }
      var h := Strip(hotkey);
      if wasValid && h != "" {
        AddAsWrittenValid(forward, reverse, script, hotkey);
      }
      var signal := if script in forward && forward[script] != "" && forward[script] != h
                    then HotkeyUpdated(script, forward[script], h)
                    else HotkeyAdded(script, h);
      SaveMapping(script, Some(h));
      forward, reverse := r.value.0, r.value.1;
      events := events + [signal];
      ok, error := true, "";
    }

    /** `remove_hotkey`: false when the script has no hotkey; otherwise both
        directions and the stored key are deleted. */
    method RemoveHotkey(script: string) returns (removed: bool)
      requires Valid()
      modifies this
      ensures Valid()
      ensures removed <==> script in old(forward)
      ensures forward == old(forward) - {script}
      ensures removed ==> reverse == old(reverse) - {old(forward)[script]} && events == old(events) + [HotkeyRemoved(script)]
      ensures !removed ==> reverse == old(reverse) && events == old(events)
    {
      if script !in forward {
        return false;
      }
      var h := forward[script];
      InverseDrop(forward, reverse, script);
      forward := forward - {script};
      reverse := reverse - {h};
      SaveMapping(script, None);
      events := events + [HotkeyRemoved(script)];
      removed := true;
    }

    /** `get_hotkey`. */
    function GetHotkey(script: string): (r: Option<string>)
      reads this
      requires Valid()
      ensures r.Some? <==> script in forward
      ensures r.Some? ==> r.value != "" && ScriptForHotkey(r.value) == Some(script)
    {
      if script in forward then Some(forward[script]) else None
    }

    /** `get_script_for_hotkey`. */
    function ScriptForHotkey(hotkey: string): (r: Option<string>)
      reads this
      requires Valid()
      ensures r.Some? <==> hotkey in reverse
      ensures r.Some? ==> r.value in forward && forward[r.value] == hotkey
    {
      if hotkey in reverse then Some(reverse[hotkey]) else None
    }

    /** `get_hotkey_conflicts`: the holder of the hotkey, unless there is
        none or it is the excluded script. */
    function HotkeyConflict(hotkey: string, exclude: Option<string>): (r: Option<string>)
      reads this
      requires Valid()
      ensures r.Some? <==> hotkey in reverse && exclude != Some(reverse[hotkey])
      ensures r.Some? ==> r.value in forward && forward[r.value] == hotkey
    {
      if hotkey in reverse && reverse[hotkey] != "" && exclude != Some(reverse[hotkey]) then Some(reverse[hotkey]) else None
    }

    /** `clear_all`: removes the hotkey of every script of a snapshot of the
        forward table, one by one; `order` names each mapped script once. */
    method ClearAll() returns (ghost order: seq<string>)
      requires Valid()
      modifies this
      ensures Valid()
      ensures forward == map[] && reverse == map[] && stored == map[]
      ensures forall s :: s in order <==> s in old(forward)
      ensures |order| == |old(forward)|
      ensures forall i, j :: 0 <= i < j < |order| ==> order[i] != order[j]
      ensures events == old(events) + RemovedEvents(order)
    {
      ghost var keys := forward.Keys;
      ghost var initial := events;
      var remaining := forward.Keys;
      order := [];
      while remaining != {}
        invariant Valid()
        invariant forward.Keys == remaining && remaining <= keys
        invariant Drained(order, keys, remaining)
        invariant events == initial + RemovedEvents(order)
        decreases |remaining|
      {
        var script :| script in remaining;
        var _ := RemoveHotkey(script);
        RemovedEventsSnoc(initial, order, script);
        DrainStep(order, keys, remaining, script);
        order := order + [script];
        remaining := remaining - {script};
      }
      assert forward.Keys == {};
    }

    /** One iteration of `import_mappings`: without `overwrite` a mapped
        script is reported; otherwise `AddHotkey` imports the entry or
        refuses it with its error. Only the entry's own script may change. */
    method ImportEntry(script: string, hotkey: string, overwrite: bool) returns (outcome: ImportOutcome)
      requires Valid()
      modifies this
      ensures Valid()
      ensures Recorded((script, hotkey), outcome, overwrite, old(forward), forward)
      ensures outcome.AlreadyMapped? <==> !overwrite && script in old(forward)
      ensures outcome.AlreadyMapped? ==> outcome.message == script + " already has hotkey " + old(forward)[script]
      ensures outcome.Imported? ==> forward == old(forward)[script := Strip(hotkey)]
      ensures !outcome.Imported? ==> forward == old(forward)
      ensures (script == "" || Strip(hotkey) == "") ==> !outcome.Imported?
      ensures (script == "" || Strip(hotkey) == "") && outcome.Refused? ==> outcome.message == script + ": " + EMPTY_ERROR
      ensures KeepsOthers({script}, old(forward), forward)
      ensures var e := ImportOne(old(forward), old(reverse), (script, Strip(hotkey)), overwrite);
        outcome == e.outcome && forward == e.forward && reverse == e.reverse && events == old(events) + e.events
    {
      if !overwrite && script in forward {
        return AlreadyMapped(script + " already has hotkey " + forward[script]);
      }
      var ok, error := AddHotkey(script, hotkey);
      if ok {
        outcome := Imported;
      } else {
        outcome := Refused(script + ": " + error);
      }
    }

    /** Entry `i` of `import_mappings`, run after the earlier entries: the
        run over the stripped entries `es` is extended by `ImportOne`. */
    method ImportAt(script: string, hotkey: string, overwrite: bool, ghost es: seq<(string, string)>, ghost i: nat,
                    ghost start: map<string, string>, ghost startReverse: map<string, string>,
                    ghost events0: seq<RegistryEvent>, ghost outcomes: seq<ImportOutcome>) returns (outcome: ImportOutcome)
      requires Valid() && i < |es| && es[i] == (script, Strip(hotkey))
      requires Ran(ImportUpTo(start, startReverse, es, i, overwrite), outcomes, forward, reverse, events0, events)
      modifies this
      ensures Valid()
      ensures Ran(ImportUpTo(start, startReverse, es, i + 1, overwrite), outcomes + [outcome], forward, reverse, events0, events)
    {
      ghost var (before, reverseBefore, eventsBefore) := (forward, reverse, events);
      outcome := ImportEntry(script, hotkey, overwrite);
      RanStep(start, startReverse, es, i, overwrite, outcomes, before, reverseBefore, events0, eventsBefore,
              outcome, forward, reverse, events);
    }

    /** `import_mappings`: each entry of the dictionary, in order, either
        reports that its script already has a hotkey (without `overwrite`),
        or goes through `AddHotkey` and is imported or refused with the
        error. `outcomes` records what happened to each entry. */
    method ImportMappings(entries: seq<(string, string)>, overwrite: bool)
      returns (imported: nat, conflicts: seq<string>, ghost outcomes: seq<ImportOutcome>)
      requires Valid()
      requires forall i, j :: 0 <= i < j < |entries| ==> entries[i].0 != entries[j].0
      modifies this
      ensures Valid()
      ensures |outcomes| == |entries|
      ensures imported == ImportedCount(outcomes) && conflicts == ImportConflicts(outcomes)
      ensures imported + |conflicts| == |entries|
      ensures ImportReported(entries, overwrite, old(forward), forward, outcomes)
      ensures Ran(ImportAll(old(forward), old(reverse), entries, overwrite), outcomes, forward, reverse, old(events), events)
    {
      imported, conflicts, outcomes := 0, [], [];
      ghost var es := Stripped(entries);
      var i := 0;
      while i < |entries|
        invariant 0 <= i <= |entries| && |outcomes| == i
        invariant Valid()
        invariant imported == ImportedCount(outcomes) && conflicts == ImportConflicts(outcomes)
        invariant Ran(ImportUpTo(old(forward), old(reverse), es, i, overwrite), outcomes, forward, reverse, old(events), events)
      {
        var (script, hotkey) := entries[i];
        var outcome := ImportAt(script, hotkey, overwrite, es, i, old(forward), old(reverse), old(events), outcomes);
        if outcome.Imported? {
          imported := imported + 1;
        } else {
          conflicts := conflicts + [outcome.message];
        }
        ImportSnoc(outcomes, outcome);
        outcomes := outcomes + [outcome];
        i := i + 1;
      }
      ImportFinished(old(forward), old(reverse), entries, overwrite, outcomes, forward, reverse, old(events), events);
    }
  }

  /** An import that has run over every entry is the run `ImportAll`
      describes, and reports what `ImportReported` says. */
  lemma ImportFinished(before: map<string, string>, reverseBefore: map<string, string>,
                       entries: seq<(string, string)>, overwrite: bool, outcomes: seq<ImportOutcome>,
                       after: map<string, string>, reverseAfter: map<string, string>,
                       events0: seq<RegistryEvent>, events: seq<RegistryEvent>)
    requires forall a, b :: 0 <= a < b < |entries| ==> entries[a].0 != entries[b].0
    requires Ran(ImportUpTo(before, reverseBefore, Stripped(entries), |entries|, overwrite),
                 outcomes, after, reverseAfter, events0, events)
    ensures Ran(ImportAll(before, reverseBefore, entries, overwrite), outcomes, after, reverseAfter, events0, events)
    ensures ImportReported(entries, overwrite, before, after, outcomes)
  {
    ImportAllResults(before, reverseBefore, entries, overwrite, outcomes, after);
  }

  /** What the method states about a whole import, from the run `ImportAll`
      describes. */
  lemma ImportAllResults(before: map<string, string>, reverseBefore: map<string, string>,
                         entries: seq<(string, string)>, overwrite: bool,
                         outcomes: seq<ImportOutcome>, after: map<string, string>)
    requires forall a, b :: 0 <= a < b < |entries| ==> entries[a].0 != entries[b].0
    requires outcomes == ImportAll(before, reverseBefore, entries, overwrite).outcomes
    requires after == ImportAll(before, reverseBefore, entries, overwrite).forward
    ensures |outcomes| == |entries|
    ensures ImportReported(entries, overwrite, before, after, outcomes)
  {
    ImportAllSummary(before, reverseBefore, entries, overwrite);
    RecordedResults(entries, outcomes, overwrite, before, after);
  }

  /** What `import_mappings` reports, against the tables before and after
      the import: every entry is `Recorded`; without `overwrite`, every
      entry whose script was mapped is among the conflicts; every imported
      entry's stripped hotkey is in place; scripts outside the entries keep
      their mappings. */
  ghost predicate ImportReported(entries: seq<(string, string)>, overwrite: bool,
                                 before: map<string, string>, after: map<string, string>,
                                 outcomes: seq<ImportOutcome>)
  {
    && |outcomes| == |entries|
    && (forall i :: 0 <= i < |entries| ==> Recorded(entries[i], outcomes[i], overwrite, before, after))
    && (!overwrite ==> forall i :: 0 <= i < |entries| && entries[i].0 in before ==>
          entries[i].0 + " already has hotkey " + before[entries[i].0] in ImportConflicts(outcomes))
    && (forall i :: 0 <= i < |entries| && outcomes[i].Imported? ==>
          entries[i].0 in after && after[entries[i].0] == Strip(entries[i].1))
    && KeepsOthers(ScriptsOf(entries), before, after)
  }

  /** The whole import records every entry against the tables before and
      after it, and leaves every script outside the entries alone. */
  lemma ImportAllSummary(forward: map<string, string>, reverse: map<string, string>,
                         entries: seq<(string, string)>, overwrite: bool)
    requires forall a, b :: 0 <= a < b < |entries| ==> entries[a].0 != entries[b].0
    ensures var run := ImportAll(forward, reverse, entries, overwrite);
      AllRecorded(entries, run.outcomes, overwrite, forward, run.forward) &&
      KeepsOthers(ScriptsOf(entries), forward, run.forward)
  {
    ImportAllRecorded(forward, reverse, entries, overwrite, |entries|);
    ImportUpToKeepsOthers(forward, reverse, entries, |entries|, overwrite);
    assert entries[..|entries|] == entries;
  }

  /** What recording every entry means for the results of `import_mappings`:
      each script reported as mapped is among the conflicts, and each
      imported hotkey is in place. */
  lemma RecordedResults(entries: seq<(string, string)>, outcomes: seq<ImportOutcome>, overwrite: bool,
                        before: map<string, string>, after: map<string, string>)
    requires |outcomes| == |entries|
    requires AllRecorded(entries, outcomes, overwrite, before, after)
    ensures !overwrite ==> forall i :: 0 <= i < |entries| && entries[i].0 in before ==>
      entries[i].0 + " already has hotkey " + before[entries[i].0] in ImportConflicts(outcomes)
    ensures forall i :: 0 <= i < |entries| && outcomes[i].Imported? ==>
      entries[i].0 in after && after[entries[i].0] == Strip(entries[i].1)
  {
    ImportConflictsHold(outcomes);
    forall i | 0 <= i < |entries|
      ensures Recorded(entries[i], outcomes[i], overwrite, before, after)
    {
    }
  }

  /** The state of an import is the run `run` applied after the signals `events0`. */
  ghost predicate Ran(run: ImportRun, outcomes: seq<ImportOutcome>, forward: map<string, string>, reverse: map<string, string>,
                      events0: seq<RegistryEvent>, events: seq<RegistryEvent>)
  {
    outcomes == run.outcomes && forward == run.forward && reverse == run.reverse && events == events0 + run.events
  }

  /** One more entry imported with `ImportOne` extends the run by that entry. */
  lemma RanStep(start: map<string, string>, startReverse: map<string, string>, es: seq<(string, string)>, i: nat,
                overwrite: bool, outcomes: seq<ImportOutcome>, forward: map<string, string>, reverse: map<string, string>,
                events0: seq<RegistryEvent>, events: seq<RegistryEvent>,
                o: ImportOutcome, forward': map<string, string>, reverse': map<string, string>, events': seq<RegistryEvent>)
    requires i < |es|
    requires Ran(ImportUpTo(start, startReverse, es, i, overwrite), outcomes, forward, reverse, events0, events)
    requires var e := ImportOne(forward, reverse, es[i], overwrite);
      o == e.outcome && forward' == e.forward && reverse' == e.reverse && events' == events + e.events
    ensures Ran(ImportUpTo(start, startReverse, es, i + 1, overwrite), outcomes + [o], forward', reverse', events0, events')
  {
    var p := ImportUpTo(start, startReverse, es, i, overwrite);
    var e := ImportOne(p.forward, p.reverse, es[i], overwrite);
    assert events' == events0 + (p.events + e.events) by {
      AppendAssoc(events0, p.events, e.events);
    }
  }

  /** Concatenation is associative. */
  lemma AppendAssoc<T>(a: seq<T>, b: seq<T>, c: seq<T>)
    ensures (a + b) + c == a + (b + c)
  {
  }

  /** Every script outside `scripts` keeps its mapping. */
  ghost predicate KeepsOthers(scripts: set<string>, before: map<string, string>, after: map<string, string>)
  {
    forall s :: s !in scripts ==> (s in after <==> s in before) && (s in after ==> after[s] == before[s])
  }

  /** Each of the first `|outcomes|` entries is `Recorded` against the two tables. */
  ghost predicate AllRecorded(entries: seq<(string, string)>, outcomes: seq<ImportOutcome>, overwrite: bool,
                              before: map<string, string>, after: map<string, string>)
  {
    |outcomes| <= |entries| &&
    forall k :: 0 <= k < |outcomes| ==> Recorded(entries[k], outcomes[k], overwrite, before, after)
  }

  /** Every entry of the import is `Recorded` against the tables before it
      and after it, because the entries name distinct scripts. */
  lemma {:induction false} ImportAllRecorded(forward: map<string, string>, reverse: map<string, string>,
                                             entries: seq<(string, string)>, overwrite: bool, i: nat)
    requires i <= |entries|
    requires forall a, b :: 0 <= a < b < |entries| ==> entries[a].0 != entries[b].0
    ensures var run := ImportUpTo(forward, reverse, Stripped(entries), i, overwrite);
      AllRecorded(entries, run.outcomes, overwrite, forward, run.forward)
    decreases i
  {
    if i > 0 {
      var n := i - 1;
      var es := Stripped(entries);
      ImportAllRecorded(forward, reverse, entries, overwrite, n);
      var p := ImportUpTo(forward, reverse, es, n, overwrite);
      var e := ImportOne(p.forward, p.reverse, es[n], overwrite);
      assert es[n] == (entries[n].0, Strip(entries[n].1));
      ImportOneRecorded(p.forward, p.reverse, entries[n], overwrite);
      ImportUpToKeepsOthers(forward, reverse, entries, n, overwrite);
      ImportStep(entries, n, p.outcomes, e.outcome, overwrite, forward, p.forward, e.forward);
    }
  }

  /** One iteration of `import_mappings` keeps what the earlier entries
      recorded and records the new one against the table before the import,
      because the entries name distinct scripts. */
  lemma ImportStep(entries: seq<(string, string)>, i: nat, outcomes: seq<ImportOutcome>, o: ImportOutcome,
                   overwrite: bool, start: map<string, string>, mid: map<string, string>, after: map<string, string>)
    requires i < |entries| && |outcomes| == i
    requires forall a, b :: 0 <= a < b < |entries| ==> entries[a].0 != entries[b].0
    requires AllRecorded(entries, outcomes, overwrite, start, mid)
    requires KeepsOthers(ScriptsOf(entries[..i]), start, mid)
    requires Recorded(entries[i], o, overwrite, mid, after)
    requires KeepsOthers({entries[i].0}, mid, after)
    ensures AllRecorded(entries, outcomes + [o], overwrite, start, after)
    ensures KeepsOthers(ScriptsOf(entries[..i + 1]), start, after)
  {
    var script := entries[i].0;
    LaterNotEarlier(entries, i);
    assert script in start <==> script in mid;
    assert script in start ==> start[script] == mid[script];
    EarlierStillRecorded(entries, i, outcomes, overwrite, start, mid, after);
    RecordedFromStart(entries[i], o, overwrite, start, mid, after);
    AllRecordedSnoc(entries, outcomes, o, overwrite, start, after);
    ScriptsOfSnoc(entries, i);
    KeepsOthersGrow(ScriptsOf(entries[..i]), script, start, mid, after);
  }

  /** The entries name distinct scripts, so the `i`-th is not among the earlier ones. */
  lemma LaterNotEarlier(entries: seq<(string, string)>, i: nat)
    requires i < |entries|
    requires forall a, b :: 0 <= a < b < |entries| ==> entries[a].0 != entries[b].0
    ensures entries[i].0 !in ScriptsOf(entries[..i])
  {
    assert forall k :: 0 <= k < i ==> entries[..i][k].0 != entries[i].0;
  }

  /** Two imports that each keep the scripts outside their sets keep those outside the union. */
  lemma KeepsOthersGrow(scripts: set<string>, script: string,
                        start: map<string, string>, mid: map<string, string>, after: map<string, string>)
    requires KeepsOthers(scripts, start, mid)
    requires KeepsOthers({script}, mid, after)
    ensures KeepsOthers(scripts + {script}, start, after)
  {
  }

  /** The entries before the `i`-th name other scripts, so the `i`-th
      import leaves what they recorded intact. */
  lemma EarlierStillRecorded(entries: seq<(string, string)>, i: nat, outcomes: seq<ImportOutcome>, overwrite: bool,
                             start: map<string, string>, mid: map<string, string>, after: map<string, string>)
    requires i < |entries| && |outcomes| == i
    requires forall a, b :: 0 <= a < b < |entries| ==> entries[a].0 != entries[b].0
    requires AllRecorded(entries, outcomes, overwrite, start, mid)
    requires KeepsOthers({entries[i].0}, mid, after)
    ensures AllRecorded(entries, outcomes, overwrite, start, after)
  {
    forall k | 0 <= k < i
      ensures Recorded(entries[k], outcomes[k], overwrite, start, after)
    {
      assert entries[k].0 != entries[i].0;
      RecordedElsewhere(entries[k], outcomes[k], overwrite, start, mid, after);
    }
  }

  /** An entry whose script the earlier imports left alone is recorded
      against the table before the whole import. */
  lemma RecordedFromStart(entry: (string, string), o: ImportOutcome, overwrite: bool,
                          start: map<string, string>, mid: map<string, string>, after: map<string, string>)
    requires entry.0 in start <==> entry.0 in mid
    requires entry.0 in start ==> start[entry.0] == mid[entry.0]
    requires Recorded(entry, o, overwrite, mid, after)
    ensures Recorded(entry, o, overwrite, start, after)
  {
  }

  lemma AllRecordedSnoc(entries: seq<(string, string)>, outcomes: seq<ImportOutcome>, o: ImportOutcome, overwrite: bool,
                        start: map<string, string>, after: map<string, string>)
    requires |outcomes| < |entries|
    requires AllRecorded(entries, outcomes, overwrite, start, after)
    requires Recorded(entries[|outcomes|], o, overwrite, start, after)
    ensures AllRecorded(entries, outcomes + [o], overwrite, start, after)
  {
    var all := outcomes + [o];
    forall k | 0 <= k < |all|
      ensures Recorded(entries[k], all[k], overwrite, start, after)
    {
      if k < |outcomes| {
        assert all[k] == outcomes[k];
      }
    }
  }

  /** The scripts the entries name. */
  function ScriptsOf(entries: seq<(string, string)>): set<string>
  {
    set k | 0 <= k < |entries| :: entries[k].0
  }

  lemma ScriptsOfSnoc(entries: seq<(string, string)>, i: nat)
    requires i < |entries|
    ensures ScriptsOf(entries[..i + 1]) == ScriptsOf(entries[..i]) + {entries[i].0}
  {
    var a := entries[..i + 1];
    assert a[..i] == entries[..i];
    forall s | s in ScriptsOf(a) ensures s in ScriptsOf(entries[..i]) + {entries[i].0} {
      var k :| 0 <= k < |a| && a[k].0 == s;
      if k < i {
        assert entries[..i][k] == a[k];
      }
    }
    forall s | s in ScriptsOf(entries[..i]) ensures s in ScriptsOf(a) {
      var k :| 0 <= k < i && entries[..i][k].0 == s;
      assert a[k] == entries[..i][k];
    }
    assert a[i] == entries[i];
  }

  /** What `import_mappings` reports about one entry, given the forward
      table before the import and after it: a mapped script is reported
      with its old hotkey exactly when `overwrite` is off; a blank entry is
      never imported and is refused with the emptiness error; an imported
      script ends with the stripped hotkey; any other script keeps its mapping. */
  ghost predicate Recorded(entry: (string, string), o: ImportOutcome, overwrite: bool,
                           before: map<string, string>, after: map<string, string>)
  {
    var (script, hotkey) := entry;
    && (o.AlreadyMapped? <==> !overwrite && script in before)
    && (o.AlreadyMapped? ==> o.message == script + " already has hotkey " + before[script])
    && ((script == "" || Strip(hotkey) == "") ==> !o.Imported?)
    && ((script == "" || Strip(hotkey) == "") && o.Refused? ==> o.message == script + ": " + EMPTY_ERROR)
    && (o.Imported? ==> script in after && after[script] == Strip(hotkey))
    && (!o.Imported? ==> (script in after <==> script in before) && (script in after ==> after[script] == before[script]))
  }

  /** `Recorded` looks at the entry's own script only. */
  lemma RecordedElsewhere(entry: (string, string), o: ImportOutcome, overwrite: bool,
                          before: map<string, string>, mid: map<string, string>, after: map<string, string>)
    requires Recorded(entry, o, overwrite, before, mid)
    requires entry.0 in mid <==> entry.0 in after
    requires entry.0 in mid ==> mid[entry.0] == after[entry.0]
    ensures Recorded(entry, o, overwrite, before, after)
  {
  }

  /** What `import_mappings` did with one entry. */
  datatype ImportOutcome = AlreadyMapped(message: string) | Imported | Refused(message: string)

  /** One entry of `import_mappings` against the tables as they stand when
      the loop reaches it, and the signals it emits. */
  datatype EntryResult = EntryResult(outcome: ImportOutcome, forward: map<string, string>,
                                     reverse: map<string, string>, events: seq<RegistryEvent>)

  /** The whole import: one outcome per entry, the final tables and the signals. */
  datatype ImportRun = ImportRun(outcomes: seq<ImportOutcome>, forward: map<string, string>,
                                 reverse: map<string, string>, events: seq<RegistryEvent>)

  /** What one iteration of `import_mappings` does with an entry whose
      hotkey is already stripped, as `add_hotkey` strips it first: without
      `overwrite` a mapped script is reported; a blank entry is refused with
      the emptiness error; a hotkey another script holds is refused naming
      that script; anything else is added, freeing the script's previous
      hotkey. */
  function ImportOne(forward: map<string, string>, reverse: map<string, string>,
                     entry: (string, string), overwrite: bool): (r: EntryResult)
    ensures var (script, h) := entry;
      r.outcome.Imported? <==> (overwrite || script !in forward) && script != "" && h != "" && (h !in reverse || reverse[h] == script)
    ensures var (script, h) := entry;
      (overwrite || script !in forward) && script != "" && h != "" && h in reverse && reverse[h] != script ==>
        r.outcome == Refused(script + ": " + AssignedMessage(h, reverse[h]))
    ensures !r.outcome.Imported? ==> r.forward == forward && r.reverse == reverse && r.events == []
    ensures r.outcome.Imported? ==> entry.1 in r.reverse && r.reverse[entry.1] == entry.0 && |r.events| == 1
  {
    var (script, h) := entry;
    if !overwrite && script in forward then
      EntryResult(AlreadyMapped(script + " already has hotkey " + forward[script]), forward, reverse, [])
    else if script == "" || h == "" then EntryResult(Refused(script + ": " + EMPTY_ERROR), forward, reverse, [])
    else if h in reverse && reverse[h] != script then
      EntryResult(Refused(script + ": " + AssignedMessage(h, reverse[h])), forward, reverse, [])
    else
      var freed := script in forward && forward[script] != h;
      EntryResult(Imported, forward[script := h], (if freed then reverse - {forward[script]} else reverse)[h := script],
                  [if freed then HotkeyUpdated(script, forward[script], h) else HotkeyAdded(script, h)])
  }

  /** An entry, its hotkey stripped, is `Recorded` against the tables it
      sees and changes no other script's mapping. */
  lemma ImportOneRecorded(forward: map<string, string>, reverse: map<string, string>,
                          entry: (string, string), overwrite: bool)
    ensures var r := ImportOne(forward, reverse, (entry.0, Strip(entry.1)), overwrite);
      Recorded(entry, r.outcome, overwrite, forward, r.forward) && KeepsOthers({entry.0}, forward, r.forward)
  {
  }

  /** The entries with their hotkeys stripped. */
  function Stripped(entries: seq<(string, string)>): (r: seq<(string, string)>)
    ensures |r| == |entries|
    ensures forall k :: 0 <= k < |r| ==> r[k].0 == entries[k].0 && r[k].1 == Strip(entries[k].1)
  {
    seq(|entries|, k requires 0 <= k < |entries| => (entries[k].0, Strip(entries[k].1)))
  }

  /** `import_mappings` over the first `i` of the stripped entries `es`, in
      order, each seeing the tables the earlier ones left. */
  function ImportUpTo(forward: map<string, string>, reverse: map<string, string>,
                      es: seq<(string, string)>, i: nat, overwrite: bool): (r: ImportRun)
    requires i <= |es|
    ensures |r.outcomes| == i
    decreases i
  {
    if i == 0 then ImportRun([], forward, reverse, [])
    else
      var p := ImportUpTo(forward, reverse, es, i - 1, overwrite);
      var s := ImportOne(p.forward, p.reverse, es[i - 1], overwrite);
      ImportRun(p.outcomes + [s.outcome], s.forward, s.reverse, p.events + s.events)
  }

  /** Each imported entry emits one signal, and no other entry does. */
  lemma {:induction false} ImportUpToEvents(forward: map<string, string>, reverse: map<string, string>,
                                            es: seq<(string, string)>, i: nat, overwrite: bool)
    requires i <= |es|
    ensures var r := ImportUpTo(forward, reverse, es, i, overwrite);
      |r.events| == ImportedCount(r.outcomes)
    decreases i
  {
    if i > 0 {
      var p := ImportUpTo(forward, reverse, es, i - 1, overwrite);
      var s := ImportOne(p.forward, p.reverse, es[i - 1], overwrite);
      ImportUpToEvents(forward, reverse, es, i - 1, overwrite);
      CountSnoc(p.outcomes, s.outcome);
      assert |s.events| == if s.outcome.Imported? then 1 else 0;
    }
  }

  /** `import_mappings` over all the entries: one outcome per entry, and one
      signal per imported entry. */
  function ImportAll(forward: map<string, string>, reverse: map<string, string>,
                     entries: seq<(string, string)>, overwrite: bool): (r: ImportRun)
    ensures |r.outcomes| == |entries|
    ensures |r.events| == ImportedCount(r.outcomes)
  {
    var es := Stripped(entries);
    ImportUpToEvents(forward, reverse, es, |es|, overwrite);
    ImportUpTo(forward, reverse, es, |es|, overwrite)
  }

  /** One entry keeps well-formed tables well formed. */
  lemma ImportOneValid(forward: map<string, string>, reverse: map<string, string>, entry: (string, string), overwrite: bool)
    requires Inverse(forward, reverse)
    requires forall s :: s in forward ==> s != "" && forward[s] != ""
    ensures var r := ImportOne(forward, reverse, entry, overwrite);
      Inverse(r.forward, r.reverse) && (forall s :: s in r.forward ==> s != "" && r.forward[s] != "")
  {
    var r := ImportOne(forward, reverse, entry, overwrite);
    if r.outcome.Imported? {
      InverseAssign(forward, reverse, entry.0, entry.1);
    }
  }

  /** Hence every prefix of the import does. */
  lemma {:induction false} ImportUpToValid(forward: map<string, string>, reverse: map<string, string>,
                                           es: seq<(string, string)>, i: nat, overwrite: bool)
    requires i <= |es|
    requires Inverse(forward, reverse)
    requires forall s :: s in forward ==> s != "" && forward[s] != ""
    ensures var r := ImportUpTo(forward, reverse, es, i, overwrite);
      Inverse(r.forward, r.reverse) && (forall s :: s in r.forward ==> s != "" && r.forward[s] != "")
    decreases i
  {
    if i > 0 {
      var p := ImportUpTo(forward, reverse, es, i - 1, overwrite);
      ImportUpToValid(forward, reverse, es, i - 1, overwrite);
      ImportOneValid(p.forward, p.reverse, es[i - 1], overwrite);
    }
  }

  /** The first `i` entries leave every other script's mapping alone. */
  lemma {:induction false} ImportUpToKeepsOthers(forward: map<string, string>, reverse: map<string, string>,
                                                 entries: seq<(string, string)>, i: nat, overwrite: bool)
    requires i <= |entries|
    ensures KeepsOthers(ScriptsOf(entries[..i]), forward,
                        ImportUpTo(forward, reverse, Stripped(entries), i, overwrite).forward)
    decreases i
  {
    if i > 0 {
      var n := i - 1;
      var es := Stripped(entries);
      var p := ImportUpTo(forward, reverse, es, n, overwrite);
      ImportUpToKeepsOthers(forward, reverse, entries, n, overwrite);
      ScriptsOfSnoc(entries, n);
      ImportOneRecorded(p.forward, p.reverse, entries[n], overwrite);
      assert es[n] == (entries[n].0, Strip(entries[n].1));
      KeepsOthersGrow(ScriptsOf(entries[..n]), entries[n].0, forward, p.forward,
                      ImportOne(p.forward, p.reverse, es[n], overwrite).forward);
    }
  }

  /** A hotkey that none of the first `i` entries asks for keeps its holder
      from before the import. */
  lemma {:induction false} UnclaimedHolderKept(forward: map<string, string>, reverse: map<string, string>,
                                               es: seq<(string, string)>, i: nat, overwrite: bool, h: string)
    requires i <= |es|
    requires forall j :: 0 <= j < i ==> es[j].1 != h
    ensures var r := ImportUpTo(forward, reverse, es, i, overwrite).reverse;
      h in r ==> h in reverse && r[h] == reverse[h]
    decreases i
  {
    if i > 0 {
      UnclaimedHolderKept(forward, reverse, es, i - 1, overwrite, h);
    }
  }

  /** Which entries `import_mappings` imports, stated against the tables
      before the import: an entry with a script and a non-blank hotkey is
      imported when its script may be overwritten, no other script held its
      hotkey before, and no earlier entry asked for the same hotkey. */
  lemma ImportAllAccepts(forward: map<string, string>, reverse: map<string, string>,
                         entries: seq<(string, string)>, overwrite: bool, k: nat)
    requires k < |entries|
    requires forall a, b :: 0 <= a < b < |entries| ==> entries[a].0 != entries[b].0
    requires overwrite || entries[k].0 !in forward
    requires entries[k].0 != "" && Strip(entries[k].1) != ""
    requires Strip(entries[k].1) !in reverse || reverse[Strip(entries[k].1)] == entries[k].0
    requires forall j :: 0 <= j < k ==> Strip(entries[j].1) != Strip(entries[k].1)
    ensures ImportAll(forward, reverse, entries, overwrite).outcomes[k] == Imported
  {
    var es := Stripped(entries);
    var p := ImportUpTo(forward, reverse, es, k, overwrite);
    assert Strip(entries[k].1) !in p.reverse || p.reverse[Strip(entries[k].1)] == entries[k].0 by {
      UnclaimedHolderKept(forward, reverse, es, k, overwrite, Strip(entries[k].1));
    }
    assert overwrite || entries[k].0 !in p.forward by {
      ImportUpToKeepsOthers(forward, reverse, entries, k, overwrite);
      LaterNotEarlier(entries, k);
    }
    OutcomeAt(forward, reverse, es, overwrite, k, |es|);
  }

  /** An entry whose hotkey an earlier entry imported is refused, naming
      that entry's script, unless its own script is reported as mapped. */
  lemma ImportAllRefusesTaken(forward: map<string, string>, reverse: map<string, string>,
                              entries: seq<(string, string)>, overwrite: bool, j: nat, k: nat)
    requires Inverse(forward, reverse)
    requires forall s :: s in forward ==> s != "" && forward[s] != ""
    requires j < k < |entries|
    requires forall a, b :: 0 <= a < b < |entries| ==> entries[a].0 != entries[b].0
    requires ImportAll(forward, reverse, entries, overwrite).outcomes[j] == Imported
    requires Strip(entries[j].1) == Strip(entries[k].1)
    requires overwrite || entries[k].0 !in forward
    requires entries[k].0 != ""
    ensures ImportAll(forward, reverse, entries, overwrite).outcomes[k]
      == Refused(entries[k].0 + ": " + AssignedMessage(Strip(entries[k].1), entries[j].0))
  {
    var es := Stripped(entries);
    var h := Strip(entries[k].1);
    var p := ImportUpTo(forward, reverse, es, k, overwrite);
    assert h in p.reverse && p.reverse[h] == entries[j].0 by {
      TakenAt(forward, reverse, es, overwrite, j);
      HolderStays(forward, reverse, es, overwrite, j, k, h);
    }
    assert overwrite || entries[k].0 !in p.forward by {
      ImportUpToKeepsOthers(forward, reverse, entries, k, overwrite);
      LaterNotEarlier(entries, k);
    }
    ImportUpToValid(forward, reverse, es, k, overwrite);
    RefusedWhenHeld(p.forward, p.reverse, es[k], overwrite);
    OutcomeAt(forward, reverse, es, overwrite, k, |es|);
  }

  /** Two entries asking for the same free hotkey: the first takes it and
      the second is refused naming the first, although no script held it
      before the import. */
  lemma SameHotkeyTwice()
    ensures ImportAll(map[], map[], [("a", "Ctrl+X"), ("b", "Ctrl+X")], false).outcomes
      == [Imported, Refused("b: " + AssignedMessage("Ctrl+X", "a"))]
  {
    StripUnchanged("Ctrl+X");
    var entries := [("a", "Ctrl+X"), ("b", "Ctrl+X")];
    var es := Stripped(entries);
    assert es == entries;
    var first := ImportUpTo(map[], map[], es, 1, false);
    assert first == ImportRun([Imported], map["a" := "Ctrl+X"], map["Ctrl+X" := "a"], [HotkeyAdded("a", "Ctrl+X")]);
    assert "b" + ": " + AssignedMessage("Ctrl+X", "a") == "b: " + AssignedMessage("Ctrl+X", "a");
  }

  /** A stripped entry whose hotkey another script holds is refused naming the holder. */
  lemma RefusedWhenHeld(forward: map<string, string>, reverse: map<string, string>, entry: (string, string), overwrite: bool)
    requires Inverse(forward, reverse)
    requires forall s :: s in forward ==> s != "" && forward[s] != ""
    requires overwrite || entry.0 !in forward
    requires entry.0 != ""
    requires entry.1 in reverse && reverse[entry.1] != entry.0
    ensures ImportOne(forward, reverse, entry, overwrite).outcome
      == Refused(entry.0 + ": " + AssignedMessage(entry.1, reverse[entry.1]))
  {
    assert forward[reverse[entry.1]] == entry.1;
  }

  /** An imported entry holds its hotkey right after its import. */
  lemma TakenAt(forward: map<string, string>, reverse: map<string, string>,
                es: seq<(string, string)>, overwrite: bool, j: nat)
    requires j < |es|
    requires ImportUpTo(forward, reverse, es, |es|, overwrite).outcomes[j] == Imported
    ensures var r := ImportUpTo(forward, reverse, es, j + 1, overwrite).reverse;
      es[j].1 in r && r[es[j].1] == es[j].0
  {
    OutcomeAt(forward, reverse, es, overwrite, j, |es|);
  }

  /** The `k`-th outcome of the first `m` entries is the one entry `k` got
      when it was imported. */
  lemma {:induction false} OutcomeAt(forward: map<string, string>, reverse: map<string, string>,
                                     es: seq<(string, string)>, overwrite: bool, k: nat, m: nat)
    requires k < m <= |es|
    ensures ImportUpTo(forward, reverse, es, m, overwrite).outcomes[k]
      == ImportUpTo(forward, reverse, es, k + 1, overwrite).outcomes[k]
    decreases m
  {
    if m > k + 1 {
      OutcomeAt(forward, reverse, es, overwrite, k, m - 1);
    }
  }

  /** Once entry `j` has taken `h`, the entries after it up to `m`, which
      name other scripts, leave `h` with it. */
  lemma {:induction false} HolderStays(forward: map<string, string>, reverse: map<string, string>,
                                       es: seq<(string, string)>, overwrite: bool, j: nat, m: nat, h: string)
    requires Inverse(forward, reverse)
    requires forall s :: s in forward ==> s != "" && forward[s] != ""
    requires j < m <= |es|
    requires forall a :: j < a < m ==> es[a].0 != es[j].0
    requires var r := ImportUpTo(forward, reverse, es, j + 1, overwrite).reverse;
      h in r && r[h] == es[j].0
    ensures var r := ImportUpTo(forward, reverse, es, m, overwrite).reverse;
      h in r && r[h] == es[j].0
    decreases m
  {
    if m > j + 1 {
      var p := ImportUpTo(forward, reverse, es, m - 1, overwrite);
      HolderStays(forward, reverse, es, overwrite, j, m - 1, h);
      ImportUpToValid(forward, reverse, es, m - 1, overwrite);
      OneKeepsHolder(p.forward, p.reverse, es[m - 1], overwrite, h);
    }
  }

  /** An entry for another script never takes or frees a hotkey that is held. */
  lemma OneKeepsHolder(forward: map<string, string>, reverse: map<string, string>,
                       entry: (string, string), overwrite: bool, h: string)
    requires Inverse(forward, reverse)
    requires h in reverse && reverse[h] != entry.0
    ensures var r := ImportOne(forward, reverse, entry, overwrite).reverse;
      h in r && r[h] == reverse[h]
  {
    assert entry.0 in forward ==> forward[entry.0] != h;
  }

  /** The number of imported entries. */
  function ImportedCount(outcomes: seq<ImportOutcome>): nat
  {
    if outcomes == [] then 0
    else ImportedCount(outcomes[..|outcomes| - 1]) + (if outcomes[|outcomes| - 1].Imported? then 1 else 0)
  }

  /** The conflict messages, in entry order. */
  function ImportConflicts(outcomes: seq<ImportOutcome>): (r: seq<string>)
    ensures ImportedCount(outcomes) + |r| == |outcomes|
  {
    if outcomes == [] then []
    else
      var last := outcomes[|outcomes| - 1];
      ImportConflicts(outcomes[..|outcomes| - 1]) + (if last.Imported? then [] else [last.message])
  }

  lemma CountSnoc(outcomes: seq<ImportOutcome>, o: ImportOutcome)
    ensures ImportedCount(outcomes + [o]) == ImportedCount(outcomes) + (if o.Imported? then 1 else 0)
  {
    assert (outcomes + [o])[..|outcomes|] == outcomes;
  }

  lemma ImportSnoc(outcomes: seq<ImportOutcome>, o: ImportOutcome)
    ensures ImportedCount(outcomes + [o]) == ImportedCount(outcomes) + (if o.Imported? then 1 else 0)
    ensures ImportConflicts(outcomes + [o]) == ImportConflicts(outcomes) + (if o.Imported? then [] else [o.message])
  {
    CountSnoc(outcomes, o);
    assert (outcomes + [o])[..|outcomes|] == outcomes;
  }

  /** Every entry that was not imported has its message among the conflicts. */
  lemma {:induction false} ImportConflictsHold(outcomes: seq<ImportOutcome>)
    ensures forall k :: 0 <= k < |outcomes| && !outcomes[k].Imported? ==> outcomes[k].message in ImportConflicts(outcomes)
  {
    if outcomes != [] {
      var init := outcomes[..|outcomes| - 1];
      ImportConflictsHold(init);
      forall k | 0 <= k < |outcomes| && !outcomes[k].Imported?
        ensures outcomes[k].message in ImportConflicts(outcomes)
      {
        if k < |init| {
          assert outcomes[k] == init[k];
        }
      }
    }
  }

  /** Removing a member shrinks a set by exactly one. */
  lemma RemoveOneCard(s: set<string>, x: string)
    requires x in s
    ensures |s - {x}| == |s| - 1
  {
  }

  /** One `HotkeyRemoved` per script, in order. */
  /** `order` names, once each, exactly the scripts of `keys` that are no
      longer `remaining`. */
  ghost predicate Drained(order: seq<string>, keys: set<string>, remaining: set<string>)
  {
    && (forall s :: s in order <==> s in keys && s !in remaining)
    && |order| + |remaining| == |keys|
    && (forall i, j :: 0 <= i < j < |order| ==> order[i] != order[j])
  }

  /** Taking one more remaining script keeps `Drained`. */
  lemma DrainStep(order: seq<string>, keys: set<string>, remaining: set<string>, script: string)
    requires Drained(order, keys, remaining) && remaining <= keys && script in remaining
    ensures Drained(order + [script], keys, remaining - {script})
  {
    RemoveOneCard(remaining, script);
    var o := order + [script];
    forall i, j | 0 <= i < j < |o| ensures o[i] != o[j] {
      if j == |order| {
        assert o[i] == order[i];
      }
    }
  }

  function RemovedEvents(order: seq<string>): (r: seq<RegistryEvent>)
    ensures |r| == |order|
    ensures forall i :: 0 <= i < |order| ==> r[i] == HotkeyRemoved(order[i])
  {
    if order == [] then [] else [HotkeyRemoved(order[0])] + RemovedEvents(order[1..])
  }

  lemma RemovedEventsSnoc(before: seq<RegistryEvent>, order: seq<string>, s: string)
    ensures before + RemovedEvents(order + [s]) == (before + RemovedEvents(order)) + [HotkeyRemoved(s)]
  {
    assert RemovedEvents(order + [s]) == RemovedEvents(order) + [HotkeyRemoved(s)];
  }
}
