# BindKit runtime bookkeeping, modelled in Dafny

BindKit is a desktop launcher. It runs small utility scripts from buttons,
global hotkeys and interval schedules, and supervises long-running
"service" scripts. This project models the deterministic layer under its
Qt shell and proves properties of that model:

- the interval scheduler;
- the single-shot script executor: argument validation, the subprocess
  command, result normalisation and the module cache;
- the service runtime and its crash supervisor;
- the hotkey registry, the hotkey manager's parser, normaliser and
  registration tables, and the hotkey recorder dialog;
- the script analyzer's classification and parameter scanners, the
  script loader's identifiers, aliases and lookup, and the script models;
- the settings manager, the update checker's version comparison and
  asset choice, and the update, application, tray, notification, window
  and schedule models, together with the schedule view's conversion
  between seconds and units.

Each source file becomes one Dafny module, and its structure follows the
source:

- An object whose methods change its fields becomes a `class` with those
  fields. The Qt signals it emits are recorded in an `events` sequence.
- Pure helpers become functions. Each function has lemmas that state what
  the source promises about it.
- Loops become methods proved against those functions.

The clock, process liveness, launch and stop outcomes, `RegisterHotKey`
results, callback outcomes, JSON parsing and the OS startup registration
are not computed by the model. They are parameters of the operations that
use them. QSettings is a `map` from keys to values.

Two modules are shared helpers:

- `Text` (`text.dfy`) holds ASCII string helpers such as strip, split,
  join, case mapping and integer printing, plus `Option` and `Result`.
- `Values` (`values.dfy`) holds the dynamically typed Python values the
  source passes around, with their truthiness and `str()`.

Some behaviours of the source are kept as they are, though they may look
surprising:

- The schedule view falls back to 3600 seconds for an interval unit text
  outside the four units, though the unit selector cannot produce one.
- `Schedules.IntervalDisplay` shows "1 seconds" for a one-second interval.
- `Scheduling.ScheduleRuntime.StartSchedule` enforces no lower bound on the
  interval.
- `ScriptModels.ScriptCollectionModel.DisableScript` stores the given name,
  while filtering compares display names.
- `Updates.IsNewer` finds "1.2" older than "1.2.0", since tuples compare by
  length after equal parts.

## Model

| member | source | states |
|---|---|---|
| Scheduling.LabelCapitalizesValue | core/schedule_runtime.py:28-33 | the status label of each state is its value with the first letter capitalised |
| Scheduling.StopEvents | core/schedule_runtime.py:235-251 | one `schedule_stopped` signal per stopped name, in order |
| Scheduling.Begun | core/schedule_runtime.py:277-287 | a fire that is not blocked marks the handle executing and RUNNING, sets last_run to now and next_run to now plus the interval, and changes nothing else |
| Scheduling.Ended | core/schedule_runtime.py:297-317 | after the callback the handle is no longer executing; its state is ERROR when the callback raised and SCHEDULED otherwise, and nothing else changes |
| Scheduling.FireKeepsWellFormed | core/schedule_runtime.py:277-317 | a complete fire keeps a stored handle well formed (never STOPPED, executing exactly while RUNNING); last_run is the fire time; a handle in ERROR returns to SCHEDULED on the next successful fire |
| Scheduling.ScheduleRuntime.constructor | core/schedule_runtime.py:68-74 | the table starts empty, and no handle has been created |
| Scheduling.ScheduleRuntime.StartSchedule | core/schedule_runtime.py:76-143 | an active name is refused first, then an interval above 2,147,483 s; no lower bound is checked; a refusal changes nothing; otherwise the new handle is a new object (a fresh `id`), SCHEDULED, not executing, has no last_run, has next_run = now + interval, and is stored under its name with a started signal |
| Scheduling.ScheduleRuntime.StopSchedule | core/schedule_runtime.py:145-177 | returns whether the name was active; afterwards the entry is gone and the name is not scheduled; a signal is emitted only for an active name |
| Scheduling.ScheduleRuntime.IsScheduled | core/schedule_runtime.py:179-189 | holds exactly when the name is in the table |
| Scheduling.ScheduleRuntime.UpdateInterval | core/schedule_runtime.py:199-233 | an unknown name gives false and no change; an interval that is too large raises without change; otherwise only the interval and next_run (= now + new interval) change, and last_run and the executing flag are kept |
| Scheduling.ScheduleRuntime.StopAllSchedules | core/schedule_runtime.py:235-251 | stops every name of a snapshot of the table, returns the prior count and leaves the table empty |
| Scheduling.ScheduleRuntime.BeginFire | core/schedule_runtime.py:253-296 | an unknown name is a no-op; a fire while executing emits exactly one blocked signal and changes no handle; otherwise the handle becomes `Begun` and is returned as the handle the callback runs under |
| Scheduling.FireSignals | core/schedule_runtime.py:297-304 | at most one signal: executed when the callback returned, the error with its message when it raised, none without a callback |
| Scheduling.ScheduleRuntime.EndFire | core/schedule_runtime.py:297-317 | emits the `FireSignals` of the handle that began the fire in every case, also when the callback stopped or restarted its own schedule; the table entry becomes `Ended` exactly when it is still that same handle (same `id`); a new handle stored by a restart, or a name no longer in the table, is left as it is |
| Scheduling.RestartDuringFire | core/schedule_runtime.py:253-317 | a callback that stops and restarts its own schedule, whose new handle then fires: ending the first fire leaves the new handle executing |
| Scheduling.ScheduleRuntime.Status | core/schedule_runtime.py:319-325 | "Not scheduled" exactly for an absent name, otherwise the capitalised state, never "Stopped" |
| Scheduling.ScheduleRuntime.Info | core/schedule_runtime.py:327-345 | absent exactly for an unknown name; otherwise the handle's name, interval, last run, next run, executing flag and state value, so the interval is bounded and it is executing exactly when the state is "running" |
| Services.ServiceFlags | core/service_runtime.py:113-119 | the list has two entries per argument whose value is not None or "" |
| Services.ServiceFlagsSpec | core/service_runtime.py:113-119 | the flag list has one `--name`, `str(value)` pair per argument whose value is not None or "", in argument order: the pair of such an argument sits after the pairs of the present arguments before it, and the list has no other entries |
| Services.ServiceFlagsAt | core/service_runtime.py:113-119 | the argument at index `k`, when present, has its `--name`, `str(value)` pair right after the pairs of the present arguments before it |
| Services.ServiceCommand | core/service_runtime.py:110-119 | the command-building loop gives the interpreter, the script path, then the argument flags |
| Services.DerivedStatus | core/service_runtime.py:287-300 | an exited process is STOPPED exactly when its handle was STOPPING and CRASHED otherwise; a live process has the recorded state |
| Services.ServiceRuntime.constructor | core/service_runtime.py:72-85 | the registry starts empty |
| Services.ServiceRuntime.StartService | core/service_runtime.py:87-184 | a registered name is refused with "already running" and nothing changes; a failed launch changes nothing; a launched service gets a handle with restart count 0, state RUNNING and arguments defaulting to empty, stored under its name |
| Services.ServiceRuntime.StopService | core/service_runtime.py:186-259 | the entry is always gone afterwards; the result is true exactly for a registered name whose stop did not raise or whose process had already exited |
| Services.ServiceRuntime.Status | core/service_runtime.py:277-300 | an unknown name is STOPPED; a registered one has its derived status (RUNNING implies `is_running`, by `IsRunning`) |
| Services.ServiceRuntime.IsRunning | core/service_runtime.py:261-275 | a service reported running is registered and its status is its recorded state; one not reported running has status STOPPED or CRASHED (RUNNING implies running, by `Status`) |
| Services.ServiceRuntime.Handle | core/service_runtime.py:302-304 | the handle is returned exactly for a registered name |
| Services.ServiceRuntime.CleanupService | core/service_runtime.py:385-411 | an unknown name is a no-op; otherwise the entry is removed |
| Services.ServiceRuntime.StopAllServices | core/service_runtime.py:310-318 | every registered name is stopped, failures included, and the registry ends empty |
| Services.ServiceRuntime.SetRestartCount | core/service_monitor.py:157-168 | assigning a restart count changes only that handle's count |
| Supervision.CrashEvents | core/service_monitor.py:109-141 | a crash is always reported first; a restart is scheduled exactly when none is pending, auto-restart is on and the count is below the maximum (default 3); the limit signal is emitted exactly when only the count stands in the way |
| Supervision.CheckEventsSpec | core/service_monitor.py:92-107 | a check reports a state change exactly when the state differs from the last recorded one, and a crash exactly when the state is CRASHED |
| Supervision.CheckedStatesSpec | core/service_monitor.py:92-100 | after a check, every checked service's last recorded state is its current one and the others keep theirs |
| Supervision.ScheduledSpec | core/service_monitor.py:103-141 | a check schedules a restart for exactly the checked services that crashed with a restart due |
| Supervision.ServiceMonitor.constructor | core/service_monitor.py:37-66 | nothing is pending, no state is recorded and the monitor is not running |
| Supervision.ServiceMonitor.Start | core/service_monitor.py:68-73 | the monitor ends running, and a second start changes nothing else |
| Supervision.ServiceMonitor.Stop | core/service_monitor.py:75-80 | the monitor ends stopped, and a second stop changes nothing else |
| Supervision.ServiceMonitor.HandleCrashed | core/service_monitor.py:109-141 | emits `CrashEvents`, and the name joins the pending set exactly when a restart is scheduled, with a delay of restart_delay_seconds × 1000 ms |
| Supervision.ServiceMonitor.CheckService | core/service_monitor.py:88-107 | one service's check: the state-change signal, the recorded state and the crash handling |
| Supervision.ServiceMonitor.CheckServices | core/service_monitor.py:86-107 | every registered service is checked exactly once (the order names each, has no repeats and is as long as the registry); the recorded states, the pending set and the events are those of the specification functions over that order |
| Supervision.ServiceMonitor.RestartService | core/service_monitor.py:143-176 | as written: pending is cleared, an absent handle ends the call, the count is incremented, and the restart always fails with "already running" because the crashed handle is still registered |
| Supervision.ServiceMonitor.RestartServiceCorrected | core/service_monitor.py:143-176 | corrected: the crashed handle is cleaned up first; a launched service is registered RUNNING with the incremented count; a failed launch leaves it unregistered with a failure signal |
| Supervision.ServiceMonitor.ResetRestartCount | core/service_monitor.py:178-183 | the count becomes 0 for a registered service, and an unknown name is a no-op |
| Supervision.CrashHandlingBounded | core/service_monitor.py:116-141 | a pending service gets no second restart, no restart is scheduled at or past the limit, and a scheduled restart carries the configured delay |
| Registry.InverseAssign | core/hotkey_registry.py:82-90 | assigning a hotkey, dropping the script's previous hotkey from the reverse map, keeps the two maps inverse |
| Registry.InverseDrop | core/hotkey_registry.py:116-120 | removing a script in both directions keeps the two maps inverse |
| Registry.AddAsWritten | core/hotkey_registry.py:63-103 | as written: `add_hotkey` on the two maps, with the emptiness check before stripping and the old reverse entry dropped only when the old hotkey is truthy; the forward map gets the stripped hotkey |
| Registry.AddAsWrittenAgrees | core/hotkey_registry.py:69-90 | on inverse tables without blank entries and for a hotkey not blank after stripping, `add_hotkey` as written succeeds exactly when the corrected add does and gives the same tables, so the two differ only on whitespace-only hotkeys |
| Registry.BlankHotkeyBreaksInverse | core/hotkey_registry.py:69-90 | as written, assigning " " and then "Ctrl+X" to the same script leaves a stale reverse entry for "", so the maps stop being inverse |
| Registry.HotkeyRegistry.constructor | core/hotkey_registry.py:20-30 | a registry over an empty "hotkeys" group: both maps start empty (loading stored mappings is listed under Left out) |
| Registry.HotkeyRegistry.SaveMapping | core/hotkey_registry.py:51-61 | a non-empty hotkey is persisted under the script's key; None or "" removes the key |
| Registry.HotkeyRegistry.AddHotkey | core/hotkey_registry.py:63-103 | succeeds exactly when the script name and the stripped hotkey are non-empty and no other script holds the hotkey; an empty input or a held hotkey gives its message and changes nothing; a success stores the stripped hotkey, drops the script's old hotkey from the reverse map, persists it and keeps the maps inverse |
| Registry.HotkeyRegistry.AddHotkeyAsWritten | core/hotkey_registry.py:63-103 | `add_hotkey` as written on the registry: the tables become `AddAsWritten` of the old ones, the stripped hotkey is persisted (or removed from the settings when it is ""), an update or add signal follows the truthy old hotkey, and a valid registry stays valid whenever the stripped hotkey is not blank |
| Registry.HotkeyRegistry.RemoveHotkey | core/hotkey_registry.py:105-128 | returns whether the script had a hotkey; afterwards both directions and the persisted key are gone and the maps stay inverse |
| Registry.HotkeyRegistry.GetHotkey | core/hotkey_registry.py:130-137 | present exactly for a mapped script, and the reverse lookup of the result gives the script back |
| Registry.HotkeyRegistry.ScriptForHotkey | core/hotkey_registry.py:139-142 | present exactly for an assigned hotkey, and the forward lookup of the result gives the hotkey back |
| Registry.HotkeyRegistry.HotkeyConflict | core/hotkey_registry.py:238-254 | reports the holder exactly when the hotkey is assigned to a script other than the excluded one |
| Registry.HotkeyRegistry.ClearAll | core/hotkey_registry.py:164-170 | both maps and the persisted keys end empty; the removal order names every mapped script exactly once (no repeats, as many as there were mappings), with one removal signal each |
| Registry.HotkeyRegistry.ImportEntry | core/hotkey_registry.py:224-234 | one entry: the outcome, the tables and the signals are `ImportOne` of the tables as they stand and the entry with its hotkey stripped, so without overwrite a mapped script is reported as "<script> already has hotkey <old>" and nothing changes; otherwise the entry is imported exactly when its script and stripped hotkey are non-empty and no other script holds the hotkey, and a refusal carries "<script>: " and the add's message (the corrected add; see Left out) |
| Registry.HotkeyRegistry.ImportMappings | core/hotkey_registry.py:210-236 | the outcomes, the final tables and the signals are `ImportAll`, the entries taken in order, hotkeys stripped, against the tables the earlier ones left; the count is the number of imported entries and the conflicts are the other entries' messages in order; as `ImportReported` states, every entry is `Recorded` against the tables before the import, without overwrite every already-mapped script's message is among the conflicts, every imported hotkey is in place, and scripts not in the import are untouched; the maps stay inverse (the corrected add; see Left out) |
| Registry.ImportOne | core/hotkey_registry.py:224-234 | one iteration on an entry whose hotkey is already stripped, as `add_hotkey` strips it first: a mapped script without overwrite is reported; otherwise the entry is imported iff its script and hotkey are non-empty and the hotkey is free or already the script's, a held hotkey is refused with "<script>: Hotkey <h> is already assigned to <holder>", only an import changes the tables or signals, and an import leaves the hotkey held by the script |
| Registry.ImportAll | core/hotkey_registry.py:223-234 | the entries with their hotkeys stripped, taken in order: one outcome per entry, and one add or update signal per imported entry |
| Registry.ImportUpToValid | core/hotkey_registry.py:223-234 | every prefix of the import keeps the two maps inverse, with non-empty names and hotkeys |
| Registry.ImportOneRecorded | core/hotkey_registry.py:224-234 | one entry, its hotkey stripped, is `Recorded` against the tables it sees, and no other script's mapping changes |
| Registry.ImportAllRecorded | core/hotkey_registry.py:223-234 | for entries naming distinct scripts, each of the first `i` outcomes is `Recorded` against the table before the import and the table after those `i` entries |
| Registry.ImportAllAccepts | core/hotkey_registry.py:223-234 | an entry with a script and a non-blank hotkey is imported when its script may be overwritten, no other script held the hotkey before the import, and no earlier entry asked for the same hotkey |
| Registry.ImportAllRefusesTaken | core/hotkey_registry.py:223-234 | an entry asking for a hotkey an earlier entry imported is refused with the message naming that earlier script |
| Registry.SameHotkeyTwice | core/hotkey_registry.py:223-234 | importing "a" and then "b" with the same free hotkey imports "a" and refuses "b" naming "a" |
| Registry.ImportConflicts | core/hotkey_registry.py:221-234 | the conflict list has one message per entry that was not imported, so imported plus conflicts is the number of entries |
| Registry.RemovedEvents | core/hotkey_registry.py:164-170 | one removal signal per cleared script, in order |
| Hotkeys.Mask | core/hotkey_manager.py:12-16 | the modifier mask is a combination of the four modifier bits, below the no-repeat bit (see also lines 239-246) |
| Hotkeys.MaskBits | core/hotkey_manager.py:12-16 | each modifier's bit is set in the parsed mask exactly when that modifier was named, and the no-repeat bit is always set (see also lines 239-246, 271) |
| Hotkeys.Cleaned | core/hotkey_manager.py:230 | every part is stripped and upper-cased, one for one |
| Hotkeys.ScanSpec | core/hotkey_manager.py:235-258 | the part scan fails when two non-modifier keys are present; otherwise its modifiers are the union of the named ones and its key is the only non-modifier part |
| Hotkeys.ParseNeedsOneKey | core/hotkey_manager.py:249-259 | a string with no key or with two keys parses to (0, 0) (see also lines 266-268) |
| Hotkeys.ParseUnknownKey | core/hotkey_manager.py:261-268 | an unknown key name longer than one character parses to (0, 0) |
| Hotkeys.ParseAccepts | core/hotkey_manager.py:239-273 | a string with exactly one known key, or one single-character key, parses to the named modifiers plus the no-repeat bit, and the key's table code or its code point |
| Hotkeys.ScanHotkeyParts | core/hotkey_manager.py:235-254 | the scanning loop computes the part scan |
| Hotkeys.ParseHotkeyString | core/hotkey_manager.py:224-273 | the method computes the parse |
| Hotkeys.ParseHotkey | core/hotkey_manager.py:224-273 | `parse_hotkey_string` as a value: (0, 0) when a part is unknown or no key is given, else the modifier mask with MOD_NOREPEAT and the key code; its cases are proved by `ParseNeedsOneKey`, `ParseUnknownKey` and `ParseAccepts` |
| Hotkeys.MainKeySpec | core/hotkey_manager.py:350-356 | the main key is the first part that is not a modifier name, and it is absent exactly when every part is a modifier |
| Hotkeys.FindMainKey | core/hotkey_manager.py:350-356 | the loop finds the main key of the cleaned parts |
| Hotkeys.ModifierNames | core/hotkey_manager.py:335-348 | the modifier names are emitted in the fixed order Ctrl, Alt, Shift, Win |
| Hotkeys.NormalizeHotkeyString | core/hotkey_manager.py:333-356 | the method computes the normal form |
| Hotkeys.Normalize | core/hotkey_manager.py:333-356 | `normalize_hotkey_string` as a value: the canonical modifier names in fixed order followed by the key parts, joined by '+'; idempotent by `NormalizeIdempotent`, and "" normalizes to "" by `EmptyNormal` |
| Hotkeys.NormalizeIdempotent | core/hotkey_manager.py:333-356 | normalising a normal form gives it back |
| Hotkeys.EmptyNormal | core/hotkey_manager.py:333-356 | the empty string normalises to the empty string |
| Hotkeys.CanonicalParts | core/hotkey_manager.py:294-302 | the set of parts with their modifier aliases replaced by the canonical names |
| Hotkeys.IsReservedHotkey | core/hotkey_manager.py:289-308 | the method computes the reserved check against `RESERVED_HOTKEYS` |
| Hotkeys.ReservedByCanonicalParts | core/hotkey_manager.py:63-71 | two strings with the same set of canonical parts are both reserved or both not, so the order of the parts and the modifier aliases do not matter (see also lines 289-308) |
| Hotkeys.TablesAdd | core/hotkey_manager.py:393-394 | storing an unregistered combination under the next id keeps the registered combinations equal to the combinations in the table, one id each (see also lines 419-420) |
| Hotkeys.TablesRemove | core/hotkey_manager.py:439-457 | removing an id and its combination keeps that correspondence |
| Hotkeys.HotkeyManager.constructor | core/hotkey_manager.py:145-152 | not started, with empty tables and the first id 1 |
| Hotkeys.HotkeyManager.Start | core/hotkey_manager.py:154-191 | the manager is started when it already was or when its window was created; nothing else changes |
| Hotkeys.HotkeyManager.Stop | core/hotkey_manager.py:193-222 | a started manager unregisters everything and stops; a stopped one is unchanged |
| Hotkeys.HotkeyManager.RegisteredIsUnavailable | core/hotkey_manager.py:275-287 | a combination that is already registered is not available, written as given or normalised |
| Hotkeys.HotkeyManager.AvailableNormalized | core/hotkey_manager.py:275-287 | a normal form is available exactly when it is neither registered nor reserved |
| Hotkeys.HotkeyManager.ValidateHotkeyString | core/hotkey_manager.py:498-521 | the checks run in the order empty, bad format, reserved, already registered, each with its own message ("Hotkey cannot be empty", "Invalid hotkey format", "This hotkey combination is reserved by the system", "This hotkey is already registered"); the result is (true, "") exactly when all pass |
| Hotkeys.HotkeyManager.RegisterHotkey | core/hotkey_manager.py:358-428 | succeeds exactly when the manager is started, the normal form is neither registered nor reserved, it parses, the widget handle is valid and the OS accepts it; a success stores the normal form under the next id and adds it to the registered combinations; each failure leaves the tables unchanged and emits its own message; the id advances once an OS call is made |
| Hotkeys.HotkeyManager.Attempt | core/hotkey_manager.py:393-428 | the OS call of a registration uses a fresh id; only an accepted call stores the combination |
| Hotkeys.HotkeyManager.IsAvailable | core/hotkey_manager.py:275-287 | the method computes the availability check |
| Hotkeys.HotkeyManager.UnregisterHotkey | core/hotkey_manager.py:430-461 | succeeds exactly when the manager is started, the script has a registration and the OS call does not raise; the first registration of the script is removed from the table and from the registered combinations |
| Hotkeys.HotkeyManager.UnregisterAll | core/hotkey_manager.py:463-476 | a started manager empties both tables |
| Hotkeys.HotkeyManager.GetRegisteredHotkeys | core/hotkey_manager.py:478-487 | one entry per registered script, holding the combination of its latest id |
| Hotkeys.HotkeyManager.OnHotkeyTriggered | core/hotkey_manager.py:489-496 | a known id emits the triggered signal with its script and combination; an unknown id emits nothing |
| Configurator.KeyName | gui/hotkey_configurator.py:95-149 | function keys are named "F1".."F12"; digits and letters are their own character; a key with a name never gets an empty one |
| Configurator.NamedKeyIgnoresText | gui/hotkey_configurator.py:108-149 | a key in the special-key table gets its table name whatever text the event carries |
| Configurator.HeldFrom | gui/hotkey_configurator.py:81-92 | each held modifier is recorded exactly when its bit is set in the event's modifier flags |
| Configurator.HeldNames | gui/hotkey_configurator.py:163-171 | at most the four modifier names, none exactly when nothing is held |
| Configurator.DisplayParts | gui/hotkey_configurator.py:161-175 | the shown parts are empty exactly when nothing is held and there is no key; a key is always the last part |
| Configurator.DisplayOf | gui/hotkey_configurator.py:159-182 | a non-empty combination is shown joined by "+" and emitted; otherwise the placeholder is shown and nothing is emitted |
| Configurator.Pressed | gui/hotkey_configurator.py:81-152 | a key press that is not ignored replaces the held modifiers with the event's, replaces the key unless the key is a modifier, then updates the display |
| Configurator.EscapeKeepsRecording | gui/hotkey_configurator.py:19-21 | as written: Escape is among the ignored keys, so a press of Escape changes nothing and recording goes on (see also lines 73-79) |
| Configurator.EscapeStopsRecording | gui/hotkey_configurator.py:77-79 | corrected: Escape stops recording and changes nothing else; every other key behaves as written (see also lines 202-204) |
| Configurator.HotkeyOf | gui/hotkey_configurator.py:233-235 | `get_hotkey` gives "" for the empty text and the placeholder, and the text otherwise |
| Configurator.ShownReadsBack | gui/hotkey_configurator.py:159-182 | whenever the recorder shows a combination, `get_hotkey` reads back exactly that combination (see also lines 233-235) |
| Configurator.ShownAfterPress | gui/hotkey_configurator.py:68-182 | after a key press that emits, `get_hotkey` reads back the shown text (see also lines 233-235) |
| Configurator.HotkeyRecorder.constructor | gui/hotkey_configurator.py:29-55 | nothing held, no key, not recording, empty text |
| Configurator.HotkeyRecorder.UpdateDisplay | gui/hotkey_configurator.py:159-182 | the recorder's new state is `DisplayOf` the old one |
| Configurator.HotkeyRecorder.HandleKeyPress | gui/hotkey_configurator.py:68-152 | as written: the recorder's new state is `PressAsWritten` of the old one |
| Configurator.HotkeyRecorder.HandleKeyPressCorrected | gui/hotkey_configurator.py:68-152 | corrected: the recorder's new state is `PressCorrected` of the old one |
| Configurator.HotkeyRecorder.KeyPressEvent | gui/hotkey_configurator.py:56-66 | key presses are consumed and handled only while recording; otherwise nothing changes |
| Configurator.HotkeyRecorder.StartRecording | gui/hotkey_configurator.py:184-200 | recording starts with nothing held, no key and the placeholder shown |
| Configurator.HotkeyRecorder.StopRecording | gui/hotkey_configurator.py:202-219 | only the recording flag changes |
| Configurator.HotkeyRecorder.MousePress | gui/hotkey_configurator.py:221-225 | a click starts recording unless it is already recording |
| Configurator.HotkeyRecorder.FocusOut | gui/hotkey_configurator.py:227-231 | losing focus stops recording |
| Configurator.HotkeyRecorder.GetHotkey | gui/hotkey_configurator.py:233-235 | the shown text, or "" for the placeholder |
| Configurator.HotkeyRecorder.SetHotkey | gui/hotkey_configurator.py:237-241 | the text is shown and, when non-empty, emitted; it then reads back unless it is the placeholder |
| Configurator.HotkeyRecorder.Clear | gui/hotkey_configurator.py:243-248 | nothing held, no key, empty text, and the hotkey reads back as "" |
| Configurator.Validation | gui/hotkey_configurator.py:325-364 | an empty hotkey passes; a non-empty one is rejected exactly when its "+" parts lack a Ctrl/Alt/Shift/Win part or a non-modifier part; a listed system combination only warns |
| Configurator.RecordedPasses | gui/hotkey_configurator.py:159-182 | a combination the recorder shows, with a modifier held and a key without "+", is never rejected by the dialog (see also lines 332-346) |
| Configurator.WarnedWhenListed | gui/hotkey_configurator.py:332-361 | parts that start with a modifier and end with a key pass, with the warning when listed |
| Configurator.SystemHotkeysOnlyWarn | gui/hotkey_configurator.py:348-361 | every listed system combination validates true with the warning |
| Configurator.NamedByCode | gui/hotkey_configurator.py:97-143 | a key named by its code never contains "+" and is never a modifier name |
| Configurator.HotkeyConfigDialog.constructor | gui/hotkey_configurator.py:254-296 | the new hotkey starts as the current one, which the recorder shows when non-empty |
| Configurator.HotkeyConfigDialog.ValidateHotkey | gui/hotkey_configurator.py:325-364 | returns false exactly when `Validation` rejects; the label shows the rejection or the warning, and is hidden when the hotkey passes |
| Configurator.HotkeyConfigDialog.OnHotkeyChanged | gui/hotkey_configurator.py:320-323 | the new hotkey is stored and validated; the label shows exactly when it does not pass cleanly |
| Configurator.HotkeyConfigDialog.RecorderKeyPress | gui/hotkey_configurator.py:68-182 | a recorder key press that emits reaches `on_hotkey_changed`; one that emits nothing leaves the new hotkey unchanged (see also lines 320-323) |
| Configurator.HotkeyConfigDialog.ClearHotkey | gui/hotkey_configurator.py:366-370 | the recorder is cleared, the new hotkey becomes None and the label is hidden |
| Configurator.HotkeyConfigDialog.Accept | gui/hotkey_configurator.py:372-378 | the dialog is accepted only when validation passes; otherwise the refusal is shown and it stays open |
| Configurator.HotkeyConfigDialog.GetHotkey | gui/hotkey_configurator.py:380-382 | None for an absent or empty hotkey, otherwise the new hotkey |
| Analysis.RouteOf | core/script_analyzer.py:84-103 | routing is by the lower-cased suffix: ".bat" and ".cmd" go to the batch analyzer, and any suffix other than the five known ones is unsupported |
| Analysis.ReplaceSeparators | core/script_analyzer.py:502 | '_' and '-' become spaces, one for one |
| Analysis.DisplayNameShape | core/script_analyzer.py:499-504 | a display name holds no '_' or '-', has no leading, trailing or doubled whitespace, and is empty exactly when the stem has no word |
| Analysis.DisplayName | core/script_analyzer.py:499-504 | `_get_display_name`: '_' and '-' become spaces and every word is capitalized and joined by single spaces; the shape is proved by `DisplayNameShape` |
| Analysis.CapitalizeAll | core/script_analyzer.py:504 | each word is capitalised, one for one |
| Analysis.DetermineStrategy | core/script_analyzer.py:635-651 | arguments give SUBPROCESS; otherwise a main function gives FUNCTION_CALL; otherwise a main block gives SUBPROCESS; otherwise MODULE_EXEC |
| Analysis.HasMainBlock | core/script_analyzer.py:513-515 | true exactly when the guard `if __name__ == "__main__"`, in double or single quotes, occurs at some index of the source |
| Analysis.NeedsConfiguration | core/script_analyzer.py:680-691 | a Python script needs configuration exactly when some argument is required or has no default, so never without arguments |
| Analysis.AnyRequired | core/script_analyzer.py:198 | a PowerShell, batch or shell script needs configuration exactly when some argument is required (see also lines 330, 404) |
| Analysis.HasCodeLine | core/script_analyzer.py:318-321 | some line is non-blank after stripping and starts with none of the comment markers (see also lines 393-395) |
| Analysis.Translate | core/script_analyzer.py:14-31 | the smart-punctuation table maps character for character and keeps the length |
| Analysis.SanitizeSpec | core/script_analyzer.py:485-497 | sanitising keeps the length, leaves no smart punctuation behind, changes no other character (so it is the identity on text without smart punctuation) and is idempotent |
| Analysis.Sanitize | core/script_analyzer.py:485-497 | `_sanitize_source_text`: identity without smart characters, otherwise the translation; `SanitizeSpec` proves it keeps the length, leaves no smart character and changes only smart characters, and is idempotent |
| Analysis.RunEnd | core/script_analyzer.py:351-358 | the end of the digit run after a marker |
| Analysis.FoundFrom | core/script_analyzer.py:353-361 | the numbers listed are between the start and 9 and strictly ascending, as `sorted` over a set gives them |
| Analysis.PositionalFrom | core/script_analyzer.py:361-374 | the positional arguments are optional strings |
| Analysis.PositionalFromFound | core/script_analyzer.py:351-374 | each positional argument is `argN` for a number N from 1 to 9 that was found (see also lines 457-480) |
| Analysis.PositionalAscending | core/script_analyzer.py:361 | the positional arguments are in strictly ascending order of N, so each appears once (see also lines 467) |
| Analysis.PositionalFromComplete | core/script_analyzer.py:351-374 | every number from 1 to 9 that was found has its `argN` (see also lines 457-480) |
| Analysis.PositionalParams | core/script_analyzer.py:345-377 | the scanning loop collects the distinct numbers after `%` (or `$`) and yields their arguments (see also lines 457-480) |
| Analysis.ScanNumber | core/script_analyzer.py:351-356 | the digit run after a marker ends where the digits end and its value is the decimal value of those digits, as `int(match.group(1))` reads `\d+` |
| Analysis.LetterArgs | core/script_analyzer.py:432-454 | getopts arguments are optional strings, at most one per character |
| Analysis.LetterArgsSpec | core/script_analyzer.py:432-454 | the getopts arguments are exactly one per letter of the option string, in order |
| Analysis.GetoptsParams | core/script_analyzer.py:432-454 | the getopts loop computes `LetterArgs` |
| Analysis.ScannedParamsOptional | core/script_analyzer.py:361-374 | no scanned batch or shell argument is required (see also lines 447-480) |
| Analysis.ShellParams | core/script_analyzer.py:419-483 | every argument is an optional string; with a getopts match each letter of the option string has its argument; otherwise every `$N` with N from 1 to 9 has its `argN`, in ascending order |
| Analysis.CloseFrom | core/script_analyzer.py:228-235 | a match ends just after a closing parenthesis |
| Analysis.CloseFromBalance | core/script_analyzer.py:228-239 | the parenthesis counter ends exactly at the first point where the text after `param(` is balanced, and fails when it never balances |
| Analysis.ParamBlock | core/script_analyzer.py:213-241 | the scanning loop computes the block between `param(` and its matching `)` |
| Analysis.PowerShellBlockBalanced | core/script_analyzer.py:228-241 | the extracted block has balanced parentheses |
| Analysis.PowerShellParams | core/script_analyzer.py:213-241 | without a balanced `param(` block no arguments are returned |
| Analysis.AnalyzeScript | core/script_analyzer.py:80-103 | the display name always comes from the stem, and a script is executable exactly when it carries no error |
| Analysis.UnsupportedScript | core/script_analyzer.py:94-103 | an unsupported suffix gives a non-executable SUBPROCESS result with "Unsupported script type: " and the suffix |
| Analysis.UnreadableScript | core/script_analyzer.py:164-173 | a read failure makes a supported script non-executable, with the reader's message as its error (see also lines 202-211, 334-343, 408-417) |
| Analysis.PowerShellExecutability | core/script_analyzer.py:175-211 | a PowerShell script runs via PowerShell and is executable exactly when its text is not blank |
| Analysis.BatchExecutability | core/script_analyzer.py:303-343 | a batch script is executable exactly when some line is not blank, REM or `::`; its arguments are the positional ones, and it never needs configuration |
| Analysis.ShellExecutability | core/script_analyzer.py:379-417 | a shell script is executable exactly when some line is not blank or a `#` comment; its arguments are the scanned ones, and it never needs configuration |
| Analysis.PythonStrategy | core/script_analyzer.py:105-173 | a configured service always runs as SERVICE; otherwise the strategy is SUBPROCESS, FUNCTION_CALL or MODULE_EXEC, and configuration follows `NeedsConfiguration` |
| Analysis.AnalyzePython | core/script_analyzer.py:105-173 | the result carries the analysed path and the display name of its stem, and is executable exactly when it carries no error (read and parse failures included) |
| Analysis.AnalyzePowerShell | core/script_analyzer.py:175-211 | the result carries the analysed path and the display name of its stem, and is executable exactly when it carries no error |
| Analysis.AnalyzeBatch | core/script_analyzer.py:303-343 | the result carries the analysed path and the display name of its stem, and is executable exactly when it carries no error |
| Analysis.AnalyzeShell | core/script_analyzer.py:379-417 | the result carries the analysed path and the display name of its stem, and is executable exactly when it carries no error |
| Executor.Failure | core/script_executor.py:42-46 | a failure result carries its error, with no message, output or data |
| Executor.Supplied | core/script_executor.py:77-81 | the declared arguments supplied with a value other than None or "", each declared and each such argument included |
| Executor.Flags | core/script_executor.py:77-81 | two strings per supplied argument |
| Executor.FlagsPair | core/script_executor.py:77-81 | the i-th supplied argument contributes `--name` followed by `str(value)` |
| Executor.ArgFlagsFails | core/script_executor.py:77-87 | the command fails exactly when a declared required argument was not supplied at all, with the message naming that argument |
| Executor.ArgFlagsSucceeds | core/script_executor.py:75-87 | without a missing required argument, the command carries the flags of the supplied arguments in declaration order; undeclared arguments are dropped |
| Executor.BuildCommand | core/script_executor.py:73-87 | the command-building loop gives the interpreter, the script path, then the flags, or the error for a missing required argument |
| Executor.SubprocessResult | core/script_executor.py:73-129 | `_execute_subprocess` as a value: a missing required argument fails before launch, a timeout reports the timeout message with the stripped output, a failed launch reports its reason; proved by `MissingArgumentFailsBeforeLaunch` and `TimeoutFails` |
| Executor.Interpret | core/script_executor.py:131-153 | the output and error are the stripped streams and the exit code is kept; with empty output success is exit code 0 and there is no data |
| Executor.InterpretOverrides | core/script_executor.py:131-153 | output that is not a JSON object leaves exit-code success and the raw output as the message; a JSON object's "success" and "message" override them, each only when present |
| Executor.MissingArgumentFailsBeforeLaunch | core/script_executor.py:83-87 | a missing required argument fails with "Required argument '…" whatever the process would have done |
| Executor.TimeoutFails | core/script_executor.py:93 | a timed-out process fails with "Script execution timed out (N seconds)", N from the settings or 30 (see also lines 108-129) |
| Executor.NormalizeReturn | core/script_executor.py:261-283 | a normalised return value has no error, output or exit code |
| Executor.NormalizeReturnSpec | core/script_executor.py:261-283 | failure exactly for `False` or a dict with a falsy "success"; only a dict is kept as data; the message is the returned text, the dict's "message", the default message for None, or `str()` of any other value |
| Executor.ArgumentErrors | core/script_executor.py:349-370 | at most three messages per argument |
| Executor.ValidationErrors | core/script_executor.py:345-372 | the messages of every declared argument, in order |
| Executor.ValidationErrorsSpec | core/script_executor.py:345-372 | validation reports nothing exactly when every declared argument is supplied if required, within its choices, and an integer if its type is int |
| Executor.ScriptStatus | core/script_executor.py:336-343 | "Ready" exactly for an executable script and "Error" otherwise |
| Executor.Without | core/script_executor.py:380 | removing a module name removes exactly that name (see also lines 411-412) |
| Executor.WithoutKeepsDistinct | core/script_executor.py:380 | removing a name keeps the cache order free of duplicates and shortens it by one exactly when the name was present (see also lines 411-412) |
| Executor.MoveToEnd | core/script_executor.py:196-198 | after an access the module is the most recently used, and no other module is added or lost |
| Executor.Put | core/script_executor.py:386-387 | storing a module adds exactly that name |
| Executor.CachedOrderSpec | core/script_executor.py:374-388 | caching keeps the entries distinct, holds the new module, never exceeds the maximum, and when the cache was full evicts exactly the least recently used entry |
| Executor.CachedOrder | core/script_executor.py:374-388 | the LRU order after `_cache_module`: eviction then insertion; `CachedOrderSpec` proves it keeps entries distinct, holds the new name, respects a positive maximum and evicts only the least recently used entry |
| Executor.KeepFresh | core/script_executor.py:401-412 | the modules kept are exactly those accessed within the time-to-live |
| Executor.KeepFreshDistinct | core/script_executor.py:401-412 | dropping stale modules keeps the cache order free of duplicates |
| Executor.Restrict | core/script_executor.py:409-412 | the access times are kept for exactly the remaining modules |
| Executor.ModuleResult | core/script_executor.py:292-334 | module execution succeeds exactly when the module loads and runs |
| Executor.ScriptExecutor.constructor | core/script_executor.py:28-35 | an empty cache with the given size and time-to-live |
| Executor.ScriptExecutor.CacheModule | core/script_executor.py:374-388 | the cache order becomes `CachedOrder`; an evicted module loses its access time; the new module's access time is now; popping from an empty full cache raises |
| Executor.ScriptExecutor.Touch | core/script_executor.py:196-198 | a cache hit moves the module to the end and records the access time |
| Executor.ScriptExecutor.CleanupStale | core/script_executor.py:390-420 | within 300 s of the last cleanup nothing changes; otherwise the stale modules leave the cache and the cleanup time is now |
| Executor.ScriptExecutor.ClearCache | core/script_executor.py:422-438 | returns the number of cached modules and leaves the cache empty |
| Executor.AfterCleanup | core/script_executor.py:390-420 | the cache order after the periodic cleanup: unchanged within 300 s of the last one, never gaining a module |
| Executor.FunctionCallOutcome | core/script_executor.py:189-290 | the module is cached afterwards iff it was cached before or a fresh load succeeded into a cache that can hold it; no other module is added; a success needs a returning call and a module that was loaded or reloaded |
| Executor.ScriptExecutor.RunFunctionCall | core/script_executor.py:189-290 | a cached module is touched and reloaded, falling back to a fresh load; a missing spec or a raising load fails; a loaded module is cached; the result comes from calling its main function; result and cache order are `FunctionCallOutcome` of the old order |
| Executor.ScriptExecutor.ExecuteScript | core/script_executor.py:37-71 | stale cleanup runs first; a non-executable script fails with "Script is not executable: …"; SUBPROCESS and MODULE_EXEC give their runners' results with arguments defaulting to empty; FUNCTION_CALL gives `FunctionCallOutcome` of the cleaned cache order, as result and new order; any other strategy fails with "Unknown execution strategy: …"; outside FUNCTION_CALL the order is the cleaned one; nothing is raised |
| Loading.LowerAppend | core/script_loader.py:133-141 | lower-casing distributes over concatenation |
| Loading.LowerOfLowerCase | core/script_loader.py:143-152 | lower-casing a lower-case name changes nothing |
| Loading.DefaultIdentifier | core/script_loader.py:133-141 | the identifier of a default script is its file name (stem and suffix) lower-cased, and is lower-case |
| Loading.Resolve | core/script_loader.py:143-160 | an empty name resolves to nothing; a resolved identifier is the name, its lower-cased form, or the first identifier listed under the lower-cased name |
| Loading.ResolvedIsLoaded | core/script_loader.py:143-160 | with consistent tables every resolved identifier names a loaded script |
| Loading.ResolveStable | core/script_loader.py:143-160 | resolving a resolved identifier gives it back |
| Loading.ScriptLoader.ResolveIdentifier | core/script_loader.py:143-160 | `_resolve_script_identifier` on the loader's tables; `GetScript` states that a script is found exactly when it resolves to a non-empty identifier, and `Resolve`'s lemmas state what it resolves to |
| Loading.ResolveIgnoresCase | core/script_loader.py:149-160 | a name and its lower-cased form resolve alike |
| Loading.AppendNew | core/script_loader.py:120-126 | the identifier is in the alias list afterwards and nothing else is added |
| Loading.AddAlias | core/script_loader.py:120-126 | `setdefault` adds the key and leaves every other alias list alone |
| Loading.Insert | core/script_loader.py:117 | a dictionary assignment keeps the key order and adds a new key |
| Loading.AppendNewDistinct | core/script_loader.py:121-126 | alias lists never hold an identifier twice |
| Loading.AddAliasValid | core/script_loader.py:120-126 | adding an alias to a loaded identifier keeps every alias list non-empty, repeat-free and pointing at loaded scripts |
| Loading.AddAliasesValid | core/script_loader.py:120-126 | the same for several alias keys (see also lines 214-225) |
| Loading.AliasesGrow | core/script_loader.py:117 | loading one more script keeps existing alias lists valid (see also lines 213) |
| Loading.RegisterValid | core/script_loader.py:111-126 | registering a script keeps the tables consistent (see also lines 205-225) |
| Loading.Register | core/script_loader.py:111-126 | registering a script stores it under its identifier and lists it under every alias key; `RegisterValid` proves the tables stay consistent |
| Loading.DefaultScript | core/script_loader.py:111-116 | a loaded default script has the lower-cased file name as identifier and is not external |
| Loading.DefaultsValid | core/script_loader.py:97-131 | default discovery keeps the tables consistent |
| Loading.DefaultSource | core/script_loader.py:93-116 | each returned default script is the script of a loadable file of the input, whose index it names |
| Loading.DefaultScriptsShape | core/script_loader.py:78-79 | every default script comes from a file not starting with "__", is not external and is named by its lower-cased file name (see also lines 110-116) |
| Loading.DunderSkipped | core/script_loader.py:79 | a file starting with "__" is neither loaded nor failed |
| Loading.ExternalScript | core/script_loader.py:205-213 | a loaded external script shows its configured name, is identified by its lower-cased name, is external and keeps its configured path |
| Loading.ExternalsValid | core/script_loader.py:186-240 | external discovery keeps the tables consistent |
| Loading.ExternalFailureKeys | core/script_loader.py:188-193 | every failure an external entry records is under "<name> (external)" and the other failures stay (see also lines 227-240) |
| Loading.StrLeTotal | core/script_loader.py:55 | Python's string order is total |
| Loading.StrLeRefl | core/script_loader.py:55 | and reflexive |
| Loading.StrLeTrans | core/script_loader.py:55 | and transitive |
| Loading.InsertByName | core/script_loader.py:55 | inserting keeps the scripts as a multiset plus the new one |
| Loading.InsertByNameSorted | core/script_loader.py:55 | inserting into a sorted list keeps it sorted by lower-cased display name |
| Loading.SortByName | core/script_loader.py:55 | sorting is a permutation |
| Loading.SortByNameSorted | core/script_loader.py:55 | the result is ordered by lower-cased display name |
| Loading.LegacyArguments | core/script_loader.py:335-340 | non-empty arguments come from the first legacy key that has any; empty means no legacy key has any |
| Loading.Filtered | core/script_loader.py:392 | the filtered list holds exactly the identifiers not removed and stays repeat-free |
| Loading.PrunedSpec | core/script_loader.py:381-401 | after pruning exactly the default scripts remain unchanged, exactly the non-external failures remain, and the tables stay consistent |
| Loading.AllScripts | core/script_loader.py:358-360 | the loaded scripts in insertion order |
| Loading.ScriptLoader.constructor | core/script_loader.py:18-26 | empty tables around the given executor |
| Loading.ScriptLoader.AddAliasEntry | core/script_loader.py:120-122 | one `setdefault`/append pair |
| Loading.ScriptLoader.RegisterScript | core/script_loader.py:110-126 | the tables become `Register` of the old ones |
| Loading.ScriptLoader.DiscoverDefault | core/script_loader.py:60-131 | a missing directory gives nothing; otherwise the scripts and tables of default discovery |
| Loading.ScriptLoader.DiscoverOne | core/script_loader.py:93-126 | one completed analysis changes the tables by exactly one step and yields the script exactly when the file is loadable |
| Loading.ScriptLoader.DiscoverExternal | core/script_loader.py:174-243 | the scripts and tables of external discovery |
| Loading.ScriptLoader.DiscoverScripts | core/script_loader.py:28-58 | the tables are rebuilt from empty by default then external discovery; the result is all their scripts sorted by lower-cased display name, and the tables are consistent |
| Loading.ScriptLoader.GetScript | core/script_loader.py:309-313 | a script exactly when the name resolves to a non-empty identifier, and it is the one stored under it |
| Loading.ScriptLoader.LegacyLookup | core/script_loader.py:335-340 | the loop finds `LegacyArguments` |
| Loading.ScriptLoader.ArgumentsFor | core/script_loader.py:327-342 | stored arguments of the resolved identifier (or the name) win; otherwise those of a legacy key of the script, or none |
| Loading.ScriptLoader.ScriptArguments | core/script_loader.py:327-342 | the method computes `ArgumentsFor` |
| Loading.ScriptLoader.ExecuteScript | core/script_loader.py:258-290 | an unknown name gives "Script "…" not found" and failed validation "Argument validation failed: …" joined by "; ", both without touching the executor; otherwise the executor ran with the given or stored arguments: the not-executable failure, the SUBPROCESS and MODULE_EXEC results, `FunctionCallOutcome` of the cleaned cache for FUNCTION_CALL, and "Unknown execution strategy: …" otherwise |
| Loading.ScriptLoader.RefreshExternal | core/script_loader.py:377-407 | the tables become external discovery over the pruned tables, stay consistent, and all loaded scripts are returned |
| Loading.ScriptLoader.RemoveExternal | core/script_loader.py:381-387 | the external scripts leave the loaded table and the key order, nothing else changes |
| Loading.ScriptLoader.PruneAliases | core/script_loader.py:389-396 | with nothing removed the aliases stay; otherwise each list is filtered and emptied lists are dropped |
| Loading.ScriptLoader.DropExternalFailures | core/script_loader.py:398-401 | exactly the failures whose key contains "(external)" are removed |
| ScriptModels.First | models/script_models.py:129-131 | the first script in discovery order that satisfies the test, or none when no script does |
| ScriptModels.FindFirst | models/script_models.py:129-131 | the scanning loop finds `First` |
| ScriptModels.ScriptByName | models/script_models.py:122-160 | an exact display name always wins; an empty trimmed name finds nothing else; otherwise a found script matches the trimmed lower-cased name as identifier, file stem or legacy key, and none found means no script matches any of them |
| ScriptModels.DefaultFoundByFileName | models/script_models.py:133-142 | a default script is found by its file name |
| ScriptModels.Available | models/script_models.py:231-256 | a script is available exactly when it was discovered and is external with a valid path or native and not disabled |
| ScriptModels.AvailableAppend | models/script_models.py:239-253 | filtering keeps discovery order |
| ScriptModels.AvailableAllKept | models/script_models.py:239-253 | with nothing disabled and every external path valid, every script stays |
| ScriptModels.DisabledNotAvailable | models/script_models.py:244-246 | a disabled native script is not available |
| ScriptModels.EnabledAvailable | models/script_models.py:244-253 | a native script that is not disabled is available |
| ScriptModels.ScriptCollectionModel.constructor | models/script_models.py:78-88 | empty collections; the stored settings are given |
| ScriptModels.ScriptCollectionModel.GetScriptByName | models/script_models.py:122-160 | the four scans compute `ScriptByName` |
| ScriptModels.ScriptCollectionModel.UpdateAvailable | models/script_models.py:231-256 | the settings are re-read, the available scripts become `Available`, and they are announced |
| ScriptModels.ScriptCollectionModel.DiscoverScripts | models/script_models.py:90-107 | the discovered scripts are sorted, the available ones are filtered from them and returned, and both are announced |
| ScriptModels.ScriptCollectionModel.DisableScript | models/script_models.py:170-178 | a found, non-external name is added to the disabled scripts in memory and in the settings, the list re-filtered and the change announced; otherwise nothing changes |
| ScriptModels.ScriptCollectionModel.Disable | models/script_models.py:173-177 | the disabling steps |
| ScriptModels.ScriptCollectionModel.EnableScript | models/script_models.py:180-187 | a disabled name is removed from the disabled scripts, the list re-filtered and the change announced; any other name changes nothing |
| ScriptModels.ScriptKey | models/script_models.py:320-322 | the identifier, or the lower-cased file stem when the identifier is empty |
| ScriptModels.ScriptExecutionModel.constructor | models/script_models.py:272-282 | no results, no workers |
| ScriptModels.ScriptExecutionModel.ExecuteScript | models/script_models.py:284-360 | a running name fails with "Script is already running" and an unknown one with "Script not found: …", both without running anything; otherwise the run is launched |
| ScriptModels.ScriptExecutionModel.Launch | models/script_models.py:310-354 | an asynchronous run of a strategy that may leave the main thread becomes a worker and returns true; any other run goes through the loader with the given arguments or none, and the report stored is the one `Reported` describes for the cache before the run; its success is returned and announced |
| ScriptModels.ScriptExecutionModel.RunInline | models/script_models.py:339-354 | the stored report is the one the loader's `execute_script` gives for the script key and the arguments (`Reported`: not found, validation failure, or the executor's result by strategy, with the cache after cleanup), success is its flag, and completion or failure with its message is announced |
| ScriptModels.ScriptExecutionModel.CancelExecution | models/script_models.py:362-412 | true exactly when the name was running; its worker is removed in every case and the cancellation announced |
| ScriptModels.ScriptExecutionModel.HandleCompleted | models/script_models.py:426-430 | the result is stored and announced |
| ScriptModels.ScriptExecutionModel.HandleFailed | models/script_models.py:432-435 | the failure is announced and nothing stored |
| ScriptModels.ScriptExecutionModel.CleanupWorker | models/script_models.py:437-450 | the finished worker no longer counts as running |
| ScriptModels.ScriptExecutionModel.IsRunning | models/script_models.py:414-425 | a script counts as running while its worker is registered; `CleanupWorker` removes it |
| ScriptModels.HotkeyModel.constructor | models/script_models.py:532-540 | the cache starts equal to the registry's mappings (see also lines 590-596) |
| ScriptModels.HotkeyModel.HotkeyForScript | models/script_models.py:542-544 | the cache answers exactly as the registry does |
| ScriptModels.HotkeyModel.IsHotkeyAvailable | models/script_models.py:585-588 | available exactly when the registry reports no conflict for the excluded script |
| ScriptModels.HotkeyModel.SetHotkeyAsWritten | models/script_models.py:546-567 | as written, over `AddHotkeyAsWritten`: success is `AddAsWritten` succeeding; then the cache holds the hotkey as passed while the registry holds it stripped, so a padded hotkey makes them disagree, and a whitespace-only hotkey is accepted, cached as passed and stored as "", leaving the registry invalid |
| ScriptModels.HotkeyModel.SetHotkeyForScript | models/script_models.py:546-567 | when the registry accepts, the cache holds the stripped hotkey, the script holds it and no other script can take it; otherwise nothing changes and the failure is announced |
| ScriptModels.HotkeyModel.RemoveHotkeyForScript | models/script_models.py:569-579 | a cached script loses its hotkey in cache and registry, and the hotkey is free; another name changes nothing |
| Preferences.Find | core/settings.py:11-43 | a value exactly when the table has an entry of that name, and it is that entry's value |
| Preferences.WithOptionsSpec | core/settings.py:51-57 | writing one category's defaults keeps every stored value, adds each option's key and nothing else |
| Preferences.WithDefaultsSpec | core/settings.py:51-57 | after writing the defaults every stored value is kept and every option of every category has a key |
| Preferences.EnsureDefaults | core/settings.py:51-57 | the nested loops write exactly `WithDefaults` |
| Preferences.Converted | core/settings.py:67-72 | "true"/"false" text in any case becomes the boolean, anything else is unchanged, and no boolean text is left |
| Preferences.Lookup | core/settings.py:59-74 | a read never gives boolean text, and a stored value that is not boolean text is given as stored |
| Preferences.MissingReadsDefault | core/settings.py:60-65 | a missing option of the defaults table reads as its table default, whatever default the caller passes |
| Preferences.UnknownReadsCallerDefault | core/settings.py:60-65 | a missing key outside the table reads as the caller's default |
| Preferences.EffectiveNameAsWritten | core/settings.py:145-147 | as written: the custom name read through `get` is returned when truthy, else the original name (see also lines 210-213) |
| Preferences.FalseCustomNameHidden | core/settings.py:68-72 | a stored custom name "False" is never shown (see also lines 210-213) |
| Preferences.EffectiveName | core/settings.py:210-213 | a script without a custom name shows its original name |
| Preferences.SettingsManager.constructor | core/settings.py:45-49 | the store holds the given values plus every missing default, with no signal |
| Preferences.SettingsManager.Get | core/settings.py:59-74 | the value never comes back as "true"/"false" text: such text, in any case, becomes the boolean, and any other stored value is returned unchanged |
| Preferences.SettingsManager.Set | core/settings.py:76-83 | the value is stored, and the change is signalled exactly when it differs (Python equality) from what `get` read before |
| Preferences.SettingsManager.GetCategory | core/settings.py:85-93 | an unknown category gives nothing; a known one gives exactly its options, each read with `get` |
| Preferences.SettingsManager.ReadOptions | core/settings.py:89-93 | the loop yields a key for exactly the listed options, each mapped to what `get` reads under `category/option` |
| Preferences.SettingsManager.ValidateCustomName | core/settings.py:165-189 | valid exactly when 1 to 50 allowed characters long and clashing, ignoring case, with no other script's name and no other script's custom name |
| Preferences.ValidCustomName | core/settings.py:165-189 | a custom name is valid when it has 1 to 50 allowed characters and does not equal, ignoring case, another script's name or another script's custom name; `ValidateCustomName` decides it |
| Preferences.SettingsManager.RemoveCustomName | core/settings.py:191-197 | the custom name is gone and nothing is signalled |
| Preferences.SettingsManager.SetCustomName | core/settings.py:149-163 | the name is stripped; empty removes it and succeeds; invalid fails without writing; valid is stored with the change signal; after success the effective name is the stripped name or the original |
| Preferences.SettingsManager.StoreCustomName | core/settings.py:157-163 | an invalid name changes nothing; a valid one is stored under `custom_names/<original>` with the change signal only when it differs |
| Preferences.SettingsManager.GetCustomName | core/settings.py:145-147 | None when no custom name is stored; the stored custom name when it is not boolean text; boolean text comes back as a boolean (the finding below) |
| Updates.ParseVersion | core/update_checker.py:102-103 | the parts are the integers of the dot-separated pieces, one per piece; nothing exactly when some piece is not an integer |
| Updates.ParseParts | core/update_checker.py:102-103 | the same for a list of pieces |
| Updates.TupleLessIsLex | core/update_checker.py:104 | Python's tuple `<` is the lexicographic order: the first difference decides and a proper prefix is smaller |
| Updates.TupleLess | core/update_checker.py:104 | Python's `<` on integer tuples; `TupleLessIsLex` proves it is the lexicographic order, irreflexive and asymmetric by the lemmas below |
| Updates.TupleLessIrreflexive | core/update_checker.py:104 | no tuple is less than itself |
| Updates.TupleLessAsymmetric | core/update_checker.py:104 | no two tuples are each less than the other |
| Updates.IsNewer | core/update_checker.py:96-107 | a version that is not made of integers is never newer and never has a newer one |
| Updates.IsNewerLex | core/update_checker.py:101-104 | for integer versions, newer means lexicographically greater |
| Updates.NeverNewerThanItself | core/update_checker.py:96-107 | a version is not newer than itself |
| Updates.NewerAsymmetric | core/update_checker.py:96-107 | of two versions at most one is newer than the other |
| Updates.AssetName | core/update_checker.py:116-117 | a missing name reads as ""; a name that is not a string is the case where `startswith` raises |
| Updates.InstallerAsset | core/update_checker.py:110-120 | the first asset named "BindKit-…-Setup.exe" when every asset before it has a string name; an error carrying the name when an asset with a non-string name comes first; none exactly when every asset has a string name and none is an installer |
| Updates.FindInstallerAsset | core/update_checker.py:110-120 | the loop finds `InstallerAsset`, raising where it raises |
| UpdateState.Errored | models/update_model.py:127-131 | the state is "error" with the message |
| UpdateState.Cleared | models/update_model.py:137-141 | the message is empty and an "error" state becomes "idle"; any other state stays |
| UpdateState.ResetInfo | models/update_model.py:144-153 | everything returns to the initial values except the current version |
| UpdateState.WithRelease | models/update_model.py:96-102 | the four release fields take the new values and every other field stays |
| UpdateState.ClearedNeverError | models/update_model.py:137-141 | clearing never leaves the "error" state |
| UpdateState.ErrorThenClear | models/update_model.py:127-141 | an error followed by clearing returns to "idle" with every other field as it was |
| UpdateState.ResetIdempotent | models/update_model.py:144-153 | a second reset changes nothing, and a reset forgets any release information |
| UpdateState.StatePredicatesExclusive | models/update_model.py:60-74 | at most one of the state predicates holds |
| UpdateState.UpdateModel.IsChecking | models/update_model.py:60-62 | the state is CHECKING; at most one of the four state tests holds, by `StatePredicatesExclusive` |
| UpdateState.UpdateModel.IsAvailable | models/update_model.py:64-66 | the state is AVAILABLE (exclusive with the other tests by `StatePredicatesExclusive`) |
| UpdateState.UpdateModel.IsDownloading | models/update_model.py:68-70 | the state is DOWNLOADING (exclusive with the other tests by `StatePredicatesExclusive`) |
| UpdateState.UpdateModel.IsReadyToInstall | models/update_model.py:72-74 | the state is READY_TO_INSTALL (exclusive with the other tests by `StatePredicatesExclusive`) |
| UpdateState.UpdateModel.constructor | models/update_model.py:35-46 | a new model is idle with empty fields and size 0 |
| UpdateState.UpdateModel.SetState | models/update_model.py:53-58 | only the state changes |
| UpdateState.UpdateModel.SetCurrentVersion | models/update_model.py:77-80 | only the current version changes |
| UpdateState.UpdateModel.SetLatestVersion | models/update_model.py:86-89 | only the latest version changes |
| UpdateState.UpdateModel.SetInstallerPath | models/update_model.py:117-120 | only the installer path changes |
| UpdateState.UpdateModel.SetReleaseInfo | models/update_model.py:96-102 | the fields become `WithRelease` of the old ones |
| UpdateState.UpdateModel.SetError | models/update_model.py:127-131 | the fields become `Errored` of the old ones |
| UpdateState.UpdateModel.ClearError | models/update_model.py:137-141 | the fields become `Cleared` of the old ones |
| UpdateState.UpdateModel.Reset | models/update_model.py:144-153 | the fields become `ResetInfo` of the old ones |
| Application.StartEndsReady | models/application_model.py:45-55 | starting from any state ends "ready", having announced "starting" and then "ready" |
| Application.ShutdownIdempotent | models/application_model.py:57-64 | a second shutdown changes nothing |
| Application.ShutdownSignalsOnce | models/application_model.py:57-64 | however often shutdown is asked, it is announced once |
| Application.ReadyBetweenStartAndShutdown | models/application_model.py:45-72 | ready once started; no longer ready once shut down, whether or not it was started |
| Application.StartupSettings | models/application_model.py:75-81 | run_on_startup, start_minimized and show_notification in that order, each read with `get` under "startup/<option>" with its default (False, True, True) |
| Application.BehaviorSettings | models/application_model.py:119-126 | minimize_to_tray, close_to_tray, single_instance and show_script_notifications in that order, each read with `get` under "behavior/<option>" with default True |
| Application.ExecutionSettings | models/application_model.py:161-166 | script_timeout_seconds and status_refresh_seconds in that order, each read with `get` under "execution/<option>" with its default (30, 5) |
| Application.ReadAll | models/application_model.py:75-81 | one entry per option, in order, holding the value `get` reads under "<category>/<option>" with that option's default (see also lines 119-126, 161-166) |
| Application.ReadAllReadsBack | models/application_model.py:75-81 | every option the category getter reports that is stored reads as the stored value with boolean text converted |
| Application.DispatchCarriesNewValue | models/application_model.py:202-209 | after a key is written, at most one category signal follows, and the option stored under that key is reported with the written value as `get` reads it back; every other stored option it reports is read from the new store |
| Application.Dispatch | models/application_model.py:202-209 | a setting change emits at most one category signal, and none exactly when the key has none of the startup, behavior and execution prefixes |
| Application.CategoryPrefixesDisjoint | models/application_model.py:202-209 | a key starts with at most one of "startup/", "behavior/", "execution/" |
| Application.DispatchByPrefix | models/application_model.py:202-209 | a changed key is announced with its own category's settings only, and a key outside the three categories is not announced |
| Application.CustomNamesNotDispatched | models/application_model.py:202-209 | a custom display name change is never announced to the application's listeners |
| Application.ApplicationStateModel.constructor | models/application_model.py:33-42 | the state is "initializing", nothing announced |
| Application.ApplicationStateModel.StartApplication | models/application_model.py:45-55 | the lifecycle becomes `Started` of the old one |
| Application.ApplicationStateModel.ShutdownApplication | models/application_model.py:57-64 | the lifecycle becomes `ShutDown` of the old one |
| Application.ApplicationStateModel.IsReady | models/application_model.py:70-72 | true in the "ready" state, false while initializing, starting or shutting down |
| Application.ApplicationStateModel.OnSettingChanged | models/application_model.py:202-211 | the announcement is `Dispatch` of the key |
| Application.ApplicationStateModel.ChangeSetting | models/application_model.py:102-108 | the value is stored; when it differs from the old one, the settings manager signals and the key's category is announced, carrying the written value as `get` reads it back (see also lines 128-142, 168-174) |
| Application.ApplicationStateModel.SetRunOnStartup | models/application_model.py:83-100 | the setting is written first; the registration is then asked for, and the path refreshed only when it succeeded and startup is being enabled |
| Application.ApplicationStateModel.ShouldShowStartupNotification | models/application_model.py:114-117 | on when the setting was never stored; otherwise exactly when the stored value, converted as `get` converts it, is truthy |
| Application.ApplicationStateModel.ShouldShowScriptNotifications | models/application_model.py:156-159 | on when the setting was never stored; otherwise exactly when the stored value, converted as `get` converts it, is truthy |
| SystemModels.Capped | models/system_models.py:183-186 | at most 100 entries, and they are the most recent ones of the history, in order |
| SystemModels.CappedAppend | models/system_models.py:181-186 | adding to a capped history and capping is capping the whole |
| SystemModels.HistoryKeepsMostRecent | models/system_models.py:172-186 | however many notifications are added one by one, the history is the last 100 of all of them, in the order they came |
| SystemModels.CappedPrefix | models/system_models.py:181-186 | capping early loses nothing the final cap keeps |
| SystemModels.TrayIconModel.constructor | models/system_models.py:29-35 | hidden, tooltip "Desktop Utilities", notifications unsupported |
| SystemModels.TrayIconModel.ShowIcon | models/system_models.py:37-42 | the icon is visible, announced only when it was hidden |
| SystemModels.TrayIconModel.HideIcon | models/system_models.py:44-49 | the icon is hidden, announced only when it was visible |
| SystemModels.TrayIconModel.SetTooltip | models/system_models.py:55-60 | the tooltip is the text, announced only when it differs |
| SystemModels.TrayIconModel.SetSupportsNotifications | models/system_models.py:66-69 | only the support flag changes |
| SystemModels.TrayIconModel.ShowNotification | models/system_models.py:75-82 | the request is forwarded exactly when notifications are supported |
| SystemModels.NotificationModel.constructor | models/system_models.py:101-110 | an empty history |
| SystemModels.NotificationModel.AddToHistory | models/system_models.py:172-187 | the entry is last in the history, which is capped at 100 |
| SystemModels.NotificationModel.ShowNotification | models/system_models.py:112-130 | recorded and announced exactly when the kind's setting allows; script and startup notifications follow their settings, every other kind is shown |
| SystemModels.NotificationModel.ShouldShowNotification | models/system_models.py:112-119 | script notifications follow the script setting, startup notifications the startup setting, other kinds are always shown; `ShowNotification` records nothing when it is false |
| SystemModels.NotificationModel.ShowScriptNotification | models/system_models.py:132-141 | titled "Script Completed: …" with an information icon or "Script Failed: …" with a warning icon, shown only when script notifications are on |
| SystemModels.NotificationModel.ShowStartupNotification | models/system_models.py:143-151 | the startup message, shown only when the startup notification is on |
| SystemModels.NotificationModel.ShowErrorNotification | models/system_models.py:153-157 | always recorded and announced with a critical icon, whatever the settings |
| SystemModels.NotificationModel.ShowWarningNotification | models/system_models.py:159-161 | a general notification, always recorded and announced with a warning icon |
| SystemModels.NotificationModel.ClearHistory | models/system_models.py:167-170 | the history is empty |
| SystemModels.NotificationModel.OnBehaviorSettingsChanged | models/system_models.py:189-191 | the settings are passed on unchanged |
| SystemModels.WindowStateModel.constructor | models/system_models.py:208-215 | not minimized |
| SystemModels.WindowStateModel.SetMinimized | models/system_models.py:248-256 | the flag is set; a change is announced as minimize or restore as the new value says, no change is not announced |
| Schedules.UnitSeconds | models/schedule_model.py:142-152 | every unit is at least one second |
| Schedules.UnitFor | models/schedule_model.py:142-152 | the largest unit of 60, 3600 or 86400 seconds that fits in the interval, else seconds |
| Schedules.IntervalCountBounds | models/schedule_model.py:142-152 | the shown count is the number of whole units in the interval: the interval itself for seconds, at least one otherwise |
| Schedules.IntervalDisplayWords | models/schedule_model.py:142-152 | the display starts with the count; seconds always read "seconds"; other units are plural exactly when the count is not one |
| Schedules.IntervalDisplay | models/schedule_model.py:142-152 | the interval text in seconds, minutes, hours or days; `IntervalDisplayWords` proves it starts with the whole count of that unit and ends with the unit's word, plural exactly when the count is not 1 |
| Schedules.DisplayOf | models/schedule_model.py:127-166 | enabled only when stored true; the interval defaults to 3600; the last run shows "Never" and the next run "Not scheduled" unless a non-zero timestamp is stored, which is shown as local time |
| Schedules.UnconfiguredDisplay | models/schedule_model.py:137-156 | an unconfigured script shows "1 hour", "Never", "Not scheduled" and not enabled |
| Schedules.ScheduleModel.constructor | models/schedule_model.py:36-45 | the given schedule store, nothing announced |
| Schedules.ScheduleModel.SetScheduleEnabled | models/schedule_model.py:51-58 | the flag is stored, the script is scheduled exactly when enabled, and the change is announced only when it differs from the stored flag |
| Schedules.ScheduleModel.IsScheduled | models/schedule_model.py:47-49 | a script is scheduled when its stored configuration says enabled; `SetScheduleEnabled` makes it equal the requested flag |
| Schedules.ScheduleModel.InfoForDisplay | models/schedule_model.py:47-49 | the display is enabled exactly when the script is scheduled (see also lines 127-166) |
| ScheduleViews.Clamp | views/schedule_view.py:72-76 | the spin box holds a value between 1 and 999999, and one in range unchanged |
| ScheduleViews.UnitNamed | views/schedule_view.py:80-82 | the unit a selector text names, and exactly that one |
| ScheduleViews.IntervalSeconds | views/schedule_view.py:200-214 | a named unit gives the count times its seconds; any other text gives 3600 |
| ScheduleViews.ShownIntervalReadBack | views/schedule_view.py:153-178 | showing an interval and reading it back rounds it down to a whole number of its unit, so a whole number of units comes back unchanged; below one second the box reads back 1 (see also lines 200-214) |
| ScheduleViews.LastRunLabel | views/schedule_view.py:180-186 | "Last run: Never" exactly when there is no timestamp |
| ScheduleViews.NextRunLabel | views/schedule_view.py:188-194 | "Next run: Not scheduled" exactly when there is no timestamp |
| ScheduleViews.ScheduleView.constructor | views/schedule_view.py:38-43 | nothing selected, 60 minutes, labels at "Never", "Not scheduled" and "Idle" (see also lines 72-82) |
| ScheduleViews.ScheduleView.SetInterval | views/schedule_view.py:153-178 | the unit and clamped count of the interval are shown without any signal, and the shown interval is the interval rounded down to its unit |
| ScheduleViews.ScheduleView.AnnounceInterval | views/schedule_view.py:240-256 | with a selection the shown interval is signalled; without one nothing is |
| ScheduleViews.ScheduleView.EditCount | views/schedule_view.py:72-77 | the count is clamped, and a real change is signalled with the new interval when a script is selected (see also lines 240-247) |
| ScheduleViews.ScheduleView.ChooseUnit | views/schedule_view.py:80-83 | the unit is set, and a real change is signalled with the count times the unit when a script is selected (see also lines 249-256) |
| ScheduleViews.ScheduleView.ToggleEnabled | views/schedule_view.py:231-238 | the box is set, and a real change is signalled when a script is selected |
| ScheduleViews.ScheduleView.RunNow | views/schedule_view.py:258-265 | a run is requested for the selected script, or the user is warned when none is selected |
| ScheduleViews.ScheduleView.SelectScript | views/schedule_view.py:216-229 | the selection is recorded and the editors accept input exactly when a script is selected, without any signal (see also lines 267-299) |
| ScheduleViews.ScheduleView.UpdateScheduleInfo | views/schedule_view.py:301-318 | information about another script is ignored; for the selected one the box, interval, labels and status show it, defaulting to disabled, 3600 and "Idle", without any signal |

## Left out

- Qt machinery: timers firing, signal delivery and widgets. Emitted signals are recorded as `events`, and a timer tick is a call made by the caller.
- Threads: the thread pools of discovery, the `QThread` workers of script execution and update checks, and the locks. Discovery takes the analyses in the order given, which stands for completion order.
- Operating-system effects: process launch and termination, Job Objects, `RegisterHotKey`/`UnregisterHotKey`, the startup registry, the network and the file system. Their outcomes are parameters.
- Python introspection: the AST walk, `importlib` and `inspect` of the script analyzer and executor. What they yield is a parameter (`Environment`, the analysis results).
- Time: timestamps are integers or reals given by the caller. `datetime` formatting is represented by `LocalTime` and `Stamped` values.
- Text: only ASCII letter case and whitespace are modelled. Python `==` between numbers is modelled only for booleans against integers.
- Executor.ArgumentErrors: does not model the `float` type check of core/script_executor.py:366-370, because float parsing is outside the model; a float-typed argument yields no type error here.
- Executor.ArgumentErrors: an infinite float given for an `int` argument passes the int check here, while `int()` raises OverflowError there (core/script_executor.py:361-365), which is not caught and leaves validation; the model has no path for an exception escaping validation. NaN is modelled: it gives "must be an integer".
- Values.Truthy: a float's truth is read from its text ("0.0" and "-0.0" are false), not from its numeric value.
- Configurator.RecordedPasses: covers recorded keys without a '+' only; a text key containing '+' is not covered.
- Hotkeys.ParseHotkeyString: the virtual-key table is taken as given; the codes are not proved positive.
- Hotkeys.HotkeyManager.UnregisterAll: the per-identifier `UnregisterHotKey` calls are not modelled; the tables are cleared.
- The hotkey manager's `_cleanup_orphaned_hotkeys`, `validate_registration_status`, `_validate_widget_handle` and `nativeEvent`, which only talk to the OS.
- Registry.HotkeyRegistry.constructor: the model is a registry over an empty "hotkeys" group; `_load_mappings` (core/hotkey_registry.py:32-49), which fills both tables from the stored non-empty hotkeys, is not modelled, because stored groups in which two scripts share a hotkey give tables that are not inverse (the reverse table keeps the last script), and the model's registry keeps them inverse.
- The registry's `validate_mappings` and `export_mappings`, which only read the tables.
- Registry.HotkeyRegistry.ImportEntry: built on the corrected `AddHotkey`, so a whitespace-only hotkey is refused with the emptiness error, while the source's `add_hotkey` stores it as "" and reports success (core/hotkey_registry.py:69-90); `AddHotkeyAsWritten` models that behaviour.
- Registry.HotkeyRegistry.ImportMappings: built on `ImportEntry`, so an entry with a whitespace-only hotkey is counted among the conflicts, while the source counts it as imported (core/hotkey_registry.py:224-234).
- Configurator.KeyName: `Printable` accepts ASCII ' '..'~' only, so key text that is a non-ASCII printable character (an "ü" on a German keyboard, say) gives no key name here, while the source records `text.upper()` (gui/hotkey_configurator.py:145-149); Unicode character categories are outside the model.
- Registry.HotkeyRegistry.ClearAll: takes its next script from the remaining set in no particular order, so the removal signals are not promised in the forward table's insertion order, as the source gives them; each script is removed exactly once.
- Scheduling.ScheduleRuntime.StopAllSchedules: takes its next name from the remaining set in no particular order, so the stopped signals are not promised in the table's insertion order; each name is stopped exactly once.
- Services.ServiceRuntime.StopAllServices: takes its next name from the remaining set in no particular order, so the services are not promised to stop in the table's insertion order; the registry ends empty.
- Supervision.ServiceMonitor.CheckServices: takes its next name from the remaining set in no particular order, so the state-change and crash signals are not promised in the runtime table's insertion order; each service is checked exactly once.
- The script models' `add_external_script`, `remove_external_script`, `execute_script_with_preset`, `get_script_status` and the worker thread's `run`.
- The tray model's `request_menu_update` and the notification model's `get_notification_history`, which only emit or copy.
- The schedule model's `set_schedule_config`, `set_schedule_interval`, the last- and next-run setters, `remove_schedule_config` and the `emit_*` methods. The settings manager's schedule accessors are not defined in core/settings.py, so the schedule store is a map of configurations.
- The application model's remaining setters and getters. They are represented by `ChangeSetting` and `Lookup`.
- The window model's geometry and position, which are forwarded to settings unchanged.
- The service monitor reads service configurations through a settings call that core/settings.py does not define; the configurations are a parameter.
- Analysis.PositionalArg: the help text of a batch or shell positional argument is always "", while the source reads it from a REM or # comment that mentions the argument (core/script_analyzer.py:362-367 and 468-473); regular-expression search over comments is outside the model.
- Analysis.LetterArg: the help text of a getopts option is always "", while the source reads it from a # comment after the option's case label (core/script_analyzer.py:440-445).

## Findings

| source | as written | input that shows it | evidently intended | confidence | as-written member | corrected member |
|---|---|---|---|---|---|---|
| core/service_monitor.py:143-176 | the restart calls `start_service` while the crashed service's handle is still registered, and core/service_runtime.py:102-103 refuses a name that is already registered, so the restart always fails and only the restart count grows | any crashed service whose restart is due | clean up the crashed handle first, so the restart can succeed | not executed | Supervision.ServiceMonitor.RestartService | Supervision.ServiceMonitor.RestartServiceCorrected |
| core/hotkey_registry.py:63-103 | a hotkey of only spaces passes the emptiness check before stripping and is stored as "", and a later assignment leaves the "" reverse entry behind, so the two maps stop being inverses | `add_hotkey("a", " ")` then `add_hotkey("a", "Ctrl+X")` | reject a hotkey that is blank after stripping | not executed | Registry.AddAsWritten, Registry.BlankHotkeyBreaksInverse | Registry.HotkeyRegistry.AddHotkey |
| gui/hotkey_configurator.py:19-21, 73-79 | Escape is in the ignored keys, so the press returns before the branch that stops recording on Escape is reached | pressing Escape while recording | Escape stops recording | not executed | Configurator.HotkeyRecorder.HandleKeyPress, Configurator.EscapeKeepsRecording | Configurator.HotkeyRecorder.HandleKeyPressCorrected, Configurator.EscapeStopsRecording |
| models/script_models.py:546-563 | the cache keeps the hotkey as passed while the registry stores it stripped | `set_hotkey_for_script("a", " Ctrl+A")` | cache the stripped hotkey the registry holds | not executed | ScriptModels.HotkeyModel.SetHotkeyAsWritten | ScriptModels.HotkeyModel.SetHotkeyForScript |
| core/settings.py:68-72, 145-147, 210-213 | custom names are read through `get`, which turns "true"/"false" text into booleans, so a valid custom name "False" is never shown and "True" comes back as a boolean | `set_custom_name("a", "False")` then `get_effective_name("a")` | return the stored custom name as text | not executed | Preferences.EffectiveNameAsWritten, Preferences.FalseCustomNameHidden | Preferences.EffectiveName, Preferences.SettingsManager.SetCustomName |
