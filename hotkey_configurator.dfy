/**
 * The hotkey recorder widget and the hotkey configuration dialog.
 *
 * The recorder is a read-only line edit that, while recording, turns each
 * key press into a combination such as `Ctrl+Shift+F5` and shows it. The
 * dialog holds the combination last shown and checks it before it closes.
 * Qt's key codes and modifier flags are integers; what the widgets show
 * and emit is modelled as fields: `text` is the line edit's text and
 * `emitted` lists the strings sent on `hotkey_changed`.
 */
module Configurator {
  import opened Text

  // ---------------------------------------------------------------- Qt key codes

  const KEY_SPACE := 0x20
  const KEY_APOSTROPHE := 0x27
  const KEY_ASTERISK := 0x2a
  const KEY_PLUS := 0x2b
  const KEY_COMMA := 0x2c
  const KEY_MINUS := 0x2d
  const KEY_PERIOD := 0x2e
  const KEY_SLASH := 0x2f
  const KEY_0 := 0x30
  const KEY_9 := 0x39
  const KEY_SEMICOLON := 0x3b
  const KEY_A := 0x41
  const KEY_Z := 0x5a
  const KEY_BRACKET_LEFT := 0x5b
  const KEY_BACKSLASH := 0x5c
  const KEY_BRACKET_RIGHT := 0x5d
  const KEY_QUOTE_LEFT := 0x60
  const KEY_ESCAPE := 0x0100_0000
  const KEY_TAB := 0x0100_0001
  const KEY_BACKSPACE := 0x0100_0003
  const KEY_RETURN := 0x0100_0004
  const KEY_ENTER := 0x0100_0005
  const KEY_INSERT := 0x0100_0006
  const KEY_DELETE := 0x0100_0007
  const KEY_PAUSE := 0x0100_0008
  const KEY_PRINT := 0x0100_0009
  const KEY_HOME := 0x0100_0010
  const KEY_END := 0x0100_0011
  const KEY_LEFT := 0x0100_0012
  const KEY_UP := 0x0100_0013
  const KEY_RIGHT := 0x0100_0014
  const KEY_DOWN := 0x0100_0015
  const KEY_PAGE_UP := 0x0100_0016
  const KEY_PAGE_DOWN := 0x0100_0017
  const KEY_SHIFT := 0x0100_0020
  const KEY_CONTROL := 0x0100_0021
  const KEY_META := 0x0100_0022
  const KEY_ALT := 0x0100_0023
  const KEY_CAPS_LOCK := 0x0100_0024
  const KEY_NUM_LOCK := 0x0100_0025
  const KEY_SCROLL_LOCK := 0x0100_0026
  const KEY_F1 := 0x0100_0030
  const KEY_F12 := 0x0100_003b
  const KEY_SUPER_L := 0x0100_0053
  const KEY_SUPER_R := 0x0100_0054
  const KEY_HYPER_L := 0x0100_0056
  const KEY_HYPER_R := 0x0100_0057
  const KEY_ALT_GR := 0x0100_1103
  const KEY_UNKNOWN := 0x01ff_ffff

  /** Qt's keyboard modifier flags. */
  const SHIFT_MODIFIER := 0x0200_0000
  const CONTROL_MODIFIER := 0x0400_0000
  const ALT_MODIFIER := 0x0800_0000
  const META_MODIFIER := 0x1000_0000

  const MODIFIER_KEYS: set<int> := {KEY_CONTROL, KEY_SHIFT, KEY_ALT, KEY_META, KEY_ALT_GR,
                                    KEY_SUPER_L, KEY_SUPER_R, KEY_HYPER_L, KEY_HYPER_R}

  const IGNORED_KEYS: set<int> := {KEY_UNKNOWN, KEY_ESCAPE}

  /** The names of the special keys. */
  const KEY_NAMES: map<int, string> := map[
    KEY_SPACE := "Space", KEY_TAB := "Tab", KEY_RETURN := "Enter", KEY_ENTER := "Enter",
    KEY_BACKSPACE := "Backspace", KEY_DELETE := "Delete", KEY_INSERT := "Insert",
    KEY_HOME := "Home", KEY_END := "End", KEY_PAGE_UP := "PageUp", KEY_PAGE_DOWN := "PageDown",
    KEY_UP := "Up", KEY_DOWN := "Down", KEY_LEFT := "Left", KEY_RIGHT := "Right",
    KEY_PLUS := "Plus", KEY_MINUS := "Minus", KEY_ASTERISK := "Multiply", KEY_SLASH := "Slash",
    KEY_PERIOD := "Period", KEY_COMMA := "Comma", KEY_SEMICOLON := "Semicolon",
    KEY_QUOTE_LEFT := "Grave", KEY_BRACKET_LEFT := "Bracket_Left",
    KEY_BRACKET_RIGHT := "Bracket_Right", KEY_BACKSLASH := "Backslash",
    KEY_APOSTROPHE := "Quote", KEY_PAUSE := "Pause", KEY_PRINT := "PrintScreen",
    KEY_SCROLL_LOCK := "ScrollLock", KEY_CAPS_LOCK := "CapsLock", KEY_NUM_LOCK := "NumLock"]

  /** What the recorder shows while it waits for a key. */
  const PROMPT := "Press a key combination..."

  // ---------------------------------------------------------------- key naming

  /** `str.isprintable`, for ASCII text. */
  predicate Printable(text: string)
  {
    forall i :: 0 <= i < |text| ==> ' ' <= text[i] <= '~'
  }

  predicate IsFunctionKey(key: int) { KEY_F1 <= key <= KEY_F12 }

  predicate IsDigitKey(key: int) { KEY_0 <= key <= KEY_9 }

  predicate IsLetterKey(key: int) { KEY_A <= key <= KEY_Z }

  /** The key-naming branch of `handle_key_press` for a non-modifier key:
      function keys are `F1`..`F12`, digits and letters their own character,
      special keys their table name, and any other key its printable text
      upper-cased, or nothing. */
  function KeyName(key: int, text: string): (r: Option<string>)
    ensures IsFunctionKey(key) ==>
      && r.Some? && |r.value| >= 2 && r.value[0] == 'F'
      && (forall i :: 1 <= i < |r.value| ==> IsDigit(r.value[i]))
      && DigitsValue(r.value[1..]) == key - KEY_F1 + 1
    ensures IsDigitKey(key) || IsLetterKey(key) ==> r == Some([key as char])
    ensures r.Some? ==> r.value != []
  {
    if IsFunctionKey(key) then
      DigitsOfNat(key - KEY_F1 + 1);
      var digits := NatToString(key - KEY_F1 + 1);
      assert ("F" + digits)[1..] == digits;
      Some("F" + digits)
    else if IsDigitKey(key) || IsLetterKey(key) then
      Some([key as char])
    else if key in KEY_NAMES then
      NamesNonEmpty(key);
      Some(KEY_NAMES[key])
    else if text != [] && Printable(text) then
      Some(Upper(text))
    else
      None
  }

  lemma NamesNonEmpty(key: int)
    requires key in KEY_NAMES
    ensures 2 <= |KEY_NAMES[key]| <= 13
  {
  }

  /** A key that has a table name is named after the table, whatever text
      the event carries. */
  lemma NamedKeyIgnoresText(key: int, text: string, other: string)
    requires key in KEY_NAMES
    ensures KeyName(key, text) == KeyName(key, other) == Some(KEY_NAMES[key])
  {
  }

  // ---------------------------------------------------------------- the display

  /** The modifiers the recorder holds (`current_modifiers`, a set that only
      ever holds these four names). */
  datatype Held = Held(ctrl: bool, alt: bool, shift: bool, win: bool)

  const NONE_HELD := Held(false, false, false, false)

  /** The modifiers of a key event, from Qt's flag bits. */
  function HeldFrom(flags: nat): (h: Held)
    ensures h.ctrl <==> (flags / CONTROL_MODIFIER) % 2 == 1
    ensures h.alt <==> (flags / ALT_MODIFIER) % 2 == 1
    ensures h.shift <==> (flags / SHIFT_MODIFIER) % 2 == 1
    ensures h.win <==> (flags / META_MODIFIER) % 2 == 1
  {
    Held((flags / CONTROL_MODIFIER) % 2 == 1, (flags / ALT_MODIFIER) % 2 == 1,
         (flags / SHIFT_MODIFIER) % 2 == 1, (flags / META_MODIFIER) % 2 == 1)
  }

  function Optional(present: bool, name: string): seq<string>
  {
    if present then [name] else []
  }

  /** The held modifiers in the order Ctrl, Alt, Shift, Win. */
  function HeldNames(h: Held): (r: seq<string>)
    ensures |r| <= 4
    ensures r == [] <==> h == NONE_HELD
  {
    Optional(h.ctrl, "Ctrl") + Optional(h.alt, "Alt") + Optional(h.shift, "Shift") + Optional(h.win, "Win")
  }

  /** `if self.current_key:`. */
  predicate KeyPresent(key: Option<string>)
  {
    key.Some? && key.value != []
  }

  /** The parts `update_display` joins. */
  function DisplayParts(h: Held, key: Option<string>): (parts: seq<string>)
    ensures parts == [] <==> h == NONE_HELD && !KeyPresent(key)
    ensures KeyPresent(key) ==> parts[|parts| - 1] == key.value
  {
    HeldNames(h) + (if KeyPresent(key) then [key.value] else [])
  }

  // ---------------------------------------------------------------- recorder state

  /** Everything of the recorder that its methods change. */
  datatype RecorderState = RecorderState(
    held: Held,
    key: Option<string>,
    recording: bool,
    text: string,
    emitted: seq<string>)

  /** `update_display`: a non-empty combination is shown and emitted;
      otherwise the prompt is shown and nothing is emitted. */
  function DisplayOf(st: RecorderState): (r: RecorderState)
    ensures r.held == st.held && r.key == st.key && r.recording == st.recording
    ensures DisplayParts(st.held, st.key) == [] ==> r == st.(text := PROMPT)
    ensures DisplayParts(st.held, st.key) != [] ==>
      var shown := Join(DisplayParts(st.held, st.key), "+");
      r.text == shown && r.emitted == st.emitted + [shown]
  {
    var parts := DisplayParts(st.held, st.key);
    if parts != [] then
      var shown := Join(parts, "+");
      st.(text := shown, emitted := st.emitted + [shown])
    else
      st.(text := PROMPT)
  }

  /** What a key press does once it is not ignored: the held modifiers are
      replaced by the event's; a non-modifier key replaces the key (with
      nothing when it has no name); a modifier key leaves the key as it was.
      Then the display is updated. */
  function Pressed(st: RecorderState, key: int, flags: nat, text: string): (r: RecorderState)
    ensures r.held == HeldFrom(flags) && r.recording == st.recording
    ensures key in MODIFIER_KEYS ==> r.key == st.key
    ensures key !in MODIFIER_KEYS ==> r.key == KeyName(key, text)
  {
    var withHeld := st.(held := HeldFrom(flags));
    DisplayOf(if key in MODIFIER_KEYS then withHeld else withHeld.(key := KeyName(key, text)))
  }

  /** `handle_key_press` as written: Escape is one of the ignored keys, so
      the check that it stops recording comes after it has already
      returned and never runs. */
  function PressAsWritten(st: RecorderState, key: int, flags: nat, text: string): RecorderState
  {
    if key in IGNORED_KEYS then st else Pressed(st, key, flags, text)
  }

  /** `handle_key_press` with Escape checked first, as its comment means. */
  function PressCorrected(st: RecorderState, key: int, flags: nat, text: string): RecorderState
  {
    if key == KEY_ESCAPE then st.(recording := false)
    else if key in IGNORED_KEYS then st
    else Pressed(st, key, flags, text)
  }

  /** As written, Escape changes nothing: recording goes on. */
  lemma EscapeKeepsRecording(st: RecorderState, flags: nat, text: string)
    ensures PressAsWritten(st, KEY_ESCAPE, flags, text) == st
    ensures st.recording ==> PressAsWritten(st, KEY_ESCAPE, flags, text).recording
  {
  }

  /** Corrected, Escape stops recording and changes nothing else; every
      other key behaves as written. */
  lemma EscapeStopsRecording(st: RecorderState, key: int, flags: nat, text: string)
    ensures !PressCorrected(st, KEY_ESCAPE, flags, text).recording
    ensures PressCorrected(st, KEY_ESCAPE, flags, text) == st.(recording := false)
    ensures key != KEY_ESCAPE ==> PressCorrected(st, key, flags, text) == PressAsWritten(st, key, flags, text)
  {
  }

  /** The recorded key is never the prompt text (every key name differs
      from it). */
  predicate KeyValid(key: Option<string>)
  {
    key.Some? ==> key.value != PROMPT
  }

  /** A key press keeps the recorded key apart from the prompt. */
  lemma PressKeepsKeyValid(st: RecorderState, key: int, flags: nat, text: string)
    requires KeyValid(st.key)
    ensures KeyValid(PressAsWritten(st, key, flags, text).key)
    ensures KeyValid(PressCorrected(st, key, flags, text).key)
  {
    if key !in MODIFIER_KEYS && KeyName(key, text).Some? {
      KeyNameNotPrompt(key, text);
    }
  }

  /** `get_hotkey`: the text, unless it is empty or the prompt. */
  function HotkeyOf(text: string): (r: string)
    ensures r == [] || r == text
    ensures r == [] <==> text == [] || text == PROMPT
  {
    if text != [] && text != PROMPT then text else []
  }

  // ---------------------------------------------------------------- what the display reads back as

  lemma UpperHasNoLower(s: string)
    ensures forall i :: 0 <= i < |Upper(s)| ==> !IsLowerChar(Upper(s)[i])
  {
  }

  /** No key name equals the prompt. */
  lemma KeyNameNotPrompt(key: int, text: string)
    requires KeyName(key, text).Some?
    ensures KeyName(key, text).value != PROMPT
  {
    var r := KeyName(key, text).value;
    if IsFunctionKey(key) {
      assert r[0] != PROMPT[0];
    } else if IsDigitKey(key) || IsLetterKey(key) {
      assert |r| != |PROMPT|;
    } else if key in KEY_NAMES {
      NamesNonEmpty(key);
      assert |r| != |PROMPT|;
    } else {
      if |r| == |PROMPT| {
        UpperHasNoLower(text);
        assert IsLowerChar(PROMPT[1]);
        assert r[1] != PROMPT[1];
      }
    }
  }

  lemma JoinHead(parts: seq<string>, sep: string)
    requires |parts| >= 1 && parts[0] != []
    ensures Join(parts, sep) != [] && Join(parts, sep)[0] == parts[0][0]
  {
  }

  lemma HeldNamesHead(h: Held)
    requires h != NONE_HELD
    ensures HeldNames(h)[0][0] in {'C', 'A', 'S', 'W'}
  {
  }

  /** Whenever the recorder shows a combination, `get_hotkey` gives back
      exactly that combination. */
  lemma {:induction false} ShownReadsBack(st: RecorderState)
    requires DisplayParts(st.held, st.key) != []
    requires KeyValid(st.key)
    ensures HotkeyOf(DisplayOf(st).text) == DisplayOf(st).text == Join(DisplayParts(st.held, st.key), "+")
  {
    var parts := DisplayParts(st.held, st.key);
    var shown := Join(parts, "+");
    if st.held != NONE_HELD {
      HeldNamesHead(st.held);
      assert parts[0] == HeldNames(st.held)[0];
      JoinHead(parts, "+");
      assert shown[0] != PROMPT[0];
    } else {
      assert parts == [st.key.value];
    }
  }

  // ---------------------------------------------------------------- the recorder

  class HotkeyRecorder {
    var held: Held
    var key: Option<string>
    var recording: bool
    var text: string
    var emitted: seq<string>

    function State(): RecorderState
      reads this
    {
      RecorderState(held, key, recording, text, emitted)
    }

    predicate Valid()
      reads this
    {
      KeyValid(key)
    }

    constructor()
      ensures Valid()
      ensures State() == RecorderState(NONE_HELD, None, false, [], [])
    {
      held := NONE_HELD;
      key := None;
      recording := false;
      text := [];
      emitted := [];
    }

    /** `update_display`. */
    method UpdateDisplay()
      modifies this
      ensures State() == DisplayOf(old(State()))
    {
      var parts := HeldNames(held);
      if key.Some? && key.value != [] {
        parts := parts + [key.value];
      }
      assert parts == DisplayParts(held, key);
      if parts != [] {
        var shown := Join(parts, "+");
        text := shown;
        emitted := emitted + [shown];
      } else {
        text := PROMPT;
      }
    }

    /** `handle_key_press`, as written. */
    method HandleKeyPress(k: int, flags: nat, eventText: string)
      requires Valid()
      modifies this
      ensures Valid()
      ensures State() == PressAsWritten(old(State()), k, flags, eventText)
    {
      if k in IGNORED_KEYS {
        return;
      }
      PressKeepsKeyValid(State(), k, flags, eventText);
      held := HeldFrom(flags);
      if k !in MODIFIER_KEYS {
        key := KeyName(k, eventText);
      }
      UpdateDisplay();
    }

    /** `handle_key_press` with Escape handled before the ignored keys. */
    method HandleKeyPressCorrected(k: int, flags: nat, eventText: string)
      requires Valid()
      modifies this
      ensures Valid()
      ensures State() == PressCorrected(old(State()), k, flags, eventText)
    {
      if k == KEY_ESCAPE {
        StopRecording();
        return;
      }
      HandleKeyPress(k, flags, eventText);
    }

    /** `eventFilter` for a key press: handled, and consumed, only while
        recording. */
    method KeyPressEvent(k: int, flags: nat, eventText: string) returns (consumed: bool)
      requires Valid()
      modifies this
      ensures Valid()
      ensures consumed == old(recording)
      ensures old(recording) ==> State() == PressAsWritten(old(State()), k, flags, eventText)
      ensures !old(recording) ==> State() == old(State())
    {
      consumed := recording;
      if recording {
        HandleKeyPress(k, flags, eventText);
      }
    }

    /** `start_recording`: nothing held, no key, the prompt shown. */
    method StartRecording()
      modifies this
      ensures State() == old(State()).(held := NONE_HELD, key := None, recording := true, text := PROMPT)
    {
      recording := true;
      held := NONE_HELD;
      key := None;
      text := PROMPT;
    }

    /** `stop_recording`. */
    method StopRecording()
      modifies this
      ensures State() == old(State()).(recording := false)
    {
      recording := false;
    }

    /** `mousePressEvent`: a click starts recording unless it is on. */
    method MousePress()
      modifies this
      ensures old(recording) ==> State() == old(State())
      ensures !old(recording) ==> State() == old(State()).(held := NONE_HELD, key := None, recording := true, text := PROMPT)
    {
      if !recording {
        StartRecording();
      }
    }

    /** `focusOutEvent`: losing focus stops recording. */
    method FocusOut()
      modifies this
      ensures State() == old(State()).(recording := false)
    {
      if recording {
        StopRecording();
      }
    }

    /** `get_hotkey`. */
    function GetHotkey(): (r: string)
      reads this
      ensures r == HotkeyOf(text)
    {
      if text != [] && text != PROMPT then text else []
    }

    /** `set_hotkey`: the text is shown, and emitted when non-empty. */
    method SetHotkey(hotkey: string)
      modifies this
      ensures State() == old(State()).(text := hotkey, emitted := old(emitted) + (if hotkey != [] then [hotkey] else []))
      ensures hotkey != PROMPT ==> GetHotkey() == hotkey
    {
      text := hotkey;
      if hotkey != [] {
        emitted := emitted + [hotkey];
      }
    }

    /** `clear`. */
    method Clear()
      modifies this
      ensures State() == old(State()).(held := NONE_HELD, key := None, text := [])
      ensures GetHotkey() == []
    {
      held := NONE_HELD;
      key := None;
      text := [];
    }
  }

  // ---------------------------------------------------------------- the dialog's check

  predicate IsModifierPart(p: string)
  {
    p == "Ctrl" || p == "Alt" || p == "Shift" || p == "Win"
  }

  /** The combinations the dialog warns about. */
  const SYSTEM_HOTKEYS: seq<string> := [
    "Ctrl+C", "Ctrl+V", "Ctrl+X", "Ctrl+A", "Ctrl+Z", "Ctrl+Y",
    "Ctrl+S", "Ctrl+O", "Ctrl+N", "Ctrl+P", "Ctrl+F",
    "Alt+Tab", "Alt+F4", "Win+L", "Win+D", "Win+Tab",
    "Ctrl+Alt+Delete", "Ctrl+Shift+Escape"]

  const NEEDS_MODIFIER := "Hotkey must include at least one modifier (Ctrl, Alt, Shift, or Win)"
  const NEEDS_KEY := "Hotkey must include a non-modifier key"
  const SYSTEM_WARNING := "This hotkey is reserved by the system"

  /** What `validate_hotkey` answers, and the message it shows. */
  datatype Verdict = Passed | Warned(message: string) | Rejected(message: string)

  predicate HasModifier(parts: seq<string>)
  {
    exists i :: 0 <= i < |parts| && IsModifierPart(parts[i])
  }

  predicate HasKey(parts: seq<string>)
  {
    exists i :: 0 <= i < |parts| && !IsModifierPart(parts[i])
  }

  /** `validate_hotkey`: no hotkey passes; otherwise the `+`-separated parts
      need a Ctrl/Alt/Shift/Win part and another part, checked in that
      order; a listed system combination passes with a warning. */
  function Validation(hotkey: Option<string>): (v: Verdict)
    ensures hotkey.None? || hotkey.value == [] ==> v == Passed
    ensures v.Rejected? <==>
      hotkey.Some? && hotkey.value != [] && !(HasModifier(Split(hotkey.value, '+')) && HasKey(Split(hotkey.value, '+')))
    ensures v.Warned? ==> hotkey.Some? && hotkey.value in SYSTEM_HOTKEYS && v.message == SYSTEM_WARNING
  {
    if hotkey.None? || hotkey.value == [] then Passed
    else
      var parts := Split(hotkey.value, '+');
      if !HasModifier(parts) then Rejected(NEEDS_MODIFIER)
      else if !HasKey(parts) then Rejected(NEEDS_KEY)
      else if hotkey.value in SYSTEM_HOTKEYS then Warned(SYSTEM_WARNING)
      else Passed
  }

  lemma ModifierPartsNoPlus(h: Held)
    ensures forall i :: 0 <= i < |HeldNames(h)| ==> '+' !in HeldNames(h)[i] && IsModifierPart(HeldNames(h)[i])
  {
  }

  /** A combination the recorder shows with at least one modifier and a key
      without `+` in it passes the dialog's check (possibly with a warning). */
  lemma {:induction false} RecordedPasses(h: Held, key: string)
    requires h != NONE_HELD
    requires key != [] && '+' !in key && !IsModifierPart(key)
    ensures !Validation(Some(Join(DisplayParts(h, Some(key)), "+"))).Rejected?
  {
    var parts := DisplayParts(h, Some(key));
    ModifierPartsNoPlus(h);
    assert parts == HeldNames(h) + [key];
    forall i | 0 <= i < |parts|
      ensures '+' !in parts[i]
    {
      if i < |HeldNames(h)| {
        assert parts[i] == HeldNames(h)[i];
      }
    }
    SplitJoin(parts, '+');
    assert Join(parts, [('+')]) == Join(parts, "+");
    assert IsModifierPart(parts[0]) by {
      assert parts[0] == HeldNames(h)[0];
    }
    assert !IsModifierPart(parts[|parts| - 1]);
  }

  /** A combination whose parts have no `+`, start with a modifier and end
      with another key passes the check; when it is listed, with the
      warning. */
  lemma WarnedWhenListed(parts: seq<string>)
    requires |parts| >= 2 && forall i :: 0 <= i < |parts| ==> '+' !in parts[i]
    requires IsModifierPart(parts[0]) && !IsModifierPart(parts[|parts| - 1])
    ensures !Validation(Some(Join(parts, "+"))).Rejected?
    ensures Join(parts, "+") in SYSTEM_HOTKEYS ==> Validation(Some(Join(parts, "+"))) == Warned(SYSTEM_WARNING)
  {
    SplitHasBoth(parts);
  }

  lemma SplitHasBoth(parts: seq<string>)
    requires |parts| >= 2 && forall i :: 0 <= i < |parts| ==> '+' !in parts[i]
    requires IsModifierPart(parts[0]) && !IsModifierPart(parts[|parts| - 1])
    ensures var split := Split(Join(parts, "+"), '+'); HasModifier(split) && HasKey(split)
  {
    SplitJoin(parts, '+');
    assert Join(parts, [('+')]) == Join(parts, "+");
    var split := Split(Join(parts, "+"), '+');
    assert split[0] == parts[0];
    assert split[|split| - 1] == parts[|parts| - 1];
  }

  /** A listed combination, given by its parts, only warns. */
  lemma WarnsAt(i: nat, parts: seq<string>)
    requires |parts| >= 2 && forall j :: 0 <= j < |parts| ==> '+' !in parts[j]
    requires IsModifierPart(parts[0]) && !IsModifierPart(parts[|parts| - 1])
    requires i < |SYSTEM_HOTKEYS| && SYSTEM_HOTKEYS[i] == Join(parts, "+")
    ensures Validation(Some(SYSTEM_HOTKEYS[i])) == Warned(SYSTEM_WARNING)
  {
    SplitHasBoth(parts);
  }

  lemma WarnsIn0(i: nat)
    requires 0 <= i < 6
    ensures Validation(Some(SYSTEM_HOTKEYS[i])) == Warned(SYSTEM_WARNING)
  {
    if i == 0 {
      WarnsAt(i, ["Ctrl", "C"]);
    } else if i == 1 {
      WarnsAt(i, ["Ctrl", "V"]);
    } else if i == 2 {
      WarnsAt(i, ["Ctrl", "X"]);
    } else if i == 3 {
      WarnsAt(i, ["Ctrl", "A"]);
    } else if i == 4 {
      WarnsAt(i, ["Ctrl", "Z"]);
    } else {
      WarnsAt(i, ["Ctrl", "Y"]);
    }
  }

  lemma WarnsIn1(i: nat)
    requires 6 <= i < 11
    ensures Validation(Some(SYSTEM_HOTKEYS[i])) == Warned(SYSTEM_WARNING)
  {
    if i == 6 {
      WarnsAt(i, ["Ctrl", "S"]);
    } else if i == 7 {
      WarnsAt(i, ["Ctrl", "O"]);
    } else if i == 8 {
      WarnsAt(i, ["Ctrl", "N"]);
    } else if i == 9 {
      WarnsAt(i, ["Ctrl", "P"]);
    } else {
      WarnsAt(i, ["Ctrl", "F"]);
    }
  }

  lemma WarnsIn2(i: nat)
    requires 11 <= i < 16
    ensures Validation(Some(SYSTEM_HOTKEYS[i])) == Warned(SYSTEM_WARNING)
  {
    if i == 11 {
      WarnsAt(i, ["Alt", "Tab"]);
    } else if i == 12 {
      WarnsAt(i, ["Alt", "F4"]);
    } else if i == 13 {
      WarnsAt(i, ["Win", "L"]);
    } else if i == 14 {
      WarnsAt(i, ["Win", "D"]);
    } else {
      WarnsAt(i, ["Win", "Tab"]);
    }
  }

  lemma WarnsIn3(i: nat)
    requires 16 <= i < 18
    ensures Validation(Some(SYSTEM_HOTKEYS[i])) == Warned(SYSTEM_WARNING)
  {
    if i == 16 {
      WarnsAt(i, ["Ctrl", "Alt", "Delete"]);
    } else {
      WarnsAt(i, ["Ctrl", "Shift", "Escape"]);
    }
  }

  /** Every listed system combination passes the check, with the warning. */
  lemma SystemHotkeysOnlyWarn()
    ensures forall i :: 0 <= i < |SYSTEM_HOTKEYS| ==> Validation(Some(SYSTEM_HOTKEYS[i])) == Warned(SYSTEM_WARNING)
  {
    forall i | 0 <= i < |SYSTEM_HOTKEYS|
      ensures Validation(Some(SYSTEM_HOTKEYS[i])) == Warned(SYSTEM_WARNING)
    {
      if i < 6 {
        WarnsIn0(i);
      } else if i < 11 {
        WarnsIn1(i);
      } else if i < 16 {
        WarnsIn2(i);
      } else {
        WarnsIn3(i);
      }
    }
  }

  /** Keys named by code (function keys, digits, letters, special keys) never
      contain `+` and are never a modifier name. */
  lemma NamedByCode(key: int, text: string)
    requires IsFunctionKey(key) || IsDigitKey(key) || IsLetterKey(key) || key in KEY_NAMES
    ensures KeyName(key, text).Some?
    ensures '+' !in KeyName(key, text).value && !IsModifierPart(KeyName(key, text).value)
  {
    var r := KeyName(key, text).value;
    if IsFunctionKey(key) {
      assert forall i :: 1 <= i < |r| ==> IsDigit(r[i]);
      assert r[0] == 'F';
    } else if IsDigitKey(key) || IsLetterKey(key) {
      assert |r| == 1;
    } else {
      NamesNoPlus(key);
    }
  }

  lemma NamesNoPlus(key: int)
    requires key in KEY_NAMES
    ensures '+' !in KEY_NAMES[key] && !IsModifierPart(KEY_NAMES[key])
  {
  }

  // ---------------------------------------------------------------- the dialog

  class HotkeyConfigDialog {
    const scriptName: string
    const currentHotkey: Option<string>
    const recorder: HotkeyRecorder
    var newHotkey: Option<string>
    /** The validation label: its text, whether it shows, and whether it
        has been switched to the warning colour (it is never switched back). */
    var labelText: string
    var labelVisible: bool
    var labelWarning: bool
    /** The dialog closed with OK. */
    var accepted: bool
    /** How many times the invalid-hotkey message box was shown. */
    var refusals: nat

    /** `__init__` and `init_ui`: the recorder shows the current hotkey,
        which is also the new hotkey; nothing is checked yet. */
    constructor(scriptName: string, currentHotkey: Option<string>)
      ensures this.scriptName == scriptName && this.currentHotkey == currentHotkey
      ensures newHotkey == currentHotkey
      ensures fresh(recorder) && recorder.Valid()
      ensures currentHotkey.Some? && currentHotkey.value != [] ==>
        recorder.State() == RecorderState(NONE_HELD, None, false, currentHotkey.value, [currentHotkey.value])
      ensures !(currentHotkey.Some? && currentHotkey.value != []) ==>
        recorder.State() == RecorderState(NONE_HELD, None, false, [], [])
      ensures labelText == [] && !labelVisible && !labelWarning && !accepted && refusals == 0
    {
      this.scriptName := scriptName;
      this.currentHotkey := currentHotkey;
      newHotkey := currentHotkey;
      var r := new HotkeyRecorder();
      if currentHotkey.Some? && currentHotkey.value != [] {
        r.SetHotkey(currentHotkey.value);
      }
      recorder := r;
      labelText := [];
      labelVisible := false;
      labelWarning := false;
      accepted := false;
      refusals := 0;
    }

    /** `validate_hotkey`: the answer is false exactly when the check
        rejects; the label shows the message of a rejection or warning. */
    method ValidateHotkey() returns (valid: bool)
      modifies this
      ensures valid <==> !Validation(newHotkey).Rejected?
      ensures newHotkey == old(newHotkey) && accepted == old(accepted) && refusals == old(refusals)
      ensures Validation(newHotkey).Passed? ==>
        !labelVisible && labelText == old(labelText) && labelWarning == old(labelWarning)
      ensures Validation(newHotkey).Rejected? ==>
        labelVisible && labelText == Validation(newHotkey).message && labelWarning == old(labelWarning)
      ensures Validation(newHotkey).Warned? ==>
        labelVisible && labelText == SYSTEM_WARNING && labelWarning
    {
      if newHotkey.None? || newHotkey.value == [] {
        labelVisible := false;
        return true;
      }
      var parts := Split(newHotkey.value, '+');
      var hasModifier := HasModifier(parts);
      var hasKey := HasKey(parts);
      if !hasModifier {
        labelText := NEEDS_MODIFIER;
        labelVisible := true;
        return false;
      }
      if !hasKey {
        labelText := NEEDS_KEY;
        labelVisible := true;
        return false;
      }
      if newHotkey.value in SYSTEM_HOTKEYS {
        labelText := SYSTEM_WARNING;
        labelWarning := true;
        labelVisible := true;
        return true;
      }
      labelVisible := false;
      valid := true;
    }

    /** `on_hotkey_changed`. */
    method OnHotkeyChanged(hotkey: string)
      modifies this
      ensures newHotkey == Some(hotkey)
      ensures accepted == old(accepted) && refusals == old(refusals)
      ensures labelVisible <==> !Validation(Some(hotkey)).Passed?
    {
      newHotkey := Some(hotkey);
      var _ := ValidateHotkey();
    }

    /** A key press in the recorder; what it emits reaches
        `on_hotkey_changed` through the signal connection. */
    method RecorderKeyPress(k: int, flags: nat, eventText: string)
      requires recorder.Valid()
      modifies this, recorder
      ensures recorder.Valid()
      ensures recorder.State() ==
        if old(recorder.recording) then PressAsWritten(old(recorder.State()), k, flags, eventText)
        else old(recorder.State())
      ensures |recorder.emitted| > |old(recorder.emitted)| ==>
        newHotkey == Some(recorder.text) && recorder.GetHotkey() == recorder.text
      ensures |recorder.emitted| == |old(recorder.emitted)| ==> newHotkey == old(newHotkey)
      ensures accepted == old(accepted) && refusals == old(refusals)
    {
      var before := |recorder.emitted|;
      ghost var st := recorder.State();
      var _ := recorder.KeyPressEvent(k, flags, eventText);
      if |recorder.emitted| > before {
        assert DisplayParts(recorder.held, recorder.key) != [];
        ShownAfterPress(st, k, flags, eventText);
        OnHotkeyChanged(recorder.text);
      }
    }

    /** `clear_hotkey`. */
    method ClearHotkey()
      modifies this, recorder
      ensures recorder.Valid()
      ensures newHotkey == None && !labelVisible
      ensures recorder.State() == old(recorder.State()).(held := NONE_HELD, key := None, text := [])
      ensures accepted == old(accepted) && refusals == old(refusals)
    {
      recorder.Clear();
      newHotkey := None;
      labelVisible := false;
    }

    /** `accept`: the dialog closes only when the check passes; otherwise a
        message box is shown. */
    method Accept()
      modifies this
      ensures newHotkey == old(newHotkey)
      ensures !Validation(newHotkey).Rejected? ==> accepted && refusals == old(refusals)
      ensures Validation(newHotkey).Rejected? ==> accepted == old(accepted) && refusals == old(refusals) + 1
    {
      var valid := ValidateHotkey();
      if valid {
        accepted := true;
      } else {
        refusals := refusals + 1;
      }
    }

    /** `get_hotkey`. */
    function GetHotkey(): (r: Option<string>)
      reads this
      ensures r.Some? <==> newHotkey.Some? && newHotkey.value != []
      ensures r.Some? ==> r == newHotkey
    {
      if newHotkey.Some? && newHotkey.value != [] then newHotkey else None
    }
  }

  /** After a key press that emits, the recorder shows and reads back what
      it emitted. */
  lemma ShownAfterPress(st: RecorderState, key: int, flags: nat, text: string)
    requires |PressAsWritten(st, key, flags, text).emitted| > |st.emitted|
    requires KeyValid(st.key)
    ensures var r := PressAsWritten(st, key, flags, text);
      HotkeyOf(r.text) == r.text
  {
    var withHeld := st.(held := HeldFrom(flags));
    var before := if key in MODIFIER_KEYS then withHeld else withHeld.(key := KeyName(key, text));
    assert DisplayParts(before.held, before.key) != [];
    if key !in MODIFIER_KEYS && KeyName(key, text).Some? {
      KeyNameNotPrompt(key, text);
    }
    ShownReadsBack(before);
  }
}
