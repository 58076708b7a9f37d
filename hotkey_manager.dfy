/**
 * The hotkey manager: hotkey strings such as "Ctrl+Alt+X" are parsed into
 * the modifier bitmask and virtual key code of the Win32 `RegisterHotKey`
 * call, normalised for comparison, checked against system-reserved
 * combinations, and registered under increasing ids.
 *
 * Creating the hidden message window, `RegisterHotKey` and
 * `UnregisterHotKey` are outside the model: whether the window exists is
 * the field `started`, and what Windows answers is a parameter of each
 * operation. Emitted `registration_failed` signals are appended to `events`.
 */
module Hotkeys {
  import opened Text

  const MOD_ALT: int := 0x0001
  const MOD_CONTROL: int := 0x0002
  const MOD_SHIFT: int := 0x0004
  const MOD_WIN: int := 0x0008
  const MOD_NOREPEAT: int := 0x4000

  /** Virtual key codes by key name. */
  const VK_CODES: map<string, int> := map[
    "F1" := 0x70, "F2" := 0x71, "F3" := 0x72, "F4" := 0x73, "F5" := 0x74, "F6" := 0x75,
    "F7" := 0x76, "F8" := 0x77, "F9" := 0x78, "F10" := 0x79, "F11" := 0x7A, "F12" := 0x7B,
    "0" := 0x30, "1" := 0x31, "2" := 0x32, "3" := 0x33, "4" := 0x34,
    "5" := 0x35, "6" := 0x36, "7" := 0x37, "8" := 0x38, "9" := 0x39,
    "A" := 0x41, "B" := 0x42, "C" := 0x43, "D" := 0x44, "E" := 0x45, "F" := 0x46, "G" := 0x47,
    "H" := 0x48, "I" := 0x49, "J" := 0x4A, "K" := 0x4B, "L" := 0x4C, "M" := 0x4D, "N" := 0x4E,
    "O" := 0x4F, "P" := 0x50, "Q" := 0x51, "R" := 0x52, "S" := 0x53, "T" := 0x54, "U" := 0x55,
    "V" := 0x56, "W" := 0x57, "X" := 0x58, "Y" := 0x59, "Z" := 0x5A,
    "SPACE" := 0x20, "ENTER" := 0x0D, "TAB" := 0x09, "ESCAPE" := 0x1B, "ESC" := 0x1B,
    "BACKSPACE" := 0x08, "DELETE" := 0x2E, "INSERT" := 0x2D, "HOME" := 0x24, "END" := 0x23,
    "PAGEUP" := 0x21, "PAGEDOWN" := 0x22, "UP" := 0x26, "DOWN" := 0x28, "LEFT" := 0x25, "RIGHT" := 0x27,
    "NUMPAD0" := 0x60, "NUMPAD1" := 0x61, "NUMPAD2" := 0x62, "NUMPAD3" := 0x63, "NUMPAD4" := 0x64,
    "NUMPAD5" := 0x65, "NUMPAD6" := 0x66, "NUMPAD7" := 0x67, "NUMPAD8" := 0x68, "NUMPAD9" := 0x69,
    "MULTIPLY" := 0x6A, "ADD" := 0x6B, "SUBTRACT" := 0x6D, "DIVIDE" := 0x6F, "DECIMAL" := 0x6E,
    "PAUSE" := 0x13, "CAPSLOCK" := 0x14, "NUMLOCK" := 0x90, "SCROLLLOCK" := 0x91, "PRINTSCREEN" := 0x2C,
    "PLUS" := 0xBB, "MINUS" := 0xBD, "COMMA" := 0xBC, "PERIOD" := 0xBE,
    "SLASH" := 0xBF, "BACKSLASH" := 0xDC, "SEMICOLON" := 0xBA, "QUOTE" := 0xDE,
    "BRACKET_LEFT" := 0xDB, "BRACKET_RIGHT" := 0xDD, "GRAVE" := 0xC0]

  /** `VK_CODES.get(key, 0)`. */
  function VkLookup(key: string): int
  {
    if key in VK_CODES then VK_CODES[key] else 0
  }

  // ------------------------------------------------------------ modifiers

  datatype Modifiers = Modifiers(ctrl: bool, alt: bool, shift: bool, win: bool)

  const NO_MODIFIERS := Modifiers(false, false, false, false)

  predicate IsCtrlName(p: string) { p == "CTRL" || p == "CONTROL" }

  predicate IsWinName(p: string) { p == "WIN" || p == "WINDOWS" || p == "SUPER" }

  /** An upper-cased part that names a modifier. */
  predicate IsModifierName(p: string)
  {
    IsCtrlName(p) || p == "ALT" || p == "SHIFT" || IsWinName(p)
  }

  /** The modifiers `m` with the one named by `p` added. */
  function WithPart(m: Modifiers, p: string): Modifiers
  {
    if IsCtrlName(p) then m.(ctrl := true)
    else if p == "ALT" then m.(alt := true)
    else if p == "SHIFT" then m.(shift := true)
    else if IsWinName(p) then m.(win := true)
    else m
  }

  /** The bitwise OR of the flags of the modifiers. */
  function Mask(m: Modifiers): (r: int)
    ensures 0 <= r < MOD_NOREPEAT
  {
    (if m.alt then MOD_ALT else 0) + (if m.ctrl then MOD_CONTROL else 0)
    + (if m.shift then MOD_SHIFT else 0) + (if m.win then MOD_WIN else 0)
  }

  /** The parsed modifier word carries the bit of each modifier exactly
      when that modifier was named, and always the no-repeat bit. */
  lemma MaskBits(m: Modifiers)
    ensures var r := Mask(m) + MOD_NOREPEAT;
      && ((r / MOD_ALT) % 2 == 1 <==> m.alt)
      && ((r / MOD_CONTROL) % 2 == 1 <==> m.ctrl)
      && ((r / MOD_SHIFT) % 2 == 1 <==> m.shift)
      && ((r / MOD_WIN) % 2 == 1 <==> m.win)
      && (r / MOD_NOREPEAT) % 2 == 1
  {
  }

  // ------------------------------------------------------------ parsing

  /** Each piece stripped and upper-cased. */
  function Cleaned(pieces: seq<string>): (r: seq<string>)
    ensures |r| == |pieces|
    ensures forall i :: 0 <= i < |r| ==> r[i] == Upper(Strip(pieces[i]))
  {
    if pieces == [] then [] else [Upper(Strip(pieces[0]))] + Cleaned(pieces[1..])
  }

  /** `[p.strip().upper() for p in hotkey_string.upper().split('+')]`. */
  function Parts(s: string): (r: seq<string>)
    ensures |r| >= 1
  {
    Cleaned(Split(Upper(s), '+'))
  }

  /** The loop of `parse_hotkey_string` over the parts: the modifiers and
      the key seen so far, or None once a second key appears. */
  function ScanParts(parts: seq<string>, m: Modifiers, key: Option<string>): Option<(Modifiers, Option<string>)>
  {
    if parts == [] then Some((m, key))
    else if IsModifierName(parts[0]) then ScanParts(parts[1..], WithPart(m, parts[0]), key)
    else if key.None? then ScanParts(parts[1..], m, Some(parts[0]))
    else None
  }

  /** A parse result; (0, 0) means the string is invalid. */
  datatype KeyCombo = KeyCombo(modifiers: int, vk: int)

  /** The end of `parse_hotkey_string`: the key's code from the table, or
      the code point of a single character outside it. */
  function Resolve(m: Modifiers, key: Option<string>): KeyCombo
  {
    if key.None? then KeyCombo(0, 0)
    else if VkLookup(key.value) != 0 then KeyCombo(Mask(m) + MOD_NOREPEAT, VkLookup(key.value))
    else if |key.value| == 1 then KeyCombo(Mask(m) + MOD_NOREPEAT, key.value[0] as int)
    else KeyCombo(0, 0)
  }

  /** `parse_hotkey_string`. */
  function ParseHotkey(s: string): KeyCombo
  {
    var scan := ScanParts(Parts(s), NO_MODIFIERS, None);
    if scan.None? then KeyCombo(0, 0) else Resolve(scan.value.0, scan.value.1)
  }

  /** The parts that do not name a modifier, in order. */
  function NonModifiers(parts: seq<string>): (r: seq<string>)
    ensures forall i :: 0 <= i < |r| ==> !IsModifierName(r[i])
  {
    if parts == [] then []
    else (if IsModifierName(parts[0]) then [] else [parts[0]]) + NonModifiers(parts[1..])
  }

  /** The modifiers named anywhere among the parts. */
  function NamedIn(parts: seq<string>): Modifiers
  {
    Modifiers(
      exists i :: 0 <= i < |parts| && IsCtrlName(parts[i]),
      exists i :: 0 <= i < |parts| && parts[i] == "ALT",
      exists i :: 0 <= i < |parts| && parts[i] == "SHIFT",
      exists i :: 0 <= i < |parts| && IsWinName(parts[i]))
  }

  function Union(a: Modifiers, b: Modifiers): Modifiers
  {
    Modifiers(a.ctrl || b.ctrl, a.alt || b.alt, a.shift || b.shift, a.win || b.win)
  }

  lemma NamedInCons(parts: seq<string>)
    requires parts != []
    ensures NamedIn(parts) == Union(WithPart(NO_MODIFIERS, parts[0]), NamedIn(parts[1..]))
  {
    var rest := parts[1..];
    assert forall i :: 0 < i < |parts| ==> parts[i] == rest[i - 1];
    assert forall i :: 0 <= i < |rest| ==> rest[i] == parts[i + 1];
  }

  /** The scan fails exactly when two parts name no modifier; otherwise it
      collects every named modifier and the one key. */
  lemma {:induction false} ScanSpec(parts: seq<string>, m: Modifiers, key: Option<string>)
    ensures var keys := (if key.Some? then [key.value] else []) + NonModifiers(parts);
      ScanParts(parts, m, key)
      == if |keys| >= 2 then None
         else Some((Union(m, NamedIn(parts)), if keys == [] then None else Some(keys[0])))
  {
    if parts == [] {
      assert NamedIn(parts) == NO_MODIFIERS;
      assert Union(m, NO_MODIFIERS) == m;
    } else {
      NamedInCons(parts);
      if IsModifierName(parts[0]) {
        ScanSpec(parts[1..], WithPart(m, parts[0]), key);
      } else if key.None? {
        ScanSpec(parts[1..], m, Some(parts[0]));
      }
    }
  }

  /** A string with no key, or with two keys, does not parse. */
  lemma ParseNeedsOneKey(s: string)
    requires |NonModifiers(Parts(s))| != 1
    ensures ParseHotkey(s) == KeyCombo(0, 0)
  {
    ScanSpec(Parts(s), NO_MODIFIERS, None);
  }

  /** An unknown key name longer than one character does not parse. */
  lemma ParseUnknownKey(s: string, key: string)
    requires NonModifiers(Parts(s)) == [key]
    requires VkLookup(key) == 0 && |key| != 1
    ensures ParseHotkey(s) == KeyCombo(0, 0)
  {
    ScanSpec(Parts(s), NO_MODIFIERS, None);
  }

  /** A string with exactly one key parses into the modifiers it names, the
      no-repeat bit, and the key's code: from the table, or its code point
      when it is a single character outside the table. */
  lemma ParseAccepts(s: string, key: string)
    requires NonModifiers(Parts(s)) == [key]
    requires VkLookup(key) != 0 || |key| == 1
    ensures var r := ParseHotkey(s);
      && r.modifiers == Mask(NamedIn(Parts(s))) + MOD_NOREPEAT
      && r.vk == (if VkLookup(key) != 0 then VkLookup(key) else key[0] as int)
  {
    ScanSpec(Parts(s), NO_MODIFIERS, None);
    assert Union(NO_MODIFIERS, NamedIn(Parts(s))) == NamedIn(Parts(s));
  }

  /** The loop of `parse_hotkey_string` over the parts. */
  method ScanHotkeyParts(parts: seq<string>) returns (scan: Option<(Modifiers, Option<string>)>)
    ensures scan == ScanParts(parts, NO_MODIFIERS, None)
  {
    var m := NO_MODIFIERS;
    var key: Option<string> := None;
    var i := 0;
    while i < |parts|
      invariant 0 <= i <= |parts|
      invariant ScanParts(parts[i..], m, key) == ScanParts(parts, NO_MODIFIERS, None)
    {
      assert parts[i..][1..] == parts[i + 1..];
      var part := parts[i];
      if IsModifierName(part) {
        m := WithPart(m, part);
      } else if key.None? {
        key := Some(part);
      } else {
        return None;
      }
      i := i + 1;
    }
    assert parts[i..] == [];
    scan := Some((m, key));
  }

  /** `parse_hotkey_string`, step by step. */
  method ParseHotkeyString(s: string) returns (r: KeyCombo)
    ensures r == ParseHotkey(s)
  {
    var scan := ScanHotkeyParts(Parts(s));
    if scan.None? {
      return KeyCombo(0, 0);
    }
    r := Resolve(scan.value.0, scan.value.1);
  }

  // ------------------------------------------------------------ normalising

  /** The modifiers whose words occur in an upper-cased string, found by
      the substring tests of `normalize_hotkey_string`. */
  function Flags(u: string): Modifiers
  {
    Modifiers(
      Contains(u, "CTRL") || Contains(u, "CONTROL"),
      Contains(u, "ALT"),
      Contains(u, "SHIFT"),
      Contains(u, "WIN") || Contains(u, "WINDOWS") || Contains(u, "SUPER"))
  }

  /** The display names of the modifiers, in the order Ctrl, Alt, Shift, Win. */
  function CanonicalNames(m: Modifiers): (r: seq<string>)
    ensures |r| <= 4
  {
    (if m.ctrl then ["Ctrl"] else []) + (if m.alt then ["Alt"] else [])
    + (if m.shift then ["Shift"] else []) + (if m.win then ["Win"] else [])
  }

  /** The first part that names no modifier. */
  function MainKey(parts: seq<string>): Option<string>
  {
    if parts == [] then None
    else if !IsModifierName(parts[0]) then Some(parts[0])
    else MainKey(parts[1..])
  }

  /** The main key of a hotkey string, as a list of zero or one part. */
  function KeyList(s: string): seq<string>
  {
    var k := MainKey(Cleaned(Split(s, '+')));
    if k.Some? then [k.value] else []
  }

  /** The parts `normalize_hotkey_string` joins. */
  function NormalParts(s: string): seq<string>
  {
    CanonicalNames(Flags(Upper(s))) + KeyList(s)
  }

  /** `normalize_hotkey_string`. */
  function Normalize(s: string): string
  {
    Join(NormalParts(s), "+")
  }

  /** The main key is the first part that names no modifier; there is none
      only when every part names a modifier. */
  lemma {:induction false} MainKeySpec(parts: seq<string>) returns (i: nat)
    ensures MainKey(parts).Some? ==>
      && i < |parts|
      && MainKey(parts).value == parts[i]
      && !IsModifierName(parts[i])
      && forall j :: 0 <= j < i ==> IsModifierName(parts[j])
    ensures MainKey(parts).None? <==> forall j :: 0 <= j < |parts| ==> IsModifierName(parts[j])
  {
    if parts != [] && IsModifierName(parts[0]) {
      var rest := parts[1..];
      var i' := MainKeySpec(rest);
      i := i' + 1;
      assert forall j :: 0 < j < |parts| ==> parts[j] == rest[j - 1];
    } else {
      i := 0;
    }
  }

  /** The key-finding loop of `normalize_hotkey_string`. */
  method FindMainKey(pieces: seq<string>) returns (key: Option<string>)
    ensures key == MainKey(Cleaned(pieces))
  {
    ghost var cleaned := Cleaned(pieces);
    var i := 0;
    while i < |pieces|
      invariant 0 <= i <= |pieces|
      invariant MainKey(cleaned[i..]) == MainKey(cleaned)
    {
      assert cleaned[i..][1..] == cleaned[i + 1..];
      var part := Strip(pieces[i]);
      var partUpper := Upper(part);
      assert partUpper == cleaned[i];
      if !IsModifierName(partUpper) {
        return Some(partUpper);
      }
      i := i + 1;
    }
    assert cleaned[i..] == [];
    return None;
  }

  /** The modifier tests of `normalize_hotkey_string` on the upper-cased string. */
  method ModifierNames(upper: string) returns (parts: seq<string>)
    ensures parts == CanonicalNames(Flags(upper))
  {
    parts := [];
    if Contains(upper, "CTRL") || Contains(upper, "CONTROL") {
      parts := parts + ["Ctrl"];
    }
    if Contains(upper, "ALT") {
      parts := parts + ["Alt"];
    }
    if Contains(upper, "SHIFT") {
      parts := parts + ["Shift"];
    }
    if Contains(upper, "WIN") || Contains(upper, "WINDOWS") || Contains(upper, "SUPER") {
      parts := parts + ["Win"];
    }
  }

  /** `normalize_hotkey_string`, step by step. */
  method NormalizeHotkeyString(s: string) returns (r: string)
    ensures r == Normalize(s)
  {
    var parts := ModifierNames(Upper(s));
    var key := FindMainKey(Split(s, '+'));
    if key.Some? {
      parts := parts + [key.value];
    }
    assert parts == NormalParts(s);
    r := Join(parts, "+");
  }

  // The names emitted by normalising are the modifier words upper-cased.

  /** The canonical names upper-cased. */
  function UpperNames(m: Modifiers): seq<string>
  {
    (if m.ctrl then ["CTRL"] else []) + (if m.alt then ["ALT"] else [])
    + (if m.shift then ["SHIFT"] else []) + (if m.win then ["WIN"] else [])
  }

  lemma CtrlName() ensures Strip("Ctrl") == "Ctrl" && Upper("Ctrl") == "CTRL" { StripUnchanged("Ctrl"); }

  lemma AltName() ensures Strip("Alt") == "Alt" && Upper("Alt") == "ALT" { StripUnchanged("Alt"); }

  lemma ShiftName() ensures Strip("Shift") == "Shift" && Upper("Shift") == "SHIFT" { StripUnchanged("Shift"); }

  lemma WinName() ensures Strip("Win") == "Win" && Upper("Win") == "WIN" { StripUnchanged("Win"); }

  lemma CleanedAppend(a: seq<string>, b: seq<string>)
    ensures Cleaned(a + b) == Cleaned(a) + Cleaned(b)
  {
  }

  lemma UpperAllAppend(a: seq<string>, b: seq<string>)
    ensures UpperAll(a + b) == UpperAll(a) + UpperAll(b)
  {
  }

  /** A name that stripping leaves alone, present or not. */
  lemma CleanOptional(present: bool, x: string, y: string)
    requires Strip(x) == x && Upper(x) == y
    ensures Cleaned(if present then [x] else []) == (if present then [y] else [])
    ensures UpperAll(if present then [x] else []) == (if present then [y] else [])
  {
    if present {
      assert Cleaned([x])[0] == y;
      assert UpperAll([x]) == [Upper(x)];
    } else {
      assert Cleaned([]) == [];
    }
  }

  lemma CleanCtrl(b: bool)
    ensures Cleaned(if b then ["Ctrl"] else []) == (if b then ["CTRL"] else [])
    ensures UpperAll(if b then ["Ctrl"] else []) == (if b then ["CTRL"] else [])
  {
    CtrlName();
    CleanOptional(b, "Ctrl", "CTRL");
  }

  lemma CleanAlt(b: bool)
    ensures Cleaned(if b then ["Alt"] else []) == (if b then ["ALT"] else [])
    ensures UpperAll(if b then ["Alt"] else []) == (if b then ["ALT"] else [])
  {
    AltName();
    CleanOptional(b, "Alt", "ALT");
  }

  lemma CleanShift(b: bool)
    ensures Cleaned(if b then ["Shift"] else []) == (if b then ["SHIFT"] else [])
    ensures UpperAll(if b then ["Shift"] else []) == (if b then ["SHIFT"] else [])
  {
    ShiftName();
    CleanOptional(b, "Shift", "SHIFT");
  }

  lemma CleanWin(b: bool)
    ensures Cleaned(if b then ["Win"] else []) == (if b then ["WIN"] else [])
    ensures UpperAll(if b then ["Win"] else []) == (if b then ["WIN"] else [])
  {
    WinName();
    CleanOptional(b, "Win", "WIN");
  }

  lemma CleanedOfFour(p1: seq<string>, p2: seq<string>, p3: seq<string>, p4: seq<string>)
    ensures Cleaned(p1 + p2 + p3 + p4) == Cleaned(p1) + Cleaned(p2) + Cleaned(p3) + Cleaned(p4)
    ensures UpperAll(p1 + p2 + p3 + p4) == UpperAll(p1) + UpperAll(p2) + UpperAll(p3) + UpperAll(p4)
  {
    CleanedAppend(p1, p2);
    CleanedAppend(p1 + p2, p3);
    CleanedAppend(p1 + p2 + p3, p4);
    UpperAllAppend(p1, p2);
    UpperAllAppend(p1 + p2, p3);
    UpperAllAppend(p1 + p2 + p3, p4);
  }

  /** Cleaning the canonical names gives the modifier words. */
  lemma CleanNames(m: Modifiers)
    ensures Cleaned(CanonicalNames(m)) == UpperNames(m)
  {
    var c := if m.ctrl then ["Ctrl"] else [];
    var a := if m.alt then ["Alt"] else [];
    var sh := if m.shift then ["Shift"] else [];
    var w := if m.win then ["Win"] else [];
    assert CanonicalNames(m) == c + a + sh + w;
    CleanCtrl(m.ctrl);
    CleanAlt(m.alt);
    CleanShift(m.shift);
    CleanWin(m.win);
    CleanedOfFour(c, a, sh, w);
  }

  /** Upper-casing the canonical names gives the modifier words. */
  lemma UpperNamesOf(m: Modifiers)
    ensures UpperAll(CanonicalNames(m)) == UpperNames(m)
  {
    var c := if m.ctrl then ["Ctrl"] else [];
    var a := if m.alt then ["Alt"] else [];
    var sh := if m.shift then ["Shift"] else [];
    var w := if m.win then ["Win"] else [];
    assert CanonicalNames(m) == c + a + sh + w;
    CleanCtrl(m.ctrl);
    CleanAlt(m.alt);
    CleanShift(m.shift);
    CleanWin(m.win);
    CleanedOfFour(c, a, sh, w);
  }

  /** The modifier words name modifiers. */
  lemma UpperNamesAreModifiers(m: Modifiers)
    ensures forall k :: 0 <= k < |UpperNames(m)| ==> IsModifierName(UpperNames(m)[k])
  {
    var names := UpperNames(m);
    forall k | 0 <= k < |names| ensures IsModifierName(names[k]) {
      assert names[k] in {"CTRL", "ALT", "SHIFT", "WIN"};
    }
  }

  /** The canonical names hold no '+'. */
  lemma NamesNoPlus(m: Modifiers)
    ensures forall k :: 0 <= k < |CanonicalNames(m)| ==> '+' !in CanonicalNames(m)[k]
  {
    var names := CanonicalNames(m);
    forall k | 0 <= k < |names| ensures '+' !in names[k] {
      assert names[k] in {"Ctrl", "Alt", "Shift", "Win"};
    }
  }

  lemma {:induction false} MainKeySkips(names: seq<string>, rest: seq<string>)
    requires forall k :: 0 <= k < |names| ==> IsModifierName(names[k])
    ensures MainKey(names + rest) == MainKey(rest)
  {
    if names == [] {
      assert names + rest == rest;
    } else {
      assert (names + rest)[0] == names[0];
      assert (names + rest)[1..] == names[1..] + rest;
      MainKeySkips(names[1..], rest);
    }
  }

  /** A stripped, upper-cased piece is unchanged by stripping and
      upper-casing it again. */
  lemma CleanPieceStable(p: string)
    ensures Upper(Strip(Upper(Strip(p)))) == Upper(Strip(p))
  {
    var t := Strip(p);
    var k := Upper(t);
    assert k == [] || (!IsSpace(k[0]) && !IsSpace(k[|k| - 1]));
    StripUnchanged(k);
    UpperIdempotent(t);
  }

  /** Stripping and upper-casing a piece adds no '+'. */
  lemma CleanPieceNoPlus(p: string)
    requires '+' !in p
    ensures '+' !in Upper(Strip(p))
  {
    var t := Strip(p);
    StripInfix(p);
    ContainsChars(p, t);
    forall k | 0 <= k < |t| ensures Upper(t)[k] != '+' {
      assert t[k] in p;
    }
  }

  lemma NoPlusAppend(a: seq<string>, b: seq<string>)
    requires forall k :: 0 <= k < |a| ==> '+' !in a[k]
    requires forall k :: 0 <= k < |b| ==> '+' !in b[k]
    ensures forall k :: 0 <= k < |a + b| ==> '+' !in (a + b)[k]
  {
  }

  /** The main key holds no '+'. */
  lemma KeyListNoPlus(s: string)
    ensures forall k :: 0 <= k < |KeyList(s)| ==> '+' !in KeyList(s)[k]
  {
    var pieces := Split(s, '+');
    var i := MainKeySpec(Cleaned(pieces));
    if KeyList(s) != [] {
      CleanPieceNoPlus(pieces[i]);
      assert KeyList(s) == [Upper(Strip(pieces[i]))];
    }
  }

  /** A normalised string's parts hold no '+', so splitting it gives them back. */
  lemma NormalPartsSplit(s: string)
    ensures forall k :: 0 <= k < |NormalParts(s)| ==> '+' !in NormalParts(s)[k]
    ensures NormalParts(s) != [] ==> Split(Normalize(s), '+') == NormalParts(s)
  {
    var names := CanonicalNames(Flags(Upper(s)));
    var keys := KeyList(s);
    NamesNoPlus(Flags(Upper(s)));
    KeyListNoPlus(s);
    var ps := names + keys;
    assert NormalParts(s) == ps;
    NoPlusAppend(names, keys);
    if ps != [] {
      SplitJoin(ps, '+');
    }
  }

  /** The modifiers named in any of the strings. */
  function FlagsAll(parts: seq<string>): Modifiers
  {
    if parts == [] then NO_MODIFIERS else Union(Flags(parts[0]), FlagsAll(parts[1..]))
  }

  lemma {:induction false} FlagsAllAppend(a: seq<string>, b: seq<string>)
    ensures FlagsAll(a + b) == Union(FlagsAll(a), FlagsAll(b))
  {
    if a == [] {
      assert a + b == b;
      assert Union(NO_MODIFIERS, FlagsAll(b)) == FlagsAll(b);
    } else {
      assert (a + b)[0] == a[0];
      assert (a + b)[1..] == a[1..] + b;
      FlagsAllAppend(a[1..], b);
    }
  }

  /** A word without '+' occurs around a '+' exactly when it occurs on one side. */
  lemma ContainsAround(a: string, b: string, w: string)
    requires '+' !in w
    ensures Contains(a + "+" + b, w) <==> Contains(a, w) || Contains(b, w)
  {
    var parts := [a, b];
    assert Join(parts, "+") == a + "+" + b;
    if Contains(a + "+" + b, w) {
      var k := ContainsJoin(parts, '+', w);
    }
    if Contains(a, w) {
      JoinContainsPiece(parts, '+', 0);
      ContainsTrans(a + "+" + b, a, w);
    }
    if Contains(b, w) {
      JoinContainsPiece(parts, '+', 1);
      ContainsTrans(a + "+" + b, b, w);
    }
  }

  /** The words found in a join are those found in its pieces. */
  lemma {:induction false} FlagsJoin(parts: seq<string>)
    requires |parts| >= 1
    ensures Flags(Join(parts, "+")) == FlagsAll(parts)
  {
    if |parts| == 1 {
      assert FlagsAll(parts[1..]) == NO_MODIFIERS;
    } else {
      var rest := Join(parts[1..], "+");
      FlagsJoin(parts[1..]);
      ContainsAround(parts[0], rest, "CTRL");
      ContainsAround(parts[0], rest, "CONTROL");
      ContainsAround(parts[0], rest, "ALT");
      ContainsAround(parts[0], rest, "SHIFT");
      ContainsAround(parts[0], rest, "WIN");
      ContainsAround(parts[0], rest, "WINDOWS");
      ContainsAround(parts[0], rest, "SUPER");
    }
  }

  // Each modifier word carries its own flag and no other.

  lemma FlagsOfCtrl()
    ensures Flags("CTRL") == Modifiers(true, false, false, false)
  {
    ContainsAt("CTRL", "CTRL", 0);
    ContainsChars("CTRL", "CONTROL");
    ContainsChars("CTRL", "ALT");
    assert "ALT"[0] == 'A';
    ContainsChars("CTRL", "SHIFT");
    ContainsChars("CTRL", "WIN");
    assert "WIN"[0] == 'W';
    ContainsChars("CTRL", "WINDOWS");
    ContainsChars("CTRL", "SUPER");
  }

  lemma FlagsOfAlt()
    ensures Flags("ALT") == Modifiers(false, true, false, false)
  {
    ContainsAt("ALT", "ALT", 0);
    ContainsChars("ALT", "CTRL");
    ContainsChars("ALT", "CONTROL");
    ContainsChars("ALT", "SHIFT");
    ContainsChars("ALT", "WIN");
    assert "WIN"[0] == 'W';
    ContainsChars("ALT", "WINDOWS");
    ContainsChars("ALT", "SUPER");
  }

  lemma FlagsOfShift()
    ensures Flags("SHIFT") == Modifiers(false, false, true, false)
  {
    ContainsAt("SHIFT", "SHIFT", 0);
    ContainsChars("SHIFT", "CTRL");
    assert "CTRL"[0] == 'C';
    ContainsChars("SHIFT", "CONTROL");
    ContainsChars("SHIFT", "ALT");
    assert "ALT"[0] == 'A';
    ContainsChars("SHIFT", "WIN");
    assert "WIN"[0] == 'W';
    ContainsChars("SHIFT", "WINDOWS");
    ContainsChars("SHIFT", "SUPER");
    assert "SUPER"[1] == 'U';
  }

  lemma FlagsOfWin()
    ensures Flags("WIN") == Modifiers(false, false, false, true)
  {
    ContainsAt("WIN", "WIN", 0);
    ContainsChars("WIN", "CTRL");
    ContainsChars("WIN", "CONTROL");
    ContainsChars("WIN", "ALT");
    assert "ALT"[0] == 'A';
    ContainsChars("WIN", "SHIFT");
    ContainsChars("WIN", "WINDOWS");
    ContainsChars("WIN", "SUPER");
  }

  lemma {:induction false} FlagsAllOfNames(m: Modifiers)
    ensures FlagsAll(UpperNames(m)) == m
  {
    FlagsOfCtrl();
    FlagsOfAlt();
    FlagsOfShift();
    FlagsOfWin();
    var c := if m.ctrl then ["CTRL"] else [];
    var a := if m.alt then ["ALT"] else [];
    var sh := if m.shift then ["SHIFT"] else [];
    var w := if m.win then ["WIN"] else [];
    FlagsAllAppend(c + a + sh, w);
    FlagsAllAppend(c + a, sh);
    FlagsAllAppend(c, a);
  }

  /** A piece of a string names no modifier word the string does not. */
  lemma FlagsOfPiece(u: string, k: string)
    requires Contains(u, k)
    ensures var f, g := Flags(u), Flags(k);
      (g.ctrl ==> f.ctrl) && (g.alt ==> f.alt) && (g.shift ==> f.shift) && (g.win ==> f.win)
  {
    forall w | Contains(k, w) ensures Contains(u, w) {
      ContainsTrans(u, k, w);
    }
  }

  /** Normalising again finds the same main key. */
  lemma NormalKeyStable(s: string)
    requires NormalParts(s) != []
    ensures KeyList(Normalize(s)) == KeyList(s)
  {
    var m := Flags(Upper(s));
    var keys := KeyList(s);
    NormalPartsSplit(s);
    CleanNames(m);
    CleanedAppend(CanonicalNames(m), keys);
    UpperNamesAreModifiers(m);
    MainKeySkips(UpperNames(m), Cleaned(keys));
    KeyListClean(s);
  }

  /** The main key is clean, names no modifier, and is its own main key. */
  lemma KeyListClean(s: string)
    ensures Cleaned(KeyList(s)) == KeyList(s)
    ensures MainKey(KeyList(s)) == (if KeyList(s) == [] then None else Some(KeyList(s)[0]))
  {
    MainKeyOfCleaned(Split(s, '+'));
  }

  lemma MainKeyOfCleaned(pieces: seq<string>)
    ensures var k := MainKey(Cleaned(pieces));
      k.Some? ==> Cleaned([k.value]) == [k.value] && MainKey([k.value]) == k
  {
    var i := MainKeySpec(Cleaned(pieces));
    if MainKey(Cleaned(pieces)).Some? {
      var k := Upper(Strip(pieces[i]));
      CleanPieceStable(pieces[i]);
      CleanSingle(k);
    }
  }

  lemma CleanSingle(k: string)
    requires Upper(Strip(k)) == k && !IsModifierName(k)
    ensures Cleaned([k]) == [k] && MainKey([k]) == Some(k)
  {
    assert Cleaned([k])[0] == k;
  }

  /** The main key names no modifier word the string does not. */
  lemma KeyFlags(s: string)
    ensures FlagsAll(UpperAll(KeyList(s))) == NO_MODIFIERS
      || Union(Flags(Upper(s)), FlagsAll(UpperAll(KeyList(s)))) == Flags(Upper(s))
  {
    var keys := KeyList(s);
    if keys != [] {
      var pieces := Split(s, '+');
      var i := MainKeySpec(Cleaned(pieces));
      var k := keys[0];
      assert k == Upper(Strip(pieces[i]));
      UpperIdempotent(Strip(pieces[i]));
      assert UpperAll(keys) == [k];
      SplitInfix(s, '+', i);
      StripInfix(pieces[i]);
      ContainsTrans(s, pieces[i], Strip(pieces[i]));
      ContainsUpper(s, Strip(pieces[i]));
      FlagsOfPiece(Upper(s), k);
      assert FlagsAll([k]) == Union(Flags(k), NO_MODIFIERS);
    }
  }

  /** Normalising again finds the same modifiers. */
  lemma NormalFlagsStable(s: string)
    requires NormalParts(s) != []
    ensures Flags(Upper(Normalize(s))) == Flags(Upper(s))
  {
    var m := Flags(Upper(s));
    var ps := NormalParts(s);
    var keys := KeyList(s);
    UpperNamesOf(m);
    UpperJoin(ps, '+');
    UpperAllAppend(CanonicalNames(m), keys);
    FlagsJoin(UpperAll(ps));
    FlagsAllAppend(UpperNames(m), UpperAll(keys));
    FlagsAllOfNames(m);
    KeyFlags(s);
  }

  /** Normalising a normalised string changes nothing. */
  lemma NormalizeIdempotent(s: string)
    ensures Normalize(Normalize(s)) == Normalize(s)
  {
    if NormalParts(s) == [] {
      EmptyNormal();
    } else {
      NormalKeyStable(s);
      NormalFlagsStable(s);
      assert NormalParts(Normalize(s)) == NormalParts(s);
    }
  }

  /** The empty string normalises to itself. */
  lemma EmptyNormal()
    ensures Normalize("") == ""
  {
    assert Split("", '+') == [""];
    assert Cleaned([""]) == [""];
    assert Flags(Upper("")) == NO_MODIFIERS;
    assert NormalParts("") == [""];
  }

  // ------------------------------------------------------------ reserved combinations

  /** A part with the Ctrl and Win aliases replaced by one spelling. */
  function CanonicalPart(p: string): string
  {
    if IsCtrlName(p) then "CTRL" else if IsWinName(p) then "WIN" else p
  }

  /** The set of canonical parts of a hotkey string. */
  function PartSet(s: string): set<string>
  {
    set p | p in Parts(s) :: CanonicalPart(p)
  }

  /** The combinations Windows keeps for itself, as sets of parts. */
  const RESERVED_HOTKEYS: seq<set<string>> := [
    {"CTRL", "C"}, {"CTRL", "V"}, {"CTRL", "X"}, {"CTRL", "A"},
    {"CTRL", "Z"}, {"CTRL", "Y"}, {"CTRL", "S"}, {"CTRL", "O"},
    {"CTRL", "N"}, {"CTRL", "P"}, {"CTRL", "F"}, {"CTRL", "H"},
    {"ALT", "TAB"}, {"ALT", "F4"}, {"ALT", "ESCAPE"},
    {"CTRL", "ALT", "DELETE"}, {"CTRL", "SHIFT", "ESCAPE"},
    {"WIN", "L"}, {"WIN", "D"}, {"WIN", "E"}, {"WIN", "R"},
    {"WIN", "TAB"}, {"WIN", "X"}]

  /** `is_reserved_hotkey`. */
  predicate IsReserved(s: string)
  {
    PartSet(s) in RESERVED_HOTKEYS
  }

  /** The part-collecting loop of `is_reserved_hotkey`. */
  method CanonicalParts(parts: seq<string>) returns (normalized: set<string>)
    ensures normalized == set p | p in parts :: CanonicalPart(p)
  {
    normalized := {};
    var i := 0;
    while i < |parts|
      invariant 0 <= i <= |parts|
      invariant normalized == set p | p in parts[..i] :: CanonicalPart(p)
    {
      var part := parts[i];
      if IsCtrlName(part) {
        normalized := normalized + {"CTRL"};
      } else if IsWinName(part) {
        normalized := normalized + {"WIN"};
      } else {
        normalized := normalized + {part};
      }
      assert normalized == (set p | p in parts[..i] :: CanonicalPart(p)) + {CanonicalPart(part)};
      assert parts[..i + 1] == parts[..i] + [part];
      assert (set p | p in parts[..i + 1] :: CanonicalPart(p))
          == (set p | p in parts[..i] :: CanonicalPart(p)) + {CanonicalPart(part)};
      i := i + 1;
    }
    assert parts[..i] == parts;
  }

  /** `is_reserved_hotkey`, step by step. */
  method IsReservedHotkey(s: string) returns (reserved: bool)
    ensures reserved == IsReserved(s)
  {
    var normalized := CanonicalParts(Parts(s));
    var i := 0;
    while i < |RESERVED_HOTKEYS|
      invariant 0 <= i <= |RESERVED_HOTKEYS|
      invariant normalized !in RESERVED_HOTKEYS[..i]
    {
      if RESERVED_HOTKEYS[i] == normalized {
        return true;
      }
      assert RESERVED_HOTKEYS[..i + 1] == RESERVED_HOTKEYS[..i] + [RESERVED_HOTKEYS[i]];
      i := i + 1;
    }
    assert RESERVED_HOTKEYS[..i] == RESERVED_HOTKEYS;
    return false;
  }

  /** The parts of a joined hotkey are its pieces cleaned after upper-casing. */
  lemma PartsOfJoin(pieces: seq<string>)
    requires |pieces| >= 1
    requires forall k :: 0 <= k < |pieces| ==> '+' !in pieces[k]
    ensures Parts(Join(pieces, "+")) == Cleaned(UpperAll(pieces))
  {
    UpperJoin(pieces, '+');
    forall k | 0 <= k < |pieces| ensures '+' !in UpperAll(pieces)[k] {
      forall j | 0 <= j < |pieces[k]| ensures Upper(pieces[k])[j] != '+' {
        assert pieces[k][j] != '+';
      }
    }
    SplitJoin(UpperAll(pieces), '+');
  }

  /** The reserved check reads a joined hotkey only through the set of its
      canonical parts: the order of the pieces, repeated pieces, case,
      surrounding blanks and the Control/Windows/Super aliases do not matter. */
  lemma ReservedByCanonicalParts(ps: seq<string>, qs: seq<string>)
    requires |ps| >= 1 && |qs| >= 1
    requires forall k :: 0 <= k < |ps| ==> '+' !in ps[k]
    requires forall k :: 0 <= k < |qs| ==> '+' !in qs[k]
    requires (set p | p in ps :: CanonicalPart(Upper(Strip(Upper(p)))))
          == (set q | q in qs :: CanonicalPart(Upper(Strip(Upper(q)))))
    ensures IsReserved(Join(ps, "+")) == IsReserved(Join(qs, "+"))
  {
    PartsOfJoin(ps);
    PartsOfJoin(qs);
    CanonicalSetOf(ps);
    CanonicalSetOf(qs);
  }

  lemma CanonicalSetOf(ps: seq<string>)
    ensures (set p | p in Cleaned(UpperAll(ps)) :: CanonicalPart(p))
         == (set p | p in ps :: CanonicalPart(Upper(Strip(Upper(p)))))
  {
    var c := Cleaned(UpperAll(ps));
    forall x | x in c ensures exists p :: p in ps && x == Upper(Strip(Upper(p))) {
      var k :| 0 <= k < |c| && c[k] == x;
      assert x == Upper(Strip(Upper(ps[k])));
    }
    forall p | p in ps ensures Upper(Strip(Upper(p))) in c {
      var k :| 0 <= k < |ps| && ps[k] == p;
      assert c[k] == Upper(Strip(Upper(p)));
    }
  }

  // ------------------------------------------------------------ the manager

  /** What `RegisterHotKey` answers: success, a zero result with the code
      from `GetLastError`, or an exception. */
  datatype RegisterOutcome = Registered | RegisterRefused(code: int) | RegisterRaised(reason: string)

  /** Signals of the manager. */
  datatype ManagerEvent =
    | HotkeyTriggered(script: string, hotkey: string)
    | RegistrationFailed(script: string, hotkey: string, message: string)

  const ERROR_HOTKEY_ALREADY_REGISTERED: int := 1409

  function RefusalMessage(normalized: string, code: int): string
  {
    if code == ERROR_HOTKEY_ALREADY_REGISTERED then
      "Hotkey " + normalized + " is already registered by another application"
    else
      "Failed to register hotkey " + normalized + ": Windows error " + IntToString(code)
  }

  /** A parse result that signals an invalid string. */
  predicate Unparsed(c: KeyCombo) { c.modifiers == 0 && c.vk == 0 }

  /** Ids are below the next id, the registered combinations are exactly
      the stored hotkeys, and no two ids share one. */
  ghost predicate TablesValid(hotkeys: map<int, (string, string)>, combos: set<string>, nextId: int)
  {
    && nextId >= 1
    && (forall id :: id in hotkeys ==> 1 <= id < nextId)
    && (forall c :: c in combos <==> exists id :: id in hotkeys && hotkeys[id].1 == c)
    && (forall a, b :: a in hotkeys && b in hotkeys && hotkeys[a].1 == hotkeys[b].1 ==> a == b)
  }

  /** Storing an unregistered combination under the next id keeps the tables valid. */
  lemma TablesAdd(hotkeys: map<int, (string, string)>, combos: set<string>, nextId: int, name: string, n: string)
    requires TablesValid(hotkeys, combos, nextId)
    requires n !in combos
    ensures TablesValid(hotkeys[nextId := (name, n)], combos + {n}, nextId + 1)
  {
    var h := hotkeys[nextId := (name, n)];
    forall c | c in combos + {n} ensures exists id :: id in h && h[id].1 == c {
      if c == n {
        assert h[nextId].1 == c;
      } else {
        var id :| id in hotkeys && hotkeys[id].1 == c;
        assert h[id].1 == c;
      }
    }
  }

  /** Releasing an id and its combination keeps the tables valid. */
  lemma TablesRemove(hotkeys: map<int, (string, string)>, combos: set<string>, nextId: int, id: int)
    requires TablesValid(hotkeys, combos, nextId)
    requires id in hotkeys
    ensures TablesValid(hotkeys - {id}, combos - {hotkeys[id].1}, nextId)
  {
    var h := hotkeys - {id};
    forall c | c in combos - {hotkeys[id].1} ensures exists j :: j in h && h[j].1 == c {
      var j :| j in hotkeys && hotkeys[j].1 == c;
      assert j != id && h[j].1 == c;
    }
  }

  class HotkeyManager {
    /** Whether the hidden message window exists (`self.widget`). */
    var started: bool
    /** id -> (script name, normalised hotkey). */
    var hotkeys: map<int, (string, string)>
    var registeredCombos: set<string>
    var nextId: int
    var events: seq<ManagerEvent>

    ghost predicate Valid()
      reads this
    {
      TablesValid(hotkeys, registeredCombos, nextId)
    }

    constructor()
      ensures Valid()
      ensures !started && hotkeys == map[] && registeredCombos == {} && nextId == 1 && events == []
    {
      started := false;
      hotkeys := map[];
      registeredCombos := {};
      nextId := 1;
      events := [];
    }

    /** `start`: true when the window exists or could be created. */
    method Start(windowCreated: bool) returns (ok: bool)
      requires Valid()
      modifies this
      ensures Valid()
      ensures ok <==> old(started) || windowCreated
      ensures started == ok
      ensures hotkeys == old(hotkeys) && registeredCombos == old(registeredCombos)
      ensures nextId == old(nextId) && events == old(events)
    {
      if started {
        return true;
      }
      if !windowCreated {
        return false;
      }
      started := true;
      ok := true;
    }

    /** `stop`: every hotkey is unregistered and the window destroyed. */
    method Stop()
      requires Valid()
      modifies this
      ensures Valid()
      ensures !started
      ensures old(started) ==> hotkeys == map[] && registeredCombos == {}
      ensures !old(started) ==> hotkeys == old(hotkeys) && registeredCombos == old(registeredCombos)
      ensures nextId == old(nextId) && events == old(events)
    {
      UnregisterAll();
      started := false;
    }

    /** `is_hotkey_available`. */
    predicate IsHotkeyAvailable(s: string)
      reads this
    {
      Normalize(s) !in registeredCombos && !IsReserved(s)
    }

    /** A registered combination is no longer available, whichever of its
        spellings is asked about. */
    lemma RegisteredIsUnavailable(s: string)
      requires Valid()
      requires Normalize(s) in registeredCombos
      ensures !IsHotkeyAvailable(s)
      ensures !IsHotkeyAvailable(Normalize(s))
    {
      NormalizeIdempotent(s);
    }

    /** Asking about a normalised hotkey asks whether it is registered or reserved. */
    lemma AvailableNormalized(s: string)
      ensures IsHotkeyAvailable(Normalize(s)) <==> Normalize(s) !in registeredCombos && !IsReserved(Normalize(s))
    {
      NormalizeIdempotent(s);
    }

    /** `validate_hotkey_string`: the checks run in the order empty, format,
        reserved, already registered; the first that fails gives the message. */
    function ValidateHotkeyString(s: string): (r: (bool, string))
      reads this
      ensures r.0 <==> Strip(s) != [] && !Unparsed(ParseHotkey(s)) && !IsReserved(s)
                       && Normalize(s) !in registeredCombos
      ensures r.0 ==> r.1 == ""
      ensures Strip(s) == [] ==> r.1 == "Hotkey cannot be empty"
      ensures Strip(s) != [] && Unparsed(ParseHotkey(s)) ==> r.1 == "Invalid hotkey format"
      ensures Strip(s) != [] && !Unparsed(ParseHotkey(s)) && IsReserved(s) ==>
        r.1 == "This hotkey combination is reserved by the system"
      ensures Strip(s) != [] && !Unparsed(ParseHotkey(s)) && !IsReserved(s) && Normalize(s) in registeredCombos ==>
        r.1 == "This hotkey is already registered"
    {
      if Strip(s) == [] then (false, "Hotkey cannot be empty")
      else if Unparsed(ParseHotkey(s)) then (false, "Invalid hotkey format")
      else if IsReserved(s) then (false, "This hotkey combination is reserved by the system")
      else if Normalize(s) in registeredCombos then (false, "This hotkey is already registered")
      else (true, "")
    }

    /** `register_hotkey`. `handleValid` is what `_validate_widget_handle`
        finds; `outcome` is what Windows answers. */
    method RegisterHotkey(name: string, s: string, handleValid: bool, outcome: RegisterOutcome)
      returns (ok: bool)
      requires Valid()
      modifies this
      ensures Valid()
      ensures started == old(started)
      ensures var n := Normalize(s);
        ok <==> old(started) && n !in old(registeredCombos) && !IsReserved(n)
                && !Unparsed(ParseHotkey(s)) && handleValid && outcome.Registered?
      ensures ok ==>
        var n := Normalize(s);
        && hotkeys == old(hotkeys)[old(nextId) := (name, n)]
        && registeredCombos == old(registeredCombos) + {n}
        && events == old(events)
      ensures !ok ==> hotkeys == old(hotkeys) && registeredCombos == old(registeredCombos)
      ensures nextId == old(nextId) + (if old(started) && old(IsHotkeyAvailable(Normalize(s)))
                                         && !Unparsed(ParseHotkey(s)) && handleValid then 1 else 0)
      ensures !old(started) ==> events == old(events)
      ensures old(started) && !old(IsHotkeyAvailable(Normalize(s))) ==>
        var n := Normalize(s);
        events == old(events) + [RegistrationFailed(name, n, "Hotkey " + n + " is already registered or reserved")]
      ensures old(started) && old(IsHotkeyAvailable(Normalize(s))) && Unparsed(ParseHotkey(s)) ==>
        events == old(events) + [RegistrationFailed(name, s, "Invalid hotkey format: " + s)]
      ensures old(started) && old(IsHotkeyAvailable(Normalize(s))) && !Unparsed(ParseHotkey(s)) && !handleValid ==>
        events == old(events) + [RegistrationFailed(name, Normalize(s), "Hotkey system not started or widget handle invalid")]
      ensures old(started) && old(IsHotkeyAvailable(Normalize(s))) && !Unparsed(ParseHotkey(s)) && handleValid ==>
        var n := Normalize(s);
        match outcome
        case Registered => events == old(events)
        case RegisterRefused(code) => events == old(events) + [RegistrationFailed(name, n, RefusalMessage(n, code))]
        case RegisterRaised(reason) =>
          events == old(events) + [RegistrationFailed(name, n, "Exception registering hotkey " + n + ": " + reason)]
    {
      AvailableNormalized(s);
      ghost var wasAvailable := IsHotkeyAvailable(Normalize(s));
      if !started {
        return false;
      }
      var normalized := NormalizeHotkeyString(s);
      var available := IsAvailable(normalized);
      assert available == wasAvailable;
      if !available {
        events := events + [RegistrationFailed(name, normalized, "Hotkey " + normalized + " is already registered or reserved")];
        return false;
      }
      var combo := ParseHotkeyString(s);
      ghost var unparsed := Unparsed(ParseHotkey(s));
      assert unparsed == (combo.modifiers == 0 && combo.vk == 0);
      if combo.modifiers == 0 && combo.vk == 0 {
        events := events + [RegistrationFailed(name, s, "Invalid hotkey format: " + s)];
        return false;
      }
      if !handleValid {
        events := events + [RegistrationFailed(name, normalized, "Hotkey system not started or widget handle invalid")];
        return false;
      }
      ok := Attempt(name, normalized, outcome);
    }

    /** The last stage of `register_hotkey`: a fresh id is taken and Windows
        is asked to register the combination under it. */
    method Attempt(name: string, normalized: string, outcome: RegisterOutcome) returns (ok: bool)
      requires Valid()
      requires normalized !in registeredCombos
      modifies this
      ensures Valid()
      ensures started == old(started) && nextId == old(nextId) + 1
      ensures ok <==> outcome.Registered?
      ensures ok ==> hotkeys == old(hotkeys)[old(nextId) := (name, normalized)]
                     && registeredCombos == old(registeredCombos) + {normalized}
      ensures !ok ==> hotkeys == old(hotkeys) && registeredCombos == old(registeredCombos)
      ensures match outcome
        case Registered => events == old(events)
        case RegisterRefused(code) =>
          events == old(events) + [RegistrationFailed(name, normalized, RefusalMessage(normalized, code))]
        case RegisterRaised(reason) =>
          events == old(events) + [RegistrationFailed(name, normalized, "Exception registering hotkey " + normalized + ": " + reason)]
    {
      var id := nextId;
      nextId := nextId + 1;
      match outcome
      case RegisterRefused(code) =>
        events := events + [RegistrationFailed(name, normalized, RefusalMessage(normalized, code))];
        ok := false;
      case RegisterRaised(reason) =>
        events := events + [RegistrationFailed(name, normalized, "Exception registering hotkey " + normalized + ": " + reason)];
        ok := false;
      case Registered =>
        TablesAdd(hotkeys, registeredCombos, id, name, normalized);
        hotkeys := hotkeys[id := (name, normalized)];
        registeredCombos := registeredCombos + {normalized};
        ok := true;
    }

    /** `is_hotkey_available`, step by step. */
    method IsAvailable(s: string) returns (available: bool)
      ensures available == IsHotkeyAvailable(s)
    {
      var normalized := NormalizeHotkeyString(s);
      if normalized in registeredCombos {
        return false;
      }
      var reserved := IsReservedHotkey(s);
      available := !reserved;
    }
  
    /** `unregister_hotkey`: the first id (in insertion order, which is
        ascending id order) registered for the script is released, unless
        `UnregisterHotKey` raises. */
    method UnregisterHotkey(name: string, raises: bool) returns (ok: bool, ghost removedId: int)
      requires Valid()
      modifies this
      ensures Valid()
      ensures started == old(started) && nextId == old(nextId) && events == old(events)
      ensures ok <==> old(started) && !raises && exists id :: id in old(hotkeys) && old(hotkeys)[id].0 == name
      ensures ok ==>
        && removedId in old(hotkeys) && old(hotkeys)[removedId].0 == name
        && (forall j :: j in old(hotkeys) && old(hotkeys)[j].0 == name ==> removedId <= j)
        && hotkeys == old(hotkeys) - {removedId}
        && registeredCombos == old(registeredCombos) - {old(hotkeys)[removedId].1}
      ensures !ok ==> hotkeys == old(hotkeys) && registeredCombos == old(registeredCombos)
    {
      removedId := 0;
      if !started {
        return false, removedId;
      }
      var id := 1;
      while id < nextId
        invariant 1 <= id <= nextId
        invariant forall j :: j in hotkeys && j < id ==> hotkeys[j].0 != name
      {
        if id in hotkeys && hotkeys[id].0 == name {
          if raises {
            return false, id;
          }
          var hotkey := hotkeys[id].1;
          TablesRemove(hotkeys, registeredCombos, nextId, id);
          hotkeys := hotkeys - {id};
          registeredCombos := registeredCombos - {hotkey};
          return true, id;
        }
        id := id + 1;
      }
      ok := false;
    }

    /** `unregister_all`: with the window present, both tables end empty
        (a failure to release one id is only logged). */
    method UnregisterAll()
      requires Valid()
      modifies this
      ensures Valid()
      ensures old(started) ==> hotkeys == map[] && registeredCombos == {}
      ensures !old(started) ==> hotkeys == old(hotkeys) && registeredCombos == old(registeredCombos)
      ensures started == old(started) && nextId == old(nextId) && events == old(events)
    {
      if !started {
        return;
      }
      hotkeys := map[];
      registeredCombos := {};
    }

    /** `get_registered_hotkeys`: script name -> hotkey; when a script holds
        several ids, the last one in insertion order wins. */
    method GetRegisteredHotkeys() returns (r: map<string, string>)
      requires Valid()
      ensures forall n :: n in r <==> exists id :: id in hotkeys && hotkeys[id].0 == n
      ensures forall id ::
        (id in hotkeys && (forall j :: j in hotkeys && hotkeys[j].0 == hotkeys[id].0 ==> j <= id))
        ==> r[hotkeys[id].0] == hotkeys[id].1
    {
      r := map[];
      var id := 1;
      while id < nextId
        invariant 1 <= id <= nextId
        invariant forall n :: n in r <==> exists j :: j in hotkeys && j < id && hotkeys[j].0 == n
        invariant forall j ::
          (j in hotkeys && j < id && (forall j' :: j' in hotkeys && j' < id && hotkeys[j'].0 == hotkeys[j].0 ==> j' <= j))
          ==> r[hotkeys[j].0] == hotkeys[j].1
      {
        if id in hotkeys {
          var (name, hotkey) := hotkeys[id];
          r := r[name := hotkey];
        }
        id := id + 1;
      }
    }

    /** `_on_hotkey_triggered`: a known id re-emits its script and hotkey. */
    method OnHotkeyTriggered(id: int)
      requires Valid()
      modifies this
      ensures Valid()
      ensures id in hotkeys ==> events == old(events) + [HotkeyTriggered(hotkeys[id].0, hotkeys[id].1)]
      ensures id !in hotkeys ==> events == old(events)
      ensures started == old(started) && hotkeys == old(hotkeys)
      ensures registeredCombos == old(registeredCombos) && nextId == old(nextId)
    {
      if id in hotkeys {
        events := events + [HotkeyTriggered(hotkeys[id].0, hotkeys[id].1)];
      }
    }
  }
}
