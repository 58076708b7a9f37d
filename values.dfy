/**
 * Python values as they cross the boundaries the model abstracts: script
 * arguments, values returned by a script's `main()`, and parsed JSON.
 * Every non-scalar value carries the text that Python's `str()` gives it.
 */
module Values {
  import opened Text

  datatype PyValue =
    | PyNone
    | PyBool(b: bool)
    | PyInt(i: int)
    | PyFloat(floatText: string)
    | PyStr(s: string)
    | PyDict(entries: map<string, PyValue>, dictText: string)
    | PyOther(otherText: string)

  /** Python truthiness. A float's truth is not modelled beyond its text. */
  predicate Truthy(v: PyValue)
  {
    match v
    case PyNone => false
    case PyBool(b) => b
    case PyInt(i) => i != 0
    case PyFloat(t) => t != "0.0" && t != "-0.0"
    case PyStr(s) => s != ""
    case PyDict(e, _) => e != map[]
    case PyOther(_) => true
  }

  /** Python `str(v)`. */
  function Str(v: PyValue): string
  {
    match v
    case PyNone => "None"
    case PyBool(b) => if b then "True" else "False"
    case PyInt(i) => IntToString(i)
    case PyFloat(t) => t
    case PyStr(s) => s
    case PyDict(_, t) => t
    case PyOther(t) => t
  }

  /** `value is not None and value != ""`: an argument value that is passed on. */
  predicate Present(v: PyValue)
  {
    v != PyNone && v != PyStr("")
  }

  /** `d.get(key, default)` on a dictionary value. */
  function Get(entries: map<string, PyValue>, key: string, default: PyValue): (r: PyValue)
    ensures key in entries ==> r == entries[key]
    ensures key !in entries ==> r == default
  {
    if key in entries then entries[key] else default
  }

  // ------------------------------------------------------------ int(text)

  /** Digits with single underscores between them, as Python's `int()` accepts. */
  predicate DigitGroups(t: string)
  {
    && |t| > 0
    && IsDigit(t[0]) && IsDigit(t[|t| - 1])
    && (forall i :: 0 <= i < |t| ==> IsDigit(t[i]) || t[i] == '_')
    && (forall i :: 0 <= i < |t| - 1 ==> !(t[i] == '_' && t[i + 1] == '_'))
  }

  function DropUnderscores(t: string): (r: string)
    ensures forall i :: 0 <= i < |r| ==> r[i] != '_'
    ensures (forall i :: 0 <= i < |t| ==> t[i] != '_') ==> r == t
  {
    if t == [] then [] else (if t[0] == '_' then [] else [t[0]]) + DropUnderscores(t[1..])
  }

  lemma {:induction false} DropUnderscoresDigits(t: string)
    requires forall i :: 0 <= i < |t| ==> IsDigit(t[i]) || t[i] == '_'
    ensures forall i :: 0 <= i < |DropUnderscores(t)| ==> IsDigit(DropUnderscores(t)[i])
  {
    if t != [] {
      DropUnderscoresDigits(t[1..]);
    }
  }

  /** Python `int(text)` for a string: surrounding whitespace, an optional
      sign and decimal digit groups; `None` where Python raises ValueError. */
  function ParseInt(text: string): (r: Option<int>)
    ensures r.Some? ==> Strip(text) != []
  {
    var t := Strip(text);
    if t == [] then None
    else
      var neg := t[0] == '-';
      var body := if t[0] == '-' || t[0] == '+' then t[1..] else t;
      if !DigitGroups(body) then None
      else
        DropUnderscoresDigits(body);
        var n: int := DigitsValue(DropUnderscores(body));
        Some(if neg then -n else n)
  }

  /** `int(str(n)) == n`. */
  lemma ParseIntOfIntToString(n: int)
    ensures ParseInt(IntToString(n)) == Some(n)
  {
    var s := IntToString(n);
    var digits := NatToString(if n < 0 then -n else n);
    assert Strip(s) == s by {
      assert !IsSpace(s[0]);
      assert !IsSpace(s[|s| - 1]) by {
        assert s[|s| - 1] == digits[|digits| - 1];
      }
      assert TrimLeft(s) == s;
      assert TrimRight(s) == s;
    }
    var body := if s[0] == '-' || s[0] == '+' then s[1..] else s;
    assert body == digits;
    DigitsOfNat(if n < 0 then -n else n);
  }

  /** `int(v)` succeeds: the type check of argument validation. Finite
      floats convert by truncation, while NaN (whose `str()` is "nan")
      raises ValueError; containers and other objects raise TypeError. */
  predicate IntConvertible(v: PyValue)
  {
    match v
    case PyNone => false
    case PyBool(_) => true
    case PyInt(_) => true
    case PyFloat(t) => t != "nan"
    case PyStr(s) => ParseInt(s).Some?
    case PyDict(_, _) => false
    case PyOther(_) => false
  }
}
