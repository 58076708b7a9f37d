/**
 * String and wrapper helpers shared by the modules of the model.
 *
 * Strings are `seq<char>`. Case mapping is ASCII-only and whitespace is the
 * set of characters that Python's `str.isspace` accepts among code points
 * below 0x100.
 */
module Text {

  datatype Option<T> = None | Some(value: T)

  datatype Result<T, E> = Ok(value: T) | Err(error: E)

  // ---------------------------------------------------------------- chars

  predicate IsSpace(c: char)
  {
    c == ' ' || c == '\t' || c == '\n' || c == '\r' || c == '\U{0b}' || c == '\U{0c}'
    || ('\U{1c}' <= c <= '\U{1f}') || c == '\U{85}' || c == '\U{a0}'
  }

  predicate IsDigit(c: char) { '0' <= c <= '9' }

  predicate IsUpperChar(c: char) { 'A' <= c <= 'Z' }

  predicate IsLowerChar(c: char) { 'a' <= c <= 'z' }

  predicate IsAlpha(c: char) { IsUpperChar(c) || IsLowerChar(c) }

  function UpperChar(c: char): char
  {
    if IsLowerChar(c) then (c as int - 32) as char else c
  }

  function LowerChar(c: char): char
  {
    if IsUpperChar(c) then (c as int + 32) as char else c
  }

  // ---------------------------------------------------------------- case

  /** Python `str.upper()` restricted to ASCII letters. */
  function Upper(s: string): (r: string)
    ensures |r| == |s|
    ensures forall i :: 0 <= i < |s| ==> r[i] == UpperChar(s[i])
    ensures forall i :: 0 <= i < |r| ==> !IsLowerChar(r[i])
  {
    if s == [] then [] else [UpperChar(s[0])] + Upper(s[1..])
  }

  /** Python `str.lower()` restricted to ASCII letters. */
  function Lower(s: string): (r: string)
    ensures |r| == |s|
    ensures forall i :: 0 <= i < |s| ==> r[i] == LowerChar(s[i])
    ensures forall i :: 0 <= i < |r| ==> !IsUpperChar(r[i])
  {
    if s == [] then [] else [LowerChar(s[0])] + Lower(s[1..])
  }

  lemma LowerIdempotent(s: string)
    ensures Lower(Lower(s)) == s <==> Lower(s) == s
    ensures Lower(Lower(s)) == Lower(s)
  {
    assert |Lower(Lower(s))| == |Lower(s)|;
    forall i | 0 <= i < |s| ensures Lower(Lower(s))[i] == Lower(s)[i] { }
  }

  lemma LowerOfUpper(s: string)
    ensures Lower(Upper(s)) == Lower(s)
  {
    forall i | 0 <= i < |s| ensures Lower(Upper(s))[i] == Lower(s)[i] { }
  }

  lemma UpperIdempotent(s: string)
    ensures Upper(Upper(s)) == Upper(s)
  {
    forall i | 0 <= i < |s| ensures Upper(Upper(s))[i] == Upper(s)[i] { }
  }

  /** Python `str.capitalize()`: first character upper-cased, the rest lower-cased. */
  function Capitalize(s: string): (r: string)
    ensures |r| == |s|
    ensures s != [] ==> r[0] == UpperChar(s[0]) && r[1..] == Lower(s[1..])
  {
    if s == [] then [] else [UpperChar(s[0])] + Lower(s[1..])
  }

  // ---------------------------------------------------------------- strip

  function TrimLeft(s: string): (r: string)
    ensures |r| <= |s| && r == s[|s| - |r|..]
    ensures r == [] || !IsSpace(r[0])
    ensures forall k :: 0 <= k < |s| - |r| ==> IsSpace(s[k])
  {
    if s != [] && IsSpace(s[0]) then TrimLeft(s[1..]) else s
  }

  function TrimRight(s: string): (r: string)
    ensures |r| <= |s| && r == s[..|r|]
    ensures r == [] || !IsSpace(r[|r| - 1])
    ensures forall k :: |r| <= k < |s| ==> IsSpace(s[k])
  {
    if s != [] && IsSpace(s[|s| - 1]) then TrimRight(s[..|s| - 1]) else s
  }

  /** Python `str.strip()`: leading and trailing whitespace removed. */
  function Strip(s: string): (r: string)
    ensures |r| <= |s|
    ensures r == [] || (!IsSpace(r[0]) && !IsSpace(r[|r| - 1]))
    ensures r == [] <==> forall k :: 0 <= k < |s| ==> IsSpace(s[k])
  {
    var r := TrimRight(TrimLeft(s));
    assert r == [] ==> forall k :: 0 <= k < |s| ==> IsSpace(s[k]) by {
      if r == [] {
        var t := TrimLeft(s);
        assert t == [];
      }
    }
    assert r != [] ==> exists k :: 0 <= k < |s| && !IsSpace(s[k]) by {
      if r != [] {
        var t := TrimLeft(s);
        assert t[0] == r[0];
        assert s[|s| - |t|] == t[0];
      }
    }
    r
  }

  /** A string without whitespace at either end is its own strip. */
  lemma StripUnchanged(s: string)
    requires s == [] || (!IsSpace(s[0]) && !IsSpace(s[|s| - 1]))
    ensures Strip(s) == s
  {
    if s != [] {
      assert TrimLeft(s) == s;
      assert TrimRight(s) == s;
    }
  }

  lemma StripIdempotent(s: string)
    ensures Strip(Strip(s)) == Strip(s)
  {
    var r := Strip(s);
    if r != [] {
      assert TrimLeft(r) == r;
      assert TrimRight(r) == r;
    }
  }

  // ---------------------------------------------------------------- search

  predicate StartsWith(s: string, prefix: string)
  {
    |prefix| <= |s| && s[..|prefix|] == prefix
  }

  /** A string whose first character differs from a prefix's does not start with it. */
  lemma NotStartsWith(s: string, prefix: string)
    requires prefix != [] && (s == [] || s[0] != prefix[0])
    ensures !StartsWith(s, prefix)
  {
    if |prefix| <= |s| {
      assert s[..|prefix|][0] == s[0];
    }
  }

  predicate EndsWith(s: string, suffix: string)
  {
    |suffix| <= |s| && s[|s| - |suffix|..] == suffix
  }

  /** Python `sub in s` for strings. */
  predicate Contains(s: string, sub: string)
    decreases |s|
  {
    StartsWith(s, sub) || (s != [] && Contains(s[1..], sub))
  }

  lemma ContainsAt(s: string, sub: string, i: nat)
    requires i + |sub| <= |s| && s[i..i + |sub|] == sub
    ensures Contains(s, sub)
    decreases i
  {
    if i > 0 {
      assert s[1..][i - 1..i - 1 + |sub|] == sub;
      ContainsAt(s[1..], sub, i - 1);
    }
  }

  /** `sub` occurs in `s` at index `i`. */
  predicate OccursAt(s: string, sub: string, i: nat)
  {
    i + |sub| <= |s| && s[i..i + |sub|] == sub
  }

  /** `Contains` holds exactly when `sub` occurs at some index. */
  lemma ContainsOccurs(s: string, sub: string)
    ensures Contains(s, sub) <==> exists i :: OccursAt(s, sub, i)
  {
    if Contains(s, sub) {
      var i := ContainsWitness(s, sub);
      assert OccursAt(s, sub, i);
    }
    if exists i :: OccursAt(s, sub, i) {
      var i :| OccursAt(s, sub, i);
      ContainsAt(s, sub, i);
    }
  }

  /** An occurrence of `sub` in `s`. */
  lemma ContainsWitness(s: string, sub: string) returns (i: nat)
    requires Contains(s, sub)
    ensures i + |sub| <= |s| && s[i..i + |sub|] == sub
    decreases |s|
  {
    if StartsWith(s, sub) {
      i := 0;
    } else {
      var j := ContainsWitness(s[1..], sub);
      i := j + 1;
      assert s[1..][j..j + |sub|] == s[i..i + |sub|];
    }
  }

  /** Every character of a contained string occurs in the container, which
      is therefore at least as long. */
  lemma ContainsChars(s: string, sub: string)
    ensures Contains(s, sub) ==> |sub| <= |s| && forall k :: 0 <= k < |sub| ==> sub[k] in s
  {
    if Contains(s, sub) {
      var i := ContainsWitness(s, sub);
      forall k | 0 <= k < |sub| ensures sub[k] in s {
        assert sub[k] == s[i + k];
      }
    }
  }

  lemma ContainsTrans(a: string, b: string, c: string)
    requires Contains(a, b) && Contains(b, c)
    ensures Contains(a, c)
  {
    var i := ContainsWitness(a, b);
    var j := ContainsWitness(b, c);
    forall k | 0 <= k < |c| ensures a[i + j + k] == c[k] {
      assert c[k] == b[j + k] == a[i + j + k];
    }
    assert a[i + j..i + j + |c|] == c;
    ContainsAt(a, c, i + j);
  }

  lemma ContainsUpper(s: string, sub: string)
    requires Contains(s, sub)
    ensures Contains(Upper(s), Upper(sub))
  {
    var i := ContainsWitness(s, sub);
    assert Upper(s)[i..i + |sub|] == Upper(sub);
    ContainsAt(Upper(s), Upper(sub), i);
  }

  /** The strip of a string is a piece of it. */
  lemma StripInfix(s: string)
    ensures Contains(s, Strip(s))
  {
    var t := TrimLeft(s);
    var r := TrimRight(t);
    assert r == s[|s| - |t|..][..|r|];
    assert s[|s| - |t|..|s| - |t| + |r|] == r;
    ContainsAt(s, r, |s| - |t|);
  }

  /** The first index of `c` in `s`. */
  function IndexOf(s: string, c: char): (i: nat)
    requires c in s
    ensures i < |s| && s[i] == c && c !in s[..i]
  {
    if s[0] == c then 0 else 1 + IndexOf(s[1..], c)
  }

  // ---------------------------------------------------------------- split/join

  lemma {:induction false} IndexAfter(a: string, c: char, b: string)
    requires c !in a
    ensures IndexOf(a + [c] + b, c) == |a|
  {
    if a != [] {
      assert (a + [c] + b)[1..] == a[1..] + [c] + b;
      IndexAfter(a[1..], c, b);
    }
  }

  /** Python `s.split(sep)` for a one-character separator. */
  function Split(s: string, sep: char): (parts: seq<string>)
    ensures |parts| >= 1
    ensures forall i :: 0 <= i < |parts| ==> sep !in parts[i]
    ensures sep !in s ==> parts == [s]
    decreases |s|
  {
    if sep !in s then [s]
    else
      var i := IndexOf(s, sep);
      [s[..i]] + Split(s[i + 1..], sep)
  }

  /** Python `sep.join(parts)`. */
  function Join(parts: seq<string>, sep: string): string
  {
    if |parts| == 0 then []
    else if |parts| == 1 then parts[0]
    else parts[0] + sep + Join(parts[1..], sep)
  }

  /** Joining the pieces of a split with the same separator gives back the input. */
  lemma {:induction false} JoinSplit(s: string, sep: char)
    ensures Join(Split(s, sep), [sep]) == s
    decreases |s|
  {
    if sep in s {
      var i := IndexOf(s, sep);
      JoinSplit(s[i + 1..], sep);
      assert s == s[..i] + [sep] + s[i + 1..];
    }
  }

  /** Splitting a join of separator-free pieces gives the pieces back. */
  lemma {:induction false} SplitJoin(parts: seq<string>, sep: char)
    requires |parts| >= 1
    requires forall i :: 0 <= i < |parts| ==> sep !in parts[i]
    ensures Split(Join(parts, [sep]), sep) == parts
  {
    if |parts| > 1 {
      var rest := Join(parts[1..], [sep]);
      var s := parts[0] + [sep] + rest;
      assert s[|parts[0]|] == sep;
      assert s[..|parts[0]|] == parts[0];
      assert sep !in s[..|parts[0]|];
      IndexAfter(parts[0], sep, rest);
      assert s[|parts[0]| + 1..] == rest;
      SplitJoin(parts[1..], sep);
    }
  }

  /** Every piece of a split is a piece of the split string. */
  lemma {:induction false} SplitInfix(s: string, sep: char, j: nat)
    requires j < |Split(s, sep)|
    ensures Contains(s, Split(s, sep)[j])
    decreases |s|
  {
    if sep !in s {
      ContainsAt(s, s, 0);
    } else {
      var i := IndexOf(s, sep);
      var tail := s[i + 1..];
      var rest := Split(tail, sep);
      assert Split(s, sep) == [s[..i]] + rest;
      if j == 0 {
        ContainsAt(s, s[..i], 0);
      } else {
        assert Split(s, sep)[j] == rest[j - 1];
        SplitInfix(tail, sep, j - 1);
        assert s[i + 1..i + 1 + |tail|] == tail;
        ContainsAt(s, tail, i + 1);
        ContainsTrans(s, tail, rest[j - 1]);
      }
    }
  }

  /** Each string of `parts` upper-cased. */
  function UpperAll(parts: seq<string>): (r: seq<string>)
    ensures |r| == |parts|
    ensures forall k :: 0 <= k < |parts| ==> r[k] == Upper(parts[k])
  {
    if parts == [] then [] else [Upper(parts[0])] + UpperAll(parts[1..])
  }

  lemma UpperAppend(a: string, b: string)
    ensures Upper(a + b) == Upper(a) + Upper(b)
  {
  }

  /** Upper-casing a join is joining the upper-cased pieces, when the
      separator is not a lower-case letter. */
  lemma {:induction false} UpperJoin(parts: seq<string>, sep: char)
    requires !IsLowerChar(sep)
    ensures Upper(Join(parts, [sep])) == Join(UpperAll(parts), [sep])
  {
    if |parts| > 1 {
      UpperJoin(parts[1..], sep);
      UpperAppend(parts[0] + [sep], Join(parts[1..], [sep]));
      UpperAppend(parts[0], [sep]);
      assert UpperAll(parts)[1..] == UpperAll(parts[1..]);
    }
  }

  /** Each piece of a join occurs in it. */
  lemma {:induction false} JoinContainsPiece(parts: seq<string>, sep: char, k: nat)
    requires k < |parts|
    ensures Contains(Join(parts, [sep]), parts[k])
  {
    if |parts| == 1 {
      ContainsAt(parts[0], parts[0], 0);
    } else {
      var rest := Join(parts[1..], [sep]);
      var j := parts[0] + [sep] + rest;
      if k == 0 {
        assert j[..|parts[0]|] == parts[0];
        ContainsAt(j, parts[0], 0);
      } else {
        JoinContainsPiece(parts[1..], sep, k - 1);
        assert j[|parts[0]| + 1..|j|] == rest;
        ContainsAt(j, rest, |parts[0]| + 1);
        ContainsTrans(j, rest, parts[k]);
      }
    }
  }

  /** A separator-free string that occurs in a join occurs in one of its pieces. */
  lemma {:induction false} ContainsJoin(parts: seq<string>, sep: char, w: string) returns (k: nat)
    requires |parts| >= 1
    requires sep !in w && Contains(Join(parts, [sep]), w)
    ensures k < |parts| && Contains(parts[k], w)
  {
    if |parts| == 1 {
      k := 0;
    } else {
      var rest := Join(parts[1..], [sep]);
      var j := parts[0] + [sep] + rest;
      var i := ContainsWitness(j, w);
      assert forall p :: i <= p < i + |w| ==> j[p] == w[p - i];
      assert j[|parts[0]|] == sep;
      if i + |w| <= |parts[0]| {
        assert parts[0][i..i + |w|] == j[i..i + |w|];
        ContainsAt(parts[0], w, i);
        k := 0;
      } else {
        assert rest[i - |parts[0]| - 1..i - |parts[0]| - 1 + |w|] == j[i..i + |w|];
        ContainsAt(rest, w, i - |parts[0]| - 1);
        var k' := ContainsJoin(parts[1..], sep, w);
        k := k' + 1;
      }
    }
  }

  // ---------------------------------------------------------------- numbers

  function DigitChar(d: nat): char
    requires d < 10
  {
    ('0' as int + d) as char
  }

  /** Python `str(n)` for a natural number. */
  function NatToString(n: nat): (r: string)
    ensures |r| >= 1
    ensures forall i :: 0 <= i < |r| ==> IsDigit(r[i])
    ensures |r| > 1 ==> r[0] != '0'
  {
    if n < 10 then [DigitChar(n)] else NatToString(n / 10) + [DigitChar(n % 10)]
  }

  /** Python `str(n)` for an integer. */
  function IntToString(n: int): (r: string)
    ensures |r| >= 1
    ensures n < 0 <==> r[0] == '-'
  {
    if n < 0 then "-" + NatToString(-n) else NatToString(n)
  }

  /** The value of a non-empty run of decimal digits. */
  function DigitsValue(s: string): nat
    requires forall i :: 0 <= i < |s| ==> IsDigit(s[i])
  {
    if s == [] then 0
    else
      var d := s[|s| - 1];
      assert IsDigit(d);
      DigitsValue(s[..|s| - 1]) * 10 + (d as int - '0' as int)
  }

  lemma {:induction false} DigitsOfNat(n: nat)
    ensures DigitsValue(NatToString(n)) == n
  {
    if n >= 10 {
      DigitsOfNat(n / 10);
      var s := NatToString(n);
      assert s[..|s| - 1] == NatToString(n / 10);
    }
  }

  // ---------------------------------------------------------------- file names

  /** The last index of `c` in `s`. */
  function RFind(s: string, c: char): (r: Option<nat>)
    ensures r.Some? ==> r.value < |s| && s[r.value] == c && c !in s[r.value + 1..]
    ensures r.None? ==> c !in s
  {
    if s == [] then None
    else if s[|s| - 1] == c then Some(|s| - 1)
    else RFind(s[..|s| - 1], c)
  }

  /** pathlib's `suffix`: from the last dot of the file name, unless that dot
      is the first or the last character. */
  function Suffix(name: string): (r: string)
    ensures r == [] || (r[0] == '.' && |r| >= 2 && EndsWith(name, r) && '.' !in r[1..])
  {
    match RFind(name, '.')
    case Some(i) => if 0 < i < |name| - 1 then name[i..] else []
    case None => []
  }

  /** pathlib's `stem`: the file name without its suffix. */
  function Stem(name: string): (r: string)
    ensures r + Suffix(name) == name
  {
    match RFind(name, '.')
    case Some(i) => if 0 < i < |name| - 1 then name[..i] else name
    case None => name
  }
}
