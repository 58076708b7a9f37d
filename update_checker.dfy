/**
 * The two pure helpers of the update check: comparing dotted version
 * strings and picking the installer among a release's assets. The network
 * request around them is not modelled.
 */
module Updates {
  import opened Text
  import opened Values

  // ---------------------------------------------------------------- versions

  /** `tuple(map(int, v.split('.')))`, or nothing when a part is not an integer. */
  function ParseVersion(v: string): (r: Option<seq<int>>)
    ensures r.Some? ==> |r.value| == |Split(v, '.')|
    ensures r.Some? ==> forall i :: 0 <= i < |r.value| ==> ParseInt(Split(v, '.')[i]) == Some(r.value[i])
    ensures r.None? ==> exists i :: 0 <= i < |Split(v, '.')| && ParseInt(Split(v, '.')[i]).None?
  {
    ParseParts(Split(v, '.'), ParseInt)
  }

  /** `map(parse, parts)` materialised as a tuple: the first failing part fails the whole. */
  function ParseParts(parts: seq<string>, parse: string -> Option<int>): (r: Option<seq<int>>)
    ensures r.Some? ==> |r.value| == |parts| && forall i :: 0 <= i < |parts| ==> parse(parts[i]) == Some(r.value[i])
    ensures r.None? ==> exists i :: 0 <= i < |parts| && parse(parts[i]).None?
    decreases |parts|
  {
    if parts == [] then Some([])
    else
      var head := parse(parts[0]);
      var tail := ParseParts(parts[1..], parse);
      if head.None? then None
      else if tail.None? then
        var i :| 0 <= i < |parts[1..]| && parse(parts[1..][i]).None?;
        assert parts[i + 1] == parts[1..][i];
        None
      else
        var values := [head.value] + tail.value;
        assert forall i :: 0 <= i < |parts| ==> parse(parts[i]) == Some(values[i]) by {
          forall i | 0 <= i < |parts| ensures parse(parts[i]) == Some(values[i]) {
            if i > 0 {
              assert parts[i] == parts[1..][i - 1];
              assert values[i] == tail.value[i - 1];
            }
          }
        }
        Some(values)
  }

  /** Python's `<` on tuples of integers. */
  predicate TupleLess(a: seq<int>, b: seq<int>)
    decreases |a|
  {
    if a == [] then b != []
    else if b == [] then false
    else if a[0] != b[0] then a[0] < b[0]
    else TupleLess(a[1..], b[1..])
  }

  /** Lexicographic order stated directly: the first difference decides,
      and a proper prefix is smaller. */
  predicate LexLess(a: seq<int>, b: seq<int>)
  {
    || (|a| < |b| && a == b[..|a|])
    || exists i :: 0 <= i < |a| && i < |b| && a[..i] == b[..i] && a[i] < b[i]
  }

  lemma {:induction false} TupleLessIsLex(a: seq<int>, b: seq<int>)
    ensures TupleLess(a, b) <==> LexLess(a, b)
    decreases |a|
  {
    if a != [] && b != [] {
      if a[0] != b[0] {
        if a[0] < b[0] {
          assert a[..0] == b[..0];
        }
      } else {
        TupleLessIsLex(a[1..], b[1..]);
        if LexLess(a[1..], b[1..]) {
          if |a[1..]| < |b[1..]| && a[1..] == b[1..][..|a[1..]|] {
            assert a == [a[0]] + a[1..] && b[..|a|] == [b[0]] + b[1..][..|a[1..]|];
          } else {
            var i :| 0 <= i < |a[1..]| && i < |b[1..]| && a[1..][..i] == b[1..][..i] && a[1..][i] < b[1..][i];
            assert a[..i + 1] == [a[0]] + a[1..][..i];
            assert b[..i + 1] == [b[0]] + b[1..][..i];
          }
        }
        if LexLess(a, b) {
          if |a| < |b| && a == b[..|a|] {
            assert a[1..] == b[1..][..|a[1..]|];
          } else {
            var i :| 0 <= i < |a| && i < |b| && a[..i] == b[..i] && a[i] < b[i];
            assert i > 0;
            assert a[1..][..i - 1] == a[..i][1..] == b[..i][1..] == b[1..][..i - 1];
          }
        }
      }
    } else if a == [] && b != [] {
      assert a == b[..0];
    }
  }

  lemma {:induction false} TupleLessIrreflexive(a: seq<int>)
    ensures !TupleLess(a, a)
    decreases |a|
  {
    if a != [] {
      TupleLessIrreflexive(a[1..]);
    }
  }

  lemma {:induction false} TupleLessAsymmetric(a: seq<int>, b: seq<int>)
    ensures !(TupleLess(a, b) && TupleLess(b, a))
    decreases |a|
  {
    if a != [] && b != [] && a[0] == b[0] {
      TupleLessAsymmetric(a[1..], b[1..]);
    }
  }

  /** `_compare_versions`: whether `latest` is newer than `current`; false
      when either is not made of integers. */
  function IsNewer(current: string, latest: string): (r: bool)
    ensures ParseVersion(current).None? || ParseVersion(latest).None? ==> !r
  {
    var c := ParseVersion(current);
    var l := ParseVersion(latest);
    c.Some? && l.Some? && TupleLess(c.value, l.value)
  }

  /** Newer means lexicographically greater, part by part. */
  lemma IsNewerLex(current: string, latest: string)
    requires ParseVersion(current).Some? && ParseVersion(latest).Some?
    ensures IsNewer(current, latest) <==> LexLess(ParseVersion(current).value, ParseVersion(latest).value)
  {
    TupleLessIsLex(ParseVersion(current).value, ParseVersion(latest).value);
  }

  /** A version is never newer than itself. */
  lemma NeverNewerThanItself(v: string)
    ensures !IsNewer(v, v)
  {
    if ParseVersion(v).Some? {
      TupleLessIrreflexive(ParseVersion(v).value);
    }
  }

  /** Of two versions at most one is newer than the other. */
  lemma NewerAsymmetric(a: string, b: string)
    ensures !(IsNewer(a, b) && IsNewer(b, a))
  {
    if ParseVersion(a).Some? && ParseVersion(b).Some? {
      TupleLessAsymmetric(ParseVersion(a).value, ParseVersion(b).value);
    }
  }

  // ---------------------------------------------------------------- assets

  /** `asset.get('name', '')` when it is a string; nothing for a name of
      another type, on which `startswith` raises AttributeError. */
  function AssetName(asset: map<string, PyValue>): (r: Option<string>)
    ensures r.None? <==> "name" in asset && !asset["name"].PyStr?
    ensures "name" !in asset ==> r == Some("")
  {
    if "name" !in asset then Some("")
    else if asset["name"].PyStr? then Some(asset["name"].s)
    else None
  }

  predicate IsInstaller(asset: map<string, PyValue>)
  {
    AssetName(asset).Some? && StartsWith(AssetName(asset).value, "BindKit-") && EndsWith(AssetName(asset).value, "-Setup.exe")
  }

  /** The loop looks at an asset and moves on. */
  predicate Skipped(asset: map<string, PyValue>)
  {
    AssetName(asset).Some? && !IsInstaller(asset)
  }

  /** The first installer among the assets, unless an asset whose name is
      not a string comes first: then the search raises, and the error
      carries that name. */
  function InstallerAsset(assets: seq<map<string, PyValue>>): (r: Result<Option<map<string, PyValue>>, PyValue>)
    ensures r.Ok? && r.value.Some? ==> exists i :: (0 <= i < |assets| && assets[i] == r.value.value && IsInstaller(assets[i])
      && forall j :: 0 <= j < i ==> Skipped(assets[j]))
    ensures r.Err? ==> exists i :: (0 <= i < |assets| && AssetName(assets[i]).None? && r.error == assets[i]["name"]
      && forall j :: 0 <= j < i ==> Skipped(assets[j]))
    ensures r == Ok(None) <==> forall i :: 0 <= i < |assets| ==> Skipped(assets[i])
    decreases |assets|
  {
    if assets == [] then Ok(None)
    else if AssetName(assets[0]).None? then Err(assets[0]["name"])
    else if IsInstaller(assets[0]) then Ok(Some(assets[0]))
    else
      var rest := InstallerAsset(assets[1..]);
      assert forall i :: 1 <= i < |assets| ==> assets[1..][i - 1] == assets[i];
      if rest.Ok? && rest.value.Some? then
        var i :| 0 <= i < |assets[1..]| && assets[1..][i] == rest.value.value && IsInstaller(assets[1..][i])
          && forall j :: 0 <= j < i ==> Skipped(assets[1..][j]);
        assert assets[i + 1] == rest.value.value;
        rest
      else if rest.Err? then
        var i :| 0 <= i < |assets[1..]| && AssetName(assets[1..][i]).None? && rest.error == assets[1..][i]["name"]
          && forall j :: 0 <= j < i ==> Skipped(assets[1..][j]);
        assert assets[i + 1] == assets[1..][i];
        rest
      else rest
  }

  /** `_find_installer_asset`. */
  method FindInstallerAsset(assets: seq<map<string, PyValue>>) returns (r: Result<Option<map<string, PyValue>>, PyValue>)
    ensures r == InstallerAsset(assets)
  {
    var i := 0;
    while i < |assets|
      invariant 0 <= i <= |assets|
      invariant InstallerAsset(assets[i..]) == InstallerAsset(assets)
    {
      assert assets[i..][0] == assets[i];
      var name := AssetName(assets[i]);
      if name.None? {
        return Err(assets[i]["name"]);
      }
      if StartsWith(name.value, "BindKit-") && EndsWith(name.value, "-Setup.exe") {
        return Ok(Some(assets[i]));
      }
      assert assets[i..][1..] == assets[i + 1..];
      i := i + 1;
    }
    return Ok(None);
  }
}
