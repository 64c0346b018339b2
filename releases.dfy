/** The self-update decision logic (github_release_manager.py): dotted
    version comparison, the choice of an installer asset from the latest
    GitHub release, the file name of a downloaded update, and the order of
    the checker thread's signals. The HTTP request is an oracle: the model
    receives what `requests.get(...)` and `response.json()` produced. */
module Releases {
  import opened Wrappers
  import opened PyText
  import opened PyValues

  /** `GitHubReleaseManager.CURRENT_VERSION` */
  const CurrentVersion: string := "1.0.0"

  /* ---------------- _compare_versions ---------------- */

  /** `int(x)` for each piece, None where it raises. */
  function Parsed(pieces: seq<string>): (r: seq<Option<int>>)
    ensures |r| == |pieces| && forall i :: 0 <= i < |pieces| ==> r[i] == ParseInt(pieces[i])
  {
    seq(|pieces|, i requires 0 <= i < |pieces| => ParseInt(pieces[i]))
  }

  /** The list comprehension's value: every piece's integer, or None as soon
      as one `int` call raises. */
  function AllParsed(xs: seq<Option<int>>): (r: Option<seq<int>>)
    ensures r.Some? ==> |r.value| == |xs| && forall i :: 0 <= i < |xs| ==> xs[i] == Some(r.value[i])
    ensures r.None? <==> exists i :: 0 <= i < |xs| && xs[i].None?
  {
    if forall i :: 0 <= i < |xs| ==> xs[i].Some? then
      Some(seq(|xs|, i requires 0 <= i < |xs| => xs[i].value))
    else None
  }

  /** `[int(x) for x in version.split('.')]` */
  function VersionParts(version: string): Option<seq<int>> {
    AllParsed(Parsed(Split(version, '.')))
  }

  function Zeros(n: nat): (z: seq<int>)
    ensures |z| == n && forall i :: 0 <= i < n ==> z[i] == 0
  {
    seq(n, _ => 0)
  }

  /** `parts.extend([0] * (n - len(parts)))` */
  function Padded(parts: seq<int>, n: nat): (r: seq<int>)
    requires |parts| <= n
    ensures |r| == n && r[..|parts|] == parts
    ensures forall i :: |parts| <= i < n ==> r[i] == 0
  {
    parts + Zeros(n - |parts|)
  }

  function Max(a: nat, b: nat): nat {
    if a >= b then a else b
  }

  /** The `for` loop over two equally long component lists: the first
      differing component decides. */
  function Lex(a: seq<int>, b: seq<int>): (r: int)
    requires |a| == |b|
    ensures r == -1 || r == 0 || r == 1
  {
    if a == [] then 0
    else if a[0] > b[0] then 1
    else if a[0] < b[0] then -1
    else Lex(a[1..], b[1..])
  }

  /** Both component lists zero-padded to the longer length, then compared. */
  function CompareParts(a: seq<int>, b: seq<int>): int {
    var n := Max(|a|, |b|);
    Lex(Padded(a, n), Padded(b, n))
  }

  /** `_compare_versions(version1, version2)`: 1, -1 or 0; 0 also when a
      component is not an integer (the bare `except` returns 0). */
  function VersionCompare(version1: string, version2: string): (r: int)
    ensures r == -1 || r == 0 || r == 1
    ensures VersionParts(version1).None? || VersionParts(version2).None? ==> r == 0
  {
    match (VersionParts(version1), VersionParts(version2))
    case (Some(a), Some(b)) => CompareParts(a, b)
    case _ => 0
  }

  /** The `for i in range(max_len)` loop of `_compare_versions` over the
      padded lists, returning at the first difference. */
  method CompareComponents(v1Parts: seq<int>, v2Parts: seq<int>) returns (r: int)
    requires |v1Parts| == |v2Parts|
    ensures r == Lex(v1Parts, v2Parts)
  {
    assert v1Parts[0..] == v1Parts && v2Parts[0..] == v2Parts;
    for i := 0 to |v1Parts|
      invariant Lex(v1Parts[i..], v2Parts[i..]) == Lex(v1Parts, v2Parts)
    {
      assert v1Parts[i..][1..] == v1Parts[i + 1..] && v2Parts[i..][1..] == v2Parts[i + 1..];
      if v1Parts[i] > v2Parts[i] {
        return 1;
      } else if v1Parts[i] < v2Parts[i] {
        return -1;
      }
    }
    return 0;
  }

  /** `_compare_versions(version1, version2)`: parse both, pad the shorter
      list with zeros in place, compare. */
  method CompareVersions(version1: string, version2: string) returns (r: int)
    ensures r == VersionCompare(version1, version2)
  {
    var p1 := VersionParts(version1);
    var p2 := VersionParts(version2);
    if p1.None? || p2.None? {
      return 0;
    }
    var v1Parts := p1.value;
    var v2Parts := p2.value;
    var maxLen := Max(|v1Parts|, |v2Parts|);
    v1Parts := Padded(v1Parts, maxLen);
    v2Parts := Padded(v2Parts, maxLen);
    r := CompareComponents(v1Parts, v2Parts);
  }

  /** Lists compare equal exactly when they are equal. */
  lemma {:induction false} LexZeroIffEqual(a: seq<int>, b: seq<int>)
    requires |a| == |b|
    ensures Lex(a, b) == 0 <==> a == b
  {
    if a != [] {
      LexZeroIffEqual(a[1..], b[1..]);
      if a[0] == b[0] && a[1..] == b[1..] {
        assert a == [a[0]] + a[1..] && b == [b[0]] + b[1..];
      }
    }
  }

  /** The first differing component decides the order. */
  lemma {:induction false} LexDecidedAt(a: seq<int>, b: seq<int>, i: nat)
    requires |a| == |b| && i < |a|
    requires a[..i] == b[..i] && a[i] != b[i]
    ensures Lex(a, b) == (if a[i] > b[i] then 1 else -1)
  {
    if i > 0 {
      assert a[0] == a[..i][0] && b[0] == b[..i][0];
      assert a[1..][..i - 1] == a[1..i] == a[..i][1..];
      assert b[1..][..i - 1] == b[1..i] == b[..i][1..];
      LexDecidedAt(a[1..], b[1..], i - 1);
    }
  }

  /** Swapping the arguments negates the result. */
  lemma {:induction false} LexAntisymmetric(a: seq<int>, b: seq<int>)
    requires |a| == |b|
    ensures Lex(a, b) == -Lex(b, a)
  {
    if a != [] {
      LexAntisymmetric(a[1..], b[1..]);
    }
  }

  /** Greater-than is transitive. */
  lemma {:induction false} LexTransitive(a: seq<int>, b: seq<int>, c: seq<int>)
    requires |a| == |b| == |c|
    requires Lex(a, b) == 1 && Lex(b, c) == 1
    ensures Lex(a, c) == 1
  {
    if a[0] == b[0] && b[0] == c[0] {
      LexTransitive(a[1..], b[1..], c[1..]);
    }
  }

  /** One more zero on both sides changes nothing. */
  lemma {:induction false} LexAppendZero(a: seq<int>, b: seq<int>)
    requires |a| == |b|
    ensures Lex(a + [0], b + [0]) == Lex(a, b)
  {
    if a == [] {
      assert Lex([0], [0]) == Lex([0][1..], [0][1..]);
    } else {
      assert (a + [0])[1..] == a[1..] + [0] && (b + [0])[1..] == b[1..] + [0];
      LexAppendZero(a[1..], b[1..]);
    }
  }

  /** A trailing zero component does not change a comparison. */
  lemma CompareTrailingZero(a: seq<int>, b: seq<int>)
    ensures CompareParts(a + [0], b) == CompareParts(a, b)
  {
    var n := Max(|a|, |b|);
    if |a| < |b| {
      assert Padded(a + [0], n) == Padded(a, n);
    } else {
      assert Padded(a + [0], n + 1) == Padded(a, n) + [0];
      assert Padded(b, n + 1) == Padded(b, n) + [0];
      LexAppendZero(Padded(a, n), Padded(b, n));
    }
  }

  /** One more integer piece adds one more component, and a list with a
      bad piece stays bad. */
  lemma AllParsedAppend(xs: seq<Option<int>>, n: int)
    ensures AllParsed(xs).None? ==> AllParsed(xs + [Some(n)]).None?
    ensures AllParsed(xs).Some? ==> AllParsed(xs + [Some(n)]) == Some(AllParsed(xs).value + [n])
  {
    var longer := xs + [Some(n)];
    if AllParsed(xs).None? {
      var i :| 0 <= i < |xs| && xs[i].None?;
      assert longer[i] == xs[i];
    } else {
      var a := AllParsed(xs).value;
      assert forall i :: 0 <= i < |longer| ==> longer[i] == Some((a + [n])[i]);
      assert forall i :: 0 <= i < |longer| ==> longer[i].Some?;
      var b := AllParsed(longer).value;
      assert b == a + [n];
    }
  }

  /** `(v + ".0").split('.')` is `v.split('.')` and one more "0". */
  lemma SplitAppendZero(v: string)
    ensures Split(v + ".0", '.') == Split(v, '.') + ["0"]
  {
    assert v + ".0" == v + ['.'] + "0";
    SplitAppend(v, "0", '.');
    var zero: string := ['0'];
    assert zero[1..] == [] && Split([], '.') == [""];
    assert Split(zero, '.') == [[zero[0]] + Split(zero[1..], '.')[0]] + Split(zero[1..], '.')[1..];
    assert [zero[0]] + Split(zero[1..], '.')[0] == "0";
    assert Split(zero, '.') == ["0"];
  }

  /** `(v + ".0")` parses to `v`'s components and one more 0. */
  lemma VersionPartsAppendZero(v: string)
    ensures VersionParts(v).None? ==> VersionParts(v + ".0").None?
    ensures VersionParts(v).Some? ==> VersionParts(v + ".0") == Some(VersionParts(v).value + [0])
  {
    SplitAppendZero(v);
    ParseDigits("0");
    var pieces := Split(v, '.');
    assert Parsed(pieces + ["0"]) == Parsed(pieces) + [Some(0)];
    AllParsedAppend(Parsed(pieces), 0);
  }

  /** Version strings compare as their zero-extended component lists:
      "1.0" and "1.0.0" are the same version. */
  lemma TrailingZeroComponent(v: string, w: string)
    ensures VersionCompare(v + ".0", w) == VersionCompare(v, w)
  {
    VersionPartsAppendZero(v);
    if VersionParts(v).Some? && VersionParts(w).Some? {
      CompareTrailingZero(VersionParts(v).value, VersionParts(w).value);
    }
  }

  /** Every version equals itself, also an unparsable one. */
  lemma VersionReflexive(v: string)
    ensures VersionCompare(v, v) == 0
  {
    if VersionParts(v).Some? {
      var a := VersionParts(v).value;
      LexZeroIffEqual(Padded(a, |a|), Padded(a, |a|));
    }
  }

  /** Swapping the versions negates the result. */
  lemma VersionAntisymmetric(v: string, w: string)
    ensures VersionCompare(v, w) == -VersionCompare(w, v)
  {
    if VersionParts(v).Some? && VersionParts(w).Some? {
      var a, b := VersionParts(v).value, VersionParts(w).value;
      assert Max(|a|, |b|) == Max(|b|, |a|);
      LexAntisymmetric(Padded(a, Max(|a|, |b|)), Padded(b, Max(|a|, |b|)));
    }
  }

  /* ---------------- check_for_updates ---------------- */

  /** What the HTTP round trip produced: `requests.get` raised, or a reply
      with its status code and the result of `response.json()` (None when
      that raised). */
  datatype Response =
    | RequestRaised
    | Reply(statusCode: int, body: Option<Value>)

  /** `name.endswith('.exe') or name.endswith('.zip')` */
  predicate IsInstallerName(name: string) {
    EndsWith(name, ".exe") || EndsWith(name, ".zip")
  }

  /** How the `for asset in assets` loop ends. `AssetRaised` is an
      exception inside the loop; `releaseSet` says whether
      `latest_release` had already been assigned when it was raised. */
  datatype AssetScan =
    | NoInstaller
    | Installer(url: Value)
    | AssetRaised(releaseSet: bool)

  /** An asset the loop passes over: a dictionary whose string name is not
      an installer's. */
  predicate Skipped(asset: Value) {
    asset.Dict? && "name" in asset.entries && asset.entries["name"].Str?
    && !IsInstallerName(asset.entries["name"].s)
  }

  /** An asset the loop stops at with success. */
  predicate Chosen(asset: Value) {
    asset.Dict? && "name" in asset.entries && asset.entries["name"].Str?
    && IsInstallerName(asset.entries["name"].s) && "browser_download_url" in asset.entries
  }

  /** The loop over a list of assets. */
  function ScanAssets(assets: seq<Value>): AssetScan {
    if assets == [] then NoInstaller
    else
      var asset := assets[0];
      if !asset.Dict? || "name" !in asset.entries || !asset.entries["name"].Str? then AssetRaised(false)
      else if IsInstallerName(asset.entries["name"].s) then
        if "browser_download_url" in asset.entries then Installer(asset.entries["browser_download_url"])
        else AssetRaised(true)
      else ScanAssets(assets[1..])
  }

  /** The loop over whatever `release_data.get('assets', [])` is: a
      dictionary or a string is iterated (its keys or characters cannot be
      indexed by 'name'), anything else is not iterable. */
  function AssetsOf(assets: Value): AssetScan {
    match assets
    case List(xs) => ScanAssets(xs)
    case Dict(m) => if m == map[] then NoInstaller else AssetRaised(false)
    case Str(s) => if s == [] then NoInstaller else AssetRaised(false)
    case _ => AssetRaised(false)
  }

  /** The loop picks the first asset with an installer name, after only
      skipped ones, and its download URL. */
  lemma {:induction false} FirstInstallerChosen(assets: seq<Value>, url: Value)
    ensures ScanAssets(assets) == Installer(url) <==>
      exists i :: 0 <= i < |assets| && Chosen(assets[i]) && assets[i].entries["browser_download_url"] == url
        && forall j :: 0 <= j < i ==> Skipped(assets[j])
  {
    if assets != [] {
      FirstInstallerChosen(assets[1..], url);
      if ScanAssets(assets) == Installer(url) && !Chosen(assets[0]) {
        var i :| 0 <= i < |assets[1..]| && Chosen(assets[1..][i]) && assets[1..][i].entries["browser_download_url"] == url
          && forall j :: 0 <= j < i ==> Skipped(assets[1..][j]);
        assert forall j :: 0 <= j < i + 1 ==> Skipped(assets[j]) by {
          forall j | 0 <= j < i + 1 ensures Skipped(assets[j]) {
            if j > 0 {
              assert assets[j] == assets[1..][j - 1];
            }
          }
        }
        assert Chosen(assets[i + 1]);
      }
      if exists i :: 0 <= i < |assets| && Chosen(assets[i]) && assets[i].entries["browser_download_url"] == url
          && forall j :: 0 <= j < i ==> Skipped(assets[j]) {
        var i :| 0 <= i < |assets| && Chosen(assets[i]) && assets[i].entries["browser_download_url"] == url
          && forall j :: 0 <= j < i ==> Skipped(assets[j]);
        if i > 0 {
          assert Skipped(assets[0]);
          assert forall j :: 0 <= j < i - 1 ==> Skipped(assets[1..][j]) by {
            forall j | 0 <= j < i - 1 ensures Skipped(assets[1..][j]) {
              assert assets[1..][j] == assets[j + 1];
            }
          }
          assert assets[1..][i - 1] == assets[i];
        }
      }
    }
  }

  /** The loop finds nothing exactly when every asset is skipped. */
  lemma {:induction false} NoInstallerIffAllSkipped(assets: seq<Value>)
    ensures ScanAssets(assets) == NoInstaller <==> forall i :: 0 <= i < |assets| ==> Skipped(assets[i])
  {
    if assets != [] {
      NoInstallerIffAllSkipped(assets[1..]);
      if forall i :: 0 <= i < |assets[1..]| ==> Skipped(assets[1..][i]) {
        if Skipped(assets[0]) {
          assert forall i :: 0 <= i < |assets| ==> Skipped(assets[i]) by {
            forall i | 0 <= i < |assets| ensures Skipped(assets[i]) {
              if i > 0 {
                assert assets[i] == assets[1..][i - 1];
              }
            }
          }
        }
      } else {
        var i :| 0 <= i < |assets[1..]| && !Skipped(assets[1..][i]);
        assert assets[1..][i] == assets[i + 1];
      }
    }
  }

  /** What one call of `check_for_updates` decides. `NoUpdate` returns
      False; `recorded` is the release data when `latest_release` was
      assigned before an exception. `Update` returns True after setting
      both fields and emitting `update_available(version, url)`. */
  datatype CheckOutcome =
    | NoUpdate(recorded: Option<Value>)
    | Update(version: string, release: Value, url: Value)
  {
    /** `latest_release` afterwards */
    function Release(before: Value): Value {
      match this
      case Update(_, release, _) => release
      case NoUpdate(recorded) => recorded.GetOr(before)
    }

    /** `update_download_url` afterwards */
    function Url(before: Value): Value {
      if Update? then url else before
    }

    /** the `update_available` emissions */
    function Announced(): seq<(string, Value)> {
      if Update? then [(version, url)] else []
    }
  }

  /** `release_data.get('tag_name', '').lstrip('v')`; None when the tag is
      not a string (`lstrip` raises). */
  function LatestVersion(data: Dict): (r: Option<string>)
    ensures r.Some? && r.value != [] ==> "tag_name" in data && data["tag_name"].Str?
    ensures r.Some? ==> GetOr(data, "tag_name", Str("")).Str? && r.value == LStripChar(GetOr(data, "tag_name", Str("")).s, 'v')
  {
    var tag := GetOr(data, "tag_name", Str(""));
    if tag.Str? then Some(LStripChar(tag.s, 'v')) else None
  }

  /** `latest_release['tag_name']`: the release's raw tag, 'v' included. */
  function RawTag(release: Value): Value {
    if release.Dict? && "tag_name" in release.entries then release.entries["tag_name"] else Null
  }

  /** The end of `check_for_updates` for a newer version `latest`: what the
      asset loop found decides. */
  function Offer(latest: string, release: Value, scan: AssetScan): (r: CheckOutcome)
    ensures r.Update? <==> scan.Installer?
    ensures r.Update? ==> r == Update(latest, release, scan.url)
    ensures r.NoUpdate? && r.recorded.Some? <==> scan == AssetRaised(true)
    ensures r.NoUpdate? && r.recorded.Some? ==> r.recorded.value == release
  {
    match scan
    case NoInstaller => NoUpdate(None)
    case AssetRaised(releaseSet) => NoUpdate(if releaseSet then Some(release) else None)
    case Installer(url) => Update(latest, release, url)
  }

  /** `check_for_updates` once the stripped tag `latest` is known: an
      update is offered exactly for a non-empty tag that is a newer version
      than `current` and whose release lists an installer; an empty or
      not newer tag records nothing. */
  function CheckVersion(current: string, latest: string, release: Value): (r: CheckOutcome)
    requires release.Dict?
    ensures r.Update? ==> r.version == latest && latest != [] && VersionCompare(latest, current) == 1
    ensures r.Update? ==> r.release == release
    ensures r.NoUpdate? && r.recorded.Some? ==> r.recorded.value == release
    ensures r.Update? <==>
      (latest != [] && VersionCompare(latest, current) == 1
       && AssetsOf(GetOr(release.entries, "assets", List([]))).Installer?)
    ensures latest != [] && VersionCompare(latest, current) == 1 ==>
      r == Offer(latest, release, AssetsOf(GetOr(release.entries, "assets", List([]))))
    ensures latest == [] || VersionCompare(latest, current) != 1 ==> r == NoUpdate(None)
  {
    if latest == [] || VersionCompare(latest, current) <= 0 then NoUpdate(None)
    else Offer(latest, release, AssetsOf(GetOr(release.entries, "assets", List([]))))
  }

  /** `check_for_updates` once `response.json()` gave the dictionary
      `release`. The version offered is the release's raw tag with its
      leading 'v's stripped. */
  function CheckRelease(current: string, release: Value): (r: CheckOutcome)
    requires release.Dict?
    ensures r.Update? ==> LatestVersion(release.entries) == Some(r.version)
    ensures r.Update? ==> VersionCompare(r.version, current) == 1 && r.release == release
    ensures r.Update? ==> RawTag(release).Str? && LStripChar(RawTag(release).s, 'v') == r.version
    ensures r.NoUpdate? && r.recorded.Some? ==> r.recorded.value == release
  {
    match LatestVersion(release.entries)
    case None => NoUpdate(None)
    case Some(latest) => CheckVersion(current, latest, release)
  }

  /** The decision `check_for_updates` takes against `current`: nothing
      but an OK reply whose body is a dictionary gets past the first
      checks. */
  function Check(current: string, response: Response): (r: CheckOutcome)
    ensures !(response.Reply? && response.statusCode == 200 && response.body.Some? && response.body.value.Dict?)
      ==> r == NoUpdate(None)
    ensures r.Update? ==> response.body == Some(r.release)
  {
    if response.Reply? && response.statusCode == 200 && response.body.Some? && response.body.value.Dict? then
      CheckRelease(current, response.body.value)
    else NoUpdate(None)
  }

  /** A tag that is empty once its leading 'v's are stripped ("", "v",
      "vv", ...) never yields an update and leaves both fields alone. */
  lemma EmptyTagNoUpdate(current: string, release: Value, tag: string)
    requires release.Dict? && GetOr(release.entries, "tag_name", Str("")) == Str(tag)
    requires forall i :: 0 <= i < |tag| ==> tag[i] == 'v'
    ensures CheckRelease(current, release) == NoUpdate(None)
  {
    LStripOnly(tag, 'v');
  }

  /** Stripping a character from a string made only of it leaves nothing. */
  lemma {:induction false} LStripOnly(s: string, c: char)
    requires forall i :: 0 <= i < |s| ==> s[i] == c
    ensures LStripChar(s, c) == []
  {
    if s != [] {
      LStripOnly(s[1..], c);
    }
  }

  /** A newer release with no installer among its listed assets returns
      False and leaves both fields alone. */
  lemma NoAssetNoUpdate(current: string, release: Value, assets: seq<Value>)
    requires release.Dict? && GetOr(release.entries, "assets", List([])) == List(assets)
    requires forall i :: 0 <= i < |assets| ==> Skipped(assets[i])
    ensures CheckRelease(current, release) == NoUpdate(None)
  {
    NoInstallerIffAllSkipped(assets);
  }

  /** `GitHubReleaseManager`: the two fields `check_for_updates` assigns,
      and the `update_available` emissions. */
  class GitHubReleaseManager {
    var latestRelease: Value
    var updateDownloadUrl: Value
    var announced: seq<(string, Value)>

    constructor ()
      ensures latestRelease == Null && updateDownloadUrl == Null && announced == []
    {
      latestRelease := Null;
      updateDownloadUrl := Null;
      announced := [];
    }

    /** The `for asset in assets` loop over a list, once the release is
        known to be newer. */
    method ScanForInstaller(release: Value, latest: string, assets: seq<Value>) returns (found: bool)
      modifies this
      ensures found == Offer(latest, release, ScanAssets(assets)).Update?
      ensures latestRelease == Offer(latest, release, ScanAssets(assets)).Release(old(latestRelease))
      ensures updateDownloadUrl == Offer(latest, release, ScanAssets(assets)).Url(old(updateDownloadUrl))
      ensures announced == old(announced) + Offer(latest, release, ScanAssets(assets)).Announced()
    {
      var i := 0;
      while i < |assets|
        invariant 0 <= i <= |assets|
        invariant ScanAssets(assets[i..]) == ScanAssets(assets)
        invariant unchanged(this)
      {
        assert assets[i..][0] == assets[i] && assets[i..][1..] == assets[i + 1..];
        var asset := assets[i];
        if !asset.Dict? || "name" !in asset.entries || !asset.entries["name"].Str? {
          return false;
        }
        var name := asset.entries["name"].s;
        if EndsWith(name, ".exe") || EndsWith(name, ".zip") {
          latestRelease := release;
          if "browser_download_url" !in asset.entries {
            return false;
          }
          var url := asset.entries["browser_download_url"];
          updateDownloadUrl := url;
          announced := announced + [(latest, url)];
          return true;
        }
        i := i + 1;
      }
      return false;
    }

    /** The loop over whatever `release_data.get('assets', [])` is. */
    method ScanAssetValue(release: Value, latest: string, assets: Value) returns (found: bool)
      modifies this
      ensures found == Offer(latest, release, AssetsOf(assets)).Update?
      ensures latestRelease == Offer(latest, release, AssetsOf(assets)).Release(old(latestRelease))
      ensures updateDownloadUrl == Offer(latest, release, AssetsOf(assets)).Url(old(updateDownloadUrl))
      ensures announced == old(announced) + Offer(latest, release, AssetsOf(assets)).Announced()
    {
      if assets.List? {
        found := ScanForInstaller(release, latest, assets.items);
      } else {
        found := false;
      }
    }

    /** `check_for_updates()` after the reply parsed to `releaseData`. */
    method CheckParsedRelease(releaseData: Value) returns (found: bool)
      requires releaseData.Dict?
      modifies this
      ensures found == CheckRelease(CurrentVersion, releaseData).Update?
      ensures latestRelease == CheckRelease(CurrentVersion, releaseData).Release(old(latestRelease))
      ensures updateDownloadUrl == CheckRelease(CurrentVersion, releaseData).Url(old(updateDownloadUrl))
      ensures announced == old(announced) + CheckRelease(CurrentVersion, releaseData).Announced()
    {
      var tag := GetOr(releaseData.entries, "tag_name", Str(""));
      if !tag.Str? {
        return false;
      }
      var latestVersion := LStripChar(tag.s, 'v');
      found := CheckNewer(releaseData, latestVersion);
    }

    /** The rest of `check_for_updates()` once the tag is stripped. */
    method CheckNewer(releaseData: Value, latestVersion: string) returns (found: bool)
      requires releaseData.Dict?
      modifies this
      ensures found == CheckVersion(CurrentVersion, latestVersion, releaseData).Update?
      ensures latestRelease == CheckVersion(CurrentVersion, latestVersion, releaseData).Release(old(latestRelease))
      ensures updateDownloadUrl == CheckVersion(CurrentVersion, latestVersion, releaseData).Url(old(updateDownloadUrl))
      ensures announced == old(announced) + CheckVersion(CurrentVersion, latestVersion, releaseData).Announced()
    {
      if latestVersion == [] {
        return false;
      }
      var order := CompareVersions(latestVersion, CurrentVersion);
      if order > 0 {
        found := ScanAssetValue(releaseData, latestVersion, GetOr(releaseData.entries, "assets", List([])));
        return found;
      }
      return false;
    }

    /** `check_for_updates()` */
    method CheckForUpdates(response: Response) returns (found: bool)
      modifies this
      ensures found == Check(CurrentVersion, response).Update?
      ensures latestRelease == Check(CurrentVersion, response).Release(old(latestRelease))
      ensures updateDownloadUrl == Check(CurrentVersion, response).Url(old(updateDownloadUrl))
      ensures announced == old(announced) + Check(CurrentVersion, response).Announced()
    {
      if response.RequestRaised? || response.statusCode != 200 || response.body.None? || !response.body.value.Dict? {
        return false;
      }
      found := CheckParsedRelease(response.body.value);
    }
  }

  /** `download_update`'s local file name for a download URL. */
  function UpdateFileName(downloadUrl: string): string {
    if EndsWith(downloadUrl, ".zip") then "update.zip" else "update.exe"
  }

  /** The downloaded file is extracted (its suffix is ".zip") exactly when
      the URL ends in ".zip"; otherwise it is saved as an executable. */
  lemma ExtractedIffZipUrl(downloadUrl: string)
    ensures EndsWith(UpdateFileName(downloadUrl), ".zip") <==> EndsWith(downloadUrl, ".zip")
    ensures !EndsWith(downloadUrl, ".zip") ==> EndsWith(UpdateFileName(downloadUrl), ".exe")
  {
    if !EndsWith(downloadUrl, ".zip") {
      assert "update.exe"[6..] == ".exe";
      assert "update.exe"[6..] != ".zip" by {
        assert "update.exe"[7] != ".zip"[1];
      }
    } else {
      assert "update.zip"[6..] == ".zip";
    }
  }

  /** The signals `UpdateCheckerThread.run` emits. */
  datatype CheckerEvent = CheckCompleted(success: bool) | UpdateFound(tag: Value, url: Value)

  /** What the thread emits after a check with outcome `o`: always
      `check_completed(True)` first, then `update_found` with the raw tag
      and the URL when there is an update. */
  function CheckerEvents(o: CheckOutcome): (r: seq<CheckerEvent>)
    ensures r != [] && r[0] == CheckCompleted(true)
    ensures |r| == 2 <==> o.Update?
    ensures |r| <= 2
    ensures o.Update? ==> r[1] == UpdateFound(RawTag(o.release), o.url)
  {
    [CheckCompleted(true)] + (if o.Update? then [UpdateFound(RawTag(o.release), o.url)] else [])
  }

  class UpdateCheckerThread {
    const releaseManager: GitHubReleaseManager
    var events: seq<CheckerEvent>

    constructor (releaseManager: GitHubReleaseManager)
      ensures this.releaseManager == releaseManager && events == []
    {
      this.releaseManager := releaseManager;
      events := [];
    }

    /** `run()`; the `except` branch is unreachable because
        `check_for_updates` catches every exception itself. */
    method Run(response: Response)
      modifies this, releaseManager
      ensures events == old(events) + CheckerEvents(Check(CurrentVersion, response))
      ensures releaseManager.latestRelease == Check(CurrentVersion, response).Release(old(releaseManager.latestRelease))
      ensures releaseManager.updateDownloadUrl == Check(CurrentVersion, response).Url(old(releaseManager.updateDownloadUrl))
      ensures releaseManager.announced == old(releaseManager.announced) + Check(CurrentVersion, response).Announced()
    {
      var hasUpdate := releaseManager.CheckForUpdates(response);
      events := events + [CheckCompleted(true)];
      if hasUpdate {
        events := events + [UpdateFound(RawTag(releaseManager.latestRelease), releaseManager.updateDownloadUrl)];
      }
    }
  }
}
