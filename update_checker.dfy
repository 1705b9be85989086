/**
 * The update checker's decisions (frontend/src/utils/updateChecker.js):
 * which release asset to offer for download, the list of versions the
 * user dismissed, and the rule that only a strictly newer release is
 * reported. The HTTP request and AsyncStorage calls are replaced by their
 * results, passed in as parameters or held in an object.
 */
module UpdateChecker {
  import opened JsNumber
  import VersionConfig

  datatype Asset = Asset(name: string, browserDownloadUrl: string)

  /** The fields of a GitHub release the checker reads (a missing `assets` array is empty). */
  datatype Release = Release(
    tagName: string,
    name: Option<string>,
    body: Option<string>,
    htmlUrl: string,
    publishedAt: string,
    assets: seq<Asset>)

  // ---------------------------------------------------------------------------
  // Download asset selection
  // ---------------------------------------------------------------------------

  /** `toLowerCase` on ASCII letters. */
  function LowerChar(c: char): char
  {
    if 'A' <= c <= 'Z' then (c as int + 32) as char else c
  }

  function Lower(s: string): (t: string)
    ensures |t| == |s|
    ensures forall i :: 0 <= i < |s| ==> t[i] == LowerChar(s[i])
  {
    if s == [] then [] else [LowerChar(s[0])] + Lower(s[1..])
  }

  predicate EndsWith(s: string, suffix: string)
  {
    |suffix| <= |s| && s[|s| - |suffix|..] == suffix
  }

  predicate HasExtension(a: Asset, ext: string)
  {
    EndsWith(Lower(a.name), ext)
  }

  /** `assets.find(asset => asset.name.toLowerCase().endsWith(ext))`, from index `from`, as an index. */
  function FindFrom(assets: seq<Asset>, ext: string, from: nat): (r: Option<nat>)
    requires from <= |assets|
    ensures r.Some? ==> from <= r.value < |assets| && HasExtension(assets[r.value], ext)
                        && forall j :: from <= j < r.value ==> !HasExtension(assets[j], ext)
    ensures r.None? ==> forall j :: from <= j < |assets| ==> !HasExtension(assets[j], ext)
    decreases |assets| - from
  {
    if from == |assets| then None
    else if HasExtension(assets[from], ext) then Some(from)
    else FindFrom(assets, ext, from + 1)
  }

  function Find(assets: seq<Asset>, ext: string): (r: Option<nat>)
    ensures r.Some? ==> r.value < |assets| && HasExtension(assets[r.value], ext)
                        && forall j :: 0 <= j < r.value ==> !HasExtension(assets[j], ext)
    ensures r.None? ==> forall j :: 0 <= j < |assets| ==> !HasExtension(assets[j], ext)
  {
    FindFrom(assets, ext, 0)
  }

  /** `getDownloadUrl`: the first .apk asset, else the first .ipa asset, else the first asset, else the release page. */
  function GetDownloadUrl(release: Release): (url: string)
    ensures release.assets == [] ==> url == release.htmlUrl
    ensures release.assets != [] ==> exists i :: 0 <= i < |release.assets| && url == release.assets[i].browserDownloadUrl
  {
    var assets := release.assets;
    if |assets| > 0 then
      match Find(assets, ".apk")
      case Some(i) => assets[i].browserDownloadUrl
      case None =>
        match Find(assets, ".ipa")
        case Some(j) => assets[j].browserDownloadUrl
        case None => assets[0].browserDownloadUrl
    else release.htmlUrl
  }

  /** An Android package wins: the first asset whose name ends in ".apk", in any letter case. */
  lemma ApkPreferred(release: Release, i: nat)
    requires i < |release.assets| && HasExtension(release.assets[i], ".apk")
    requires forall j :: 0 <= j < i ==> !HasExtension(release.assets[j], ".apk")
    ensures GetDownloadUrl(release) == release.assets[i].browserDownloadUrl
  {
    var r := Find(release.assets, ".apk");
    assert r.Some?;
    assert r.value == i by {
      if r.value < i {
      } else if r.value > i {
      }
    }
  }

  /** Without an .apk asset, the first .ipa asset is offered. */
  lemma IpaNext(release: Release, i: nat)
    requires forall j :: 0 <= j < |release.assets| ==> !HasExtension(release.assets[j], ".apk")
    requires i < |release.assets| && HasExtension(release.assets[i], ".ipa")
    requires forall j :: 0 <= j < i ==> !HasExtension(release.assets[j], ".ipa")
    ensures GetDownloadUrl(release) == release.assets[i].browserDownloadUrl
  {
    var r := Find(release.assets, ".ipa");
    assert r.Some?;
    assert r.value == i by {
      if r.value < i {
      } else if r.value > i {
      }
    }
  }

  /** With neither, the first asset is offered. */
  lemma FirstAssetOtherwise(release: Release)
    requires release.assets != []
    requires forall j :: 0 <= j < |release.assets| ==>
      !HasExtension(release.assets[j], ".apk") && !HasExtension(release.assets[j], ".ipa")
    ensures GetDownloadUrl(release) == release.assets[0].browserDownloadUrl
  {
  }

  /**
   * The extension test ignores letter case: a name ending in any spelling of
   * the extension that lower-cases to it ("App.APK", "App.Apk") counts.
   */
  lemma ExtensionIgnoresCase(name: string, spelling: string, url: string, ext: string)
    requires Lower(spelling) == ext
    ensures HasExtension(Asset(name + spelling, url), ext)
  {
    var t := Lower(name + spelling);
    assert t[|t| - |ext|..] == ext by {
      forall i | 0 <= i < |ext|
        ensures t[|t| - |ext|..][i] == ext[i]
      {
        assert (name + spelling)[|name| + i] == spelling[i];
      }
    }
  }

  // ---------------------------------------------------------------------------
  // Dismissed versions
  // ---------------------------------------------------------------------------

  predicate NoDuplicates(s: seq<string>)
  {
    forall i, j :: 0 <= i < j < |s| ==> s[i] != s[j]
  }

  /** The stored list of dismissed versions; nothing stored reads as the empty list. */
  class DismissedUpdates {
    var versions: seq<string>

    constructor ()
      ensures versions == []
    {
      versions := [];
    }

    /** `isUpdateDismissed`. */
    predicate IsUpdateDismissed(version: string)
      reads this
      ensures IsUpdateDismissed(version) <==> exists i :: 0 <= i < |versions| && versions[i] == version
    {
      version in versions
    }

    /** `dismissUpdate`: appends the version only when it is not in the list yet. */
    method DismissUpdate(version: string)
      modifies this
      ensures versions == if version in old(versions) then old(versions) else old(versions) + [version]
      ensures IsUpdateDismissed(version)
      ensures NoDuplicates(old(versions)) ==> NoDuplicates(versions)
      ensures version in old(versions) ==> versions == old(versions)
    {
      if version !in versions {
        versions := versions + [version];
      }
    }

    /** `clearDismissedUpdates`. */
    method ClearDismissedUpdates()
      modifies this
      ensures versions == []
      ensures forall v :: !IsUpdateDismissed(v)
    {
      versions := [];
    }
  }

  // ---------------------------------------------------------------------------
  // Reporting an update
  // ---------------------------------------------------------------------------

  datatype UpdateInfo = UpdateInfo(
    latestVersion: string,
    currentVersion: string,
    downloadUrl: string,
    releaseNotes: string,
    releaseName: string,
    publishedAt: string)

  /** Whether a release tag names a version strictly newer than `current`. */
  predicate IsNewer(tag: string, current: string)
  {
    VersionConfig.Cmp(VersionConfig.Normalize(VersionConfig.StripV(tag)), VersionConfig.Normalize(current)) == 1
  }

  /**
   * The decision part of `checkForUpdates`. `due` is the interval test;
   * `latest` is the release the request returned, None when it failed or
   * returned nothing. An update is reported only for a strictly newer
   * version.
   */
  method CheckForUpdates(due: bool, latest: Option<Release>) returns (info: Option<UpdateInfo>)
    ensures info.Some? <==> due && latest.Some? && IsNewer(latest.value.tagName, VersionConfig.APP_VERSION)
    ensures info.Some? ==>
      var release := latest.value;
      var version := VersionConfig.StripV(release.tagName);
      info.value == UpdateInfo(version, VersionConfig.APP_VERSION, GetDownloadUrl(release),
                               OrDefaultText(release.body, "No release notes available"),
                               OrDefaultText(release.name, "Version " + version),
                               release.publishedAt)
  {
    if !due {
      return None;
    }
    if latest.None? {
      return None;
    }
    var release := latest.value;
    var latestVersion := VersionConfig.StripV(release.tagName);
    var currentVersion := VersionConfig.APP_VERSION;
    var comparison := VersionConfig.CompareVersions(latestVersion, currentVersion);
    if comparison > 0 {
      info := Some(UpdateInfo(latestVersion, currentVersion, GetDownloadUrl(release),
                              OrDefaultText(release.body, "No release notes available"),
                              OrDefaultText(release.name, "Version " + latestVersion),
                              release.publishedAt));
    } else {
      info := None;
    }
  }

  /** A release tagged with the running version, with or without its 'v', is not an update. */
  lemma SameVersionNotNewer(tag: string, current: string)
    requires VersionConfig.StripV(tag) == current
    ensures !IsNewer(tag, current)
  {
    VersionConfig.CmpReflexive(VersionConfig.Normalize(current));
  }

  /** Newer-only is asymmetric: when the release is newer, the running version is not newer than it. */
  lemma NewerIsAsymmetric(tag: string, current: string)
    requires IsNewer(tag, current)
    ensures VersionConfig.Cmp(VersionConfig.Normalize(current), VersionConfig.Normalize(VersionConfig.StripV(tag))) == -1
  {
    VersionConfig.CmpAntisymmetric(VersionConfig.Normalize(VersionConfig.StripV(tag)), VersionConfig.Normalize(current));
  }
}
