/**
 * `get_chrome_extensions`: profile directories under the Chrome user-data directory,
 * `Extensions/<id>/<version>/manifest.json` under each, one record per manifest
 * that decodes to an object.
 */
module ChromeScan {
  import opened Base
  import opened Json
  import opened FileTree
  import opened Records

  /** `AppData/Local/Google/Chrome/User Data` under the home directory. */
  const BasePath: seq<string> := ["AppData", "Local", "Google", "Chrome", "User Data"]

  predicate StartsWith(s: string, prefix: string) {
    |prefix| <= |s| && s[..|prefix|] == prefix
  }

  /** The profile test of the list comprehension over the user-data directory. */
  predicate IsProfile(e: Entry) {
    e.node.Dir? && (StartsWith(e.name, "Profile") || e.name == "Default")
  }

  /** The profiles list: the listing filtered by `IsProfile`, order kept. */
  function Profiles(entries: seq<Entry>): (r: seq<Entry>)
    ensures forall e :: e in r <==> e in entries && IsProfile(e)
    ensures |r| <= |entries|
  {
    Select(IsProfile, entries)
  }

  /** What `version_dir / "manifest.json"` gives the `try` block. */
  datatype Manifest =
    | Absent                                      // `exists()` is false: skipped silently
    | Unreadable                                  // open, decode or `.get` raises: one diagnostic
    | Decoded(members: seq<(string, Value)>)      // a JSON object: one record

  function ReadManifest(decode: Decoder, versionDir: Node): (m: Manifest)
    ensures m.Absent? <==> Join(versionDir, "manifest.json").None?
    ensures !m.Absent? ==> versionDir.Dir?
    ensures m.Decoded? <==> && Join(versionDir, "manifest.json").Some?
                            && Join(versionDir, "manifest.json").value.File?
                            && decode(Join(versionDir, "manifest.json").value.content).Some?
                            && decode(Join(versionDir, "manifest.json").value.content).value.Object?
    ensures m.Decoded? ==> decode(Join(versionDir, "manifest.json").value.content) == Some(Object(m.members))
  {
    match Join(versionDir, "manifest.json")
    case None => Absent
    case Some(Dir(_)) => Unreadable
    case Some(File(text)) =>
      match decode(text)
      case Some(Object(members)) => Decoded(members)
      case _ => Unreadable
  }

  /** The record appended for a manifest object. */
  function ManifestRecord(members: seq<(string, Value)>): (r: Record)
    ensures r.browser == Chrome
  {
    Record(Chrome,
           GetOr(members, "name", Unknown),
           GetOr(members, "version", Unknown),
           GetOr(members, "description", NoDescription))
  }

  /** One pass of the innermost loop, over version directory `version` of extension `ext`. */
  function VisitVersion(decode: Decoder, profile: string, ext: string, version: Entry): (r: Scan)
    ensures Join(version.node, "manifest.json").None? ==> r == Empty
    ensures version.node.File? ==> r == Empty
    ensures forall d :: d in r.log ==> d == ManifestUnreadable(profile, ext, version.name)
    ensures forall rec :: rec in r.records ==>
              ReadManifest(decode, version.node).Decoded? && rec == ManifestRecord(ReadManifest(decode, version.node).members)
  {
    match ReadManifest(decode, version.node)
    case Absent => Empty
    case Unreadable => Scan([], [ManifestUnreadable(profile, ext, version.name)])
    case Decoded(members) => Scan([ManifestRecord(members)], [])
  }

  function VersionStep(decode: Decoder, profile: string, ext: string): Entry -> Scan {
    v => VisitVersion(decode, profile, ext, v)
  }

  /** The innermost loop, over the listing of one extension directory. */
  function ScanVersions(decode: Decoder, profile: string, ext: string, versions: seq<Entry>): (r: Scan)
    ensures forall d :: d in r.log ==> d.ManifestUnreadable? && d.profile == profile && d.extension == ext
  {
    ConcatLogs(VersionStep(decode, profile, ext), versions,
               (d: Diagnostic) => d.ManifestUnreadable? && d.profile == profile && d.extension == ext);
    Concat(VersionStep(decode, profile, ext), versions)
  }

  /** One pass of the middle loop: `ext.iterdir()` raises unless `ext` is a directory. */
  function ScanExtension(decode: Decoder, profile: string, ext: Entry): (r: Result<Scan, Fault>)
    ensures r.Failure? <==> ext.node.File?
    ensures r.Failure? ==> r.error == ExtensionNotDirectory(profile, ext.name)
  {
    match ext.node
    case File(_) => Failure(ExtensionNotDirectory(profile, ext.name))
    case Dir(versions) => Success(ScanVersions(decode, profile, ext.name, versions))
  }

  function ExtensionStep(decode: Decoder, profile: string): Entry -> Result<Scan, Fault> {
    x => ScanExtension(decode, profile, x)
  }

  /**
   * Whether scanning a profile raises: its `Extensions` exists and is a plain file,
   * or lists a plain file.
   */
  predicate ExtensionsRaise(profile: Entry) {
    match Join(profile.node, "Extensions")
    case None => false
    case Some(File(_)) => true
    case Some(Dir(exts)) => exists i :: 0 <= i < |exts| && exts[i].node.File?
  }

  /** One pass of the outer loop: the `Extensions` directory of one profile, if it exists. */
  function ScanProfile(decode: Decoder, profile: Entry): (r: Result<Scan, Fault>)
    ensures r.Failure? <==> ExtensionsRaise(profile)
    ensures Join(profile.node, "Extensions").None? ==> r == Success(Empty)
    ensures Join(profile.node, "Extensions").Some? && Join(profile.node, "Extensions").value.File? ==>
              r == Failure(ExtensionsNotDirectory(profile.name))
    ensures Join(profile.node, "Extensions").Some? && Join(profile.node, "Extensions").value.Dir? && r.Failure? ==>
              var exts := Join(profile.node, "Extensions").value.entries;
              exists i :: && 0 <= i < |exts| && exts[i].node.File?
                          && r.error == ExtensionNotDirectory(profile.name, exts[i].name)
                          && forall j :: 0 <= j < i ==> exts[j].node.Dir?
  {
    match Join(profile.node, "Extensions")
    case None => Success(Empty)
    case Some(File(_)) => Failure(ExtensionsNotDirectory(profile.name))
    case Some(Dir(exts)) => ConcatOrFail(ExtensionStep(decode, profile.name), exts)
  }

  function ProfileStep(decode: Decoder): Entry -> Result<Scan, Fault> {
    p => ScanProfile(decode, p)
  }

  /** The outer loop, over the selected profiles. */
  function ScanProfiles(decode: Decoder, profiles: seq<Entry>): (r: Result<Scan, Fault>)
    ensures r.Failure? <==> exists i :: 0 <= i < |profiles| && ExtensionsRaise(profiles[i])
    ensures r.Failure? ==> exists i :: && 0 <= i < |profiles| && ExtensionsRaise(profiles[i])
                                       && r == ScanProfile(decode, profiles[i])
                                       && forall j :: 0 <= j < i ==> !ExtensionsRaise(profiles[j])
  {
    ConcatOrFail(ProfileStep(decode), profiles)
  }

  /**
   * `get_chrome_extensions()` run against home directory `home`. A missing user-data
   * directory is reported and yields nothing; the scan raises exactly when the
   * user-data directory is a plain file or a selected profile's `Extensions` raises.
   */
  function Extensions(decode: Decoder, home: Node): (r: Result<Scan, Fault>)
    ensures var base := Lookup(home, BasePath);
            && (base.None? ==> r == Success(Scan([], [ChromePathNotFound])))
            && (base.Some? && base.value.File? ==> r == Failure(ChromeBaseNotDirectory))
            && (r.Failure? <==>
                  && base.Some?
                  && (|| base.value.File?
                      || exists i :: && 0 <= i < |base.value.entries|
                                     && IsProfile(base.value.entries[i])
                                     && ExtensionsRaise(base.value.entries[i])))
  {
    match Lookup(home, BasePath)
    case None => Success(Scan([], [ChromePathNotFound]))
    case Some(File(_)) => Failure(ChromeBaseNotDirectory)
    case Some(Dir(entries)) =>
      ScanProfilesRaise(decode, entries);
      ScanProfiles(decode, Profiles(entries))
  }

  /** The loop over the selected profiles raises exactly when some selected profile's `Extensions` raises. */
  lemma ScanProfilesRaise(decode: Decoder, entries: seq<Entry>)
    ensures ScanProfiles(decode, Profiles(entries)).Failure? <==>
              exists i :: 0 <= i < |entries| && IsProfile(entries[i]) && ExtensionsRaise(entries[i])
  {
    var profiles := Profiles(entries);
    var step := ProfileStep(decode);
    if i :| 0 <= i < |entries| && IsProfile(entries[i]) && ExtensionsRaise(entries[i]) {
      assert entries[i] in profiles;
      var k :| 0 <= k < |profiles| && profiles[k] == entries[i];
      assert step(profiles[k]).Failure?;
    }
    if ScanProfiles(decode, profiles).Failure? {
      var k :| 0 <= k < |profiles| && step(profiles[k]).Failure?;
      assert profiles[k] in profiles;
      var i :| 0 <= i < |entries| && entries[i] == profiles[k];
      assert IsProfile(entries[i]) && ExtensionsRaise(entries[i]);
    }
  }

  /** The body of the innermost loop as written: append a record or print a diagnostic. */
  method CollectVersion(decode: Decoder, profile: string, ext: string, version: Entry,
                        records0: seq<Record>, log0: seq<Diagnostic>)
    returns (records: seq<Record>, log: seq<Diagnostic>)
    ensures Scan(records, log) == Scan(records0, log0).Then(VisitVersion(decode, profile, ext, version))
  {
    records, log := records0, log0;
    var manifestFile := Join(version.node, "manifest.json");
    if manifestFile.None? {
      ThenEmpty(Scan(records0, log0));
      return;
    }
    match manifestFile.value
    case Dir(_) =>
      log := log + [ManifestUnreadable(profile, ext, version.name)];
      assert records == records0 + [];
    case File(text) =>
      var manifest := decode(text);
      if manifest.Some? && manifest.value.Object? {
        records := records + [ManifestRecord(manifest.value.members)];
        assert log == log0 + [];
      } else {
        log := log + [ManifestUnreadable(profile, ext, version.name)];
        assert records == records0 + [];
      }
  }

  /** The innermost loop of `get_chrome_extensions` as written, over one extension's version directories. */
  method CollectVersions(decode: Decoder, profile: string, ext: string, versions: seq<Entry>,
                         records0: seq<Record>, log0: seq<Diagnostic>)
    returns (records: seq<Record>, log: seq<Diagnostic>)
    ensures Scan(records, log) == Scan(records0, log0).Then(ScanVersions(decode, profile, ext, versions))
  {
    records, log := records0, log0;
    var k := 0;
    while k < |versions|
      invariant k <= |versions|
      invariant Scan(records, log) == Scan(records0, log0).Then(ScanVersions(decode, profile, ext, versions[..k]))
    {
      ghost var done := ScanVersions(decode, profile, ext, versions[..k]);
      records, log := CollectVersion(decode, profile, ext, versions[k], records, log);
      ConcatSnoc(VersionStep(decode, profile, ext), versions, k);
      ThenAssociative(Scan(records0, log0), done, VisitVersion(decode, profile, ext, versions[k]));
      k := k + 1;
    }
    assert versions[..k] == versions;
  }

  /**
   * The middle loop for one profile: list `Extensions` if it exists and run the
   * innermost loop on each extension directory; the first `iterdir` that raises
   * ends the scan.
   */
  method CollectProfile(decode: Decoder, profile: Entry, records0: seq<Record>, log0: seq<Diagnostic>)
    returns (r: Result<Scan, Fault>)
    ensures ScanProfile(decode, profile).Failure? ==> r == ScanProfile(decode, profile)
    ensures ScanProfile(decode, profile).Success? ==>
              r == Success(Scan(records0, log0).Then(ScanProfile(decode, profile).value))
  {
    var extensionsDir := Join(profile.node, "Extensions");
    if extensionsDir.None? {
      ThenEmpty(Scan(records0, log0));
      return Success(Scan(records0, log0));
    }
    if extensionsDir.value.File? {
      return Failure(ExtensionsNotDirectory(profile.name));
    }
    var exts := extensionsDir.value.entries;
    var step := ExtensionStep(decode, profile.name);
    var records, log := records0, log0;
    var j := 0;
    while j < |exts|
      invariant j <= |exts|
      invariant ConcatOrFail(step, exts[..j]).Success?
      invariant Scan(records, log) == Scan(records0, log0).Then(ConcatOrFail(step, exts[..j]).value)
    {
      var ext := exts[j];
      if ext.node.File? {
        ConcatOrFailStopsAt(step, exts, j);
        return Failure(ExtensionNotDirectory(profile.name, ext.name));
      }
      ghost var before := ConcatOrFail(step, exts[..j]).value;
      records, log := CollectVersions(decode, profile.name, ext.name, ext.node.entries, records, log);
      ConcatOrFailSnoc(step, exts, j);
      ThenAssociative(Scan(records0, log0), before, ScanVersions(decode, profile.name, ext.name, ext.node.entries));
      j := j + 1;
    }
    assert exts[..j] == exts;
    return Success(Scan(records, log));
  }

  /** `get_chrome_extensions` as written: the outer loop over the selected profiles. */
  method Collect(decode: Decoder, home: Node) returns (r: Result<Scan, Fault>)
    ensures r == Extensions(decode, home)
  {
    var base := Lookup(home, BasePath);
    if base.None? {
      return Success(Scan([], [ChromePathNotFound]));
    }
    if base.value.File? {
      return Failure(ChromeBaseNotDirectory);
    }
    var profiles := Profiles(base.value.entries);
    var records: seq<Record> := [];
    var log: seq<Diagnostic> := [];
    var i := 0;
    while i < |profiles|
      invariant i <= |profiles|
      invariant ScanProfiles(decode, profiles[..i]) == Success(Scan(records, log))
    {
      var next := CollectProfile(decode, profiles[i], records, log);
      if next.Failure? {
        ConcatOrFailStopsAt(ProfileStep(decode), profiles, i);
        return next;
      }
      ConcatOrFailSnoc(ProfileStep(decode), profiles, i);
      records, log := next.value.records, next.value.log;
      i := i + 1;
    }
    assert profiles[..i] == profiles;
    return Success(Scan(records, log));
  }

  // ---------------------------------------------------------------------------
  // Properties

  /** What an entry of the user-data listing contributes: its scan if it is a profile, nothing otherwise. */
  function Contribution(decode: Decoder, e: Entry): Result<Scan, Fault>
  {
    if IsProfile(e) then ScanProfile(decode, e) else Success(Empty)
  }

  /**
   * An entry of the user-data directory is scanned if and only if it is a
   * directory named `Default` or starting with `Profile`; every other entry
   * contributes nothing and raises nothing.
   */
  lemma {:induction false} ProfileSelection(decode: Decoder, entries: seq<Entry>)
    ensures ScanProfiles(decode, Profiles(entries)) == ConcatOrFail(e => Contribution(decode, e), entries)
  {
    var f := ProfileStep(decode);
    var g := e => Contribution(decode, e);
    if |entries| > 0 {
      var head, tail := entries[0], entries[1..];
      assert entries == [head] + tail;
      ProfileSelection(decode, tail);
      SelectAppend(IsProfile, [head], tail);
      assert [head][1..] == [];
      assert Profiles([head]) == (if IsProfile(head) then [head] else []);
      ConcatOrFailAppend(f, Profiles([head]), Profiles(tail));
      ConcatOrFailAppend(g, [head], tail);
      ConcatOrFailSingle(g, head);
      if IsProfile(head) {
        ConcatOrFailSingle(f, head);
      } else {
        if ConcatOrFail(g, tail).Success? {
          ThenEmpty(ConcatOrFail(g, tail).value);
        }
      }
    }
  }

  /**
   * Each field of a manifest record is its default exactly when the key is absent
   * from the manifest; a present key's value, `null` included, is copied unchanged.
   */
  lemma ManifestRecordFields(members: seq<(string, Value)>)
    ensures !HasKey(members, "name") ==> ManifestRecord(members).name == Unknown
    ensures !HasKey(members, "version") ==> ManifestRecord(members).version == Unknown
    ensures !HasKey(members, "description") ==> ManifestRecord(members).description == NoDescription
    ensures forall i :: IsLastBinding(members, "name", i) ==> ManifestRecord(members).name == members[i].1
    ensures forall i :: IsLastBinding(members, "version", i) ==> ManifestRecord(members).version == members[i].1
    ensures forall i :: IsLastBinding(members, "description", i) ==> ManifestRecord(members).description == members[i].1
  {
  }

  /** One version directory contributes at most one record or one diagnostic, never both. */
  lemma VisitVersionAtMostOne(decode: Decoder, p: string, x: string, version: Entry)
    ensures |VisitVersion(decode, p, x, version).records| + |VisitVersion(decode, p, x, version).log| <= 1
    ensures |VisitVersion(decode, p, x, version).records| == 1 <==> ReadManifest(decode, version.node).Decoded?
    ensures |VisitVersion(decode, p, x, version).log| == 1 <==> ReadManifest(decode, version.node).Unreadable?
  {
  }

  /** How many version directories the innermost loop visits over these extension entries. */
  function VersionDirectories(exts: seq<Entry>): nat
  {
    if |exts| == 0 then 0
    else (if exts[0].node.Dir? then Count(IsDirectory, exts[0].node.entries) else 0) + VersionDirectories(exts[1..])
  }

  /**
   * Each version directory whose manifest decodes to an object yields exactly one
   * record, so the count is the number of such directories and at most the number
   * of version directories listed.
   */
  lemma {:induction false} RecordCount(decode: Decoder, p: string, x: string, versions: seq<Entry>)
    ensures |ScanVersions(decode, p, x, versions).records|
         == Count((v: Entry) => ReadManifest(decode, v.node).Decoded?, versions)
    ensures |ScanVersions(decode, p, x, versions).records| <= Count(IsDirectory, versions)
  {
    var decoded := (v: Entry) => ReadManifest(decode, v.node).Decoded?;
    var isDir := IsDirectory;
    if |versions| > 0 {
      RecordCount(decode, p, x, versions[1..]);
      VisitVersionAtMostOne(decode, p, x, versions[0]);
    }
    CountMonotone(decoded, isDir, versions);
  }

  /** A profile yields at most one record per version directory visited under its `Extensions`. */
  lemma {:induction false} ProfileRecordBound(decode: Decoder, p: string, exts: seq<Entry>)
    ensures ConcatOrFail(ExtensionStep(decode, p), exts).Success? ==>
              |ConcatOrFail(ExtensionStep(decode, p), exts).value.records| <= VersionDirectories(exts)
  {
    if |exts| > 0 && ConcatOrFail(ExtensionStep(decode, p), exts).Success? {
      assert ExtensionStep(decode, p)(exts[0]).Success?;
      RecordCount(decode, p, exts[0].name, exts[0].node.entries);
      ProfileRecordBound(decode, p, exts[1..]);
    }
  }

  /** How many version directories the scan visits under these profiles. */
  function ProfilesVersionDirectories(profiles: seq<Entry>): nat
  {
    if |profiles| == 0 then 0
    else
      (match Join(profiles[0].node, "Extensions")
       case Some(Dir(exts)) => VersionDirectories(exts)
       case _ => 0)
      + ProfilesVersionDirectories(profiles[1..])
  }

  /** How many version directories the Chrome scan visits under home directory `home`. */
  function ChromeVersionDirectories(home: Node): nat
  {
    match Lookup(home, BasePath)
    case Some(Dir(entries)) => ProfilesVersionDirectories(Profiles(entries))
    case _ => 0
  }

  lemma {:induction false} ProfilesRecordBound(decode: Decoder, profiles: seq<Entry>)
    ensures ScanProfiles(decode, profiles).Success? ==>
              |ScanProfiles(decode, profiles).value.records| <= ProfilesVersionDirectories(profiles)
  {
    if |profiles| > 0 && ScanProfiles(decode, profiles).Success? {
      var head := profiles[0];
      assert ProfileStep(decode)(head).Success?;
      ProfilesRecordBound(decode, profiles[1..]);
      match Join(head.node, "Extensions")
      case Some(Dir(exts)) => ProfileRecordBound(decode, head.name, exts);
      case _ =>
    }
  }

  /** The whole Chrome scan yields at most one record per version directory it visits. */
  lemma ChromeRecordBound(decode: Decoder, home: Node)
    ensures Extensions(decode, home).Success? ==>
              |Extensions(decode, home).value.records| <= ChromeVersionDirectories(home)
  {
    match Lookup(home, BasePath)
    case Some(Dir(entries)) => ProfilesRecordBound(decode, Profiles(entries));
    case _ =>
  }

  /**
   * No de-duplication: two version directories of one extension, even with equal
   * manifests, yield two records in listing order.
   */
  lemma TwoVersionsTwoRecords(decode: Decoder, p: string, x: string, v1: Entry, v2: Entry)
    requires ReadManifest(decode, v1.node).Decoded? && ReadManifest(decode, v2.node).Decoded?
    ensures ScanVersions(decode, p, x, [v1, v2]).records
         == [ManifestRecord(ReadManifest(decode, v1.node).members), ManifestRecord(ReadManifest(decode, v2.node).members)]
  {
    var f := VersionStep(decode, p, x);
    assert [v1, v2] == [v1] + [v2];
    ConcatAppend(f, [v1], [v2]);
    ConcatSingle(f, v1);
    ConcatSingle(f, v2);
  }

  /**
   * A manifest that cannot be read, does not decode, or decodes to a non-object is
   * skipped with exactly one diagnostic naming it; the records of its siblings are
   * unchanged and keep their order.
   */
  lemma BadManifestIsolated(decode: Decoder, p: string, x: string, before: seq<Entry>, bad: Entry, after: seq<Entry>)
    requires ReadManifest(decode, bad.node).Unreadable?
    ensures ScanVersions(decode, p, x, before + [bad] + after).records
         == ScanVersions(decode, p, x, before).records + ScanVersions(decode, p, x, after).records
    ensures ScanVersions(decode, p, x, before + [bad] + after).log
         == ScanVersions(decode, p, x, before).log + [ManifestUnreadable(p, x, bad.name)]
            + ScanVersions(decode, p, x, after).log
  {
    var f := VersionStep(decode, p, x);
    ConcatAppend(f, before + [bad], after);
    ConcatAppend(f, before, [bad]);
    ConcatSingle(f, bad);
    assert ScanVersions(decode, p, x, before).records + [] == ScanVersions(decode, p, x, before).records;
  }

  /** The outer loop visits profiles in listing order: the scan of `a + b` is `a`'s followed by `b`'s. */
  lemma ProfilesInOrder(decode: Decoder, a: seq<Entry>, b: seq<Entry>)
    requires ScanProfiles(decode, a).Success? && ScanProfiles(decode, b).Success?
    ensures ScanProfiles(decode, a + b) == Success(ScanProfiles(decode, a).value.Then(ScanProfiles(decode, b).value))
  {
    ConcatOrFailAppend(ProfileStep(decode), a, b);
  }

  lemma VersionsTagged(decode: Decoder, p: string, x: string, versions: seq<Entry>)
    ensures Tagged(ScanVersions(decode, p, x, versions).records, Chrome)
  {
    forall v | v in versions
      ensures Tagged(VisitVersion(decode, p, x, v).records, Chrome)
    {
    }
    ConcatTagged(VersionStep(decode, p, x), versions, Chrome);
  }

  lemma ProfileTagged(decode: Decoder, profile: Entry)
    ensures ScanProfile(decode, profile).Success? ==> Tagged(ScanProfile(decode, profile).value.records, Chrome)
  {
    match Join(profile.node, "Extensions")
    case Some(Dir(exts)) =>
      forall x | x in exts && ExtensionStep(decode, profile.name)(x).Success?
        ensures Tagged(ExtensionStep(decode, profile.name)(x).value.records, Chrome)
      {
        VersionsTagged(decode, profile.name, x.name, x.node.entries);
      }
      ConcatOrFailTagged(ExtensionStep(decode, profile.name), exts, Chrome);
    case _ =>
  }

  /** Every record the Chrome extractor returns is tagged `Chrome`. */
  lemma AllTaggedChrome(decode: Decoder, home: Node)
    ensures Extensions(decode, home).Success? ==> Tagged(Extensions(decode, home).value.records, Chrome)
  {
    match Lookup(home, BasePath)
    case Some(Dir(entries)) =>
      forall profile | profile in Profiles(entries)
        ensures ProfileStep(decode)(profile).Success? ==> Tagged(ProfileStep(decode)(profile).value.records, Chrome)
      {
        ProfileTagged(decode, profile);
      }
      ConcatOrFailTagged(ProfileStep(decode), Profiles(entries), Chrome);
    case _ =>
  }
}
