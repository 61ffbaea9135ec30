/**
 * `get_firefox_extensions`: one aggregate `extensions.json` per profile directory,
 * one record per element of its `addons` list, read until the first element that
 * raises.
 */
module FirefoxScan {
  import opened Base
  import opened Json
  import opened FileTree
  import opened Records

  /** `AppData/Roaming/Mozilla/Firefox/Profiles` under the home directory. */
  const BasePath: seq<string> := ["AppData", "Roaming", "Mozilla", "Firefox", "Profiles"]

  /** The profiles list: every directory of the listing, order kept. */
  function Profiles(entries: seq<Entry>): (r: seq<Entry>)
    ensures forall e :: e in r <==> e in entries && e.node.Dir?
    ensures |r| <= |entries|
  {
    Select(IsDirectory, entries)
  }

  /**
   * The record built from one element of `addons`, or `None` where building it
   * raises: the element is not a dict, or its `defaultLocale` is present but not a
   * dict. `name` and `description` come from `defaultLocale`, `version` from the
   * element itself.
   */
  function AddonRecord(addon: Value): (r: Option<Record>)
    ensures r.Some? ==> r.value.browser == Firefox
  {
    match addon
    case Object(members) =>
      (match Get(members, "defaultLocale")
       case None =>
         Some(Record(Firefox, Unknown, GetOr(members, "version", Unknown), NoDescription))
       case Some(Object(locale)) =>
         Some(Record(Firefox, GetOr(locale, "name", Unknown), GetOr(members, "version", Unknown),
                     GetOr(locale, "description", NoDescription)))
       case Some(_) => None)
    case _ => None
  }

  /**
   * Building a record raises exactly when the element is not a dict, or its
   * `defaultLocale` is present but not a dict (a present `null` included).
   */
  lemma AddonRecordRaises(addon: Value)
    ensures AddonRecord(addon).None? <==> || !addon.Object?
                                          || (&& HasKey(addon.members, "defaultLocale")
                                              && !Get(addon.members, "defaultLocale").value.Object?)
  {
  }

  /**
   * The fields of an addon record: `version` from the element, `name` and
   * `description` from `defaultLocale`, each its default exactly when its key, or
   * the whole locale, is absent.
   */
  lemma AddonRecordFields(addon: Value)
    ensures AddonRecord(addon).Some? ==> addon.Object?
    ensures AddonRecord(addon).Some? && !HasKey(addon.members, "version") ==>
              AddonRecord(addon).value.version == Unknown
    ensures AddonRecord(addon).Some? ==>
              forall i :: IsLastBinding(addon.members, "version", i) ==> AddonRecord(addon).value.version == addon.members[i].1
    ensures AddonRecord(addon).Some? && !HasKey(addon.members, "defaultLocale") ==>
              AddonRecord(addon).value.name == Unknown && AddonRecord(addon).value.description == NoDescription
    ensures AddonRecord(addon).Some? && HasKey(addon.members, "defaultLocale") ==>
              var locale := Get(addon.members, "defaultLocale").value.members;
              && (!HasKey(locale, "name") ==> AddonRecord(addon).value.name == Unknown)
              && (!HasKey(locale, "description") ==> AddonRecord(addon).value.description == NoDescription)
              && (forall i :: IsLastBinding(locale, "name", i) ==> AddonRecord(addon).value.name == locale[i].1)
              && (forall i :: IsLastBinding(locale, "description", i) ==> AddonRecord(addon).value.description == locale[i].1)
  {
  }

  /** The records appended by the `addons` loop, and whether the loop ended by raising. */
  datatype Partial = Partial(records: seq<Record>, failed: bool)

  /**
   * The `addons` loop: records are appended one element at a time, so an element
   * that raises keeps the records already appended and drops the rest.
   */
  function ScanAddons(items: seq<Value>): (r: Partial)
    ensures |r.records| <= |items|
    ensures forall i :: 0 <= i < |r.records| ==> AddonRecord(items[i]) == Some(r.records[i])
    ensures r.failed <==> |r.records| < |items|
    ensures r.failed ==> AddonRecord(items[|r.records|]).None?
  {
    var records := AppendWhileSome(AddonRecord, items);
    Partial(records, |records| < |items|)
  }

  /** `extensions.json` is a plain file whose text decodes to a JSON object. */
  predicate DecodesToObject(decode: Decoder, profile: Entry) {
    match Join(profile.node, "extensions.json")
    case Some(File(text)) => decode(text).Some? && decode(text).value.Object?
    case _ => false
  }

  /** The top-level members of such a file. */
  function TopLevel(decode: Decoder, profile: Entry): seq<(string, Value)>
    requires DecodesToObject(decode, profile)
  {
    decode(Join(profile.node, "extensions.json").value.content).value.members
  }

  /**
   * Whether the `try` block for a profile raises: `extensions.json` exists but is a
   * directory or does not decode to an object, or its `addons` value is present and
   * either cannot be iterated or holds an element that raises.
   */
  predicate TryRaises(decode: Decoder, profile: Entry) {
    && Join(profile.node, "extensions.json").Some?
    && (|| !DecodesToObject(decode, profile)
        || (&& HasKey(TopLevel(decode, profile), "addons")
            && (|| Iterate(Get(TopLevel(decode, profile), "addons").value).None?
                || var items := Iterate(Get(TopLevel(decode, profile), "addons").value).value;
                   exists i :: 0 <= i < |items| && AddonRecord(items[i]).None?)))
  }

  /** The whole `try` block for one profile directory. */
  function ReadProfile(decode: Decoder, profile: Entry): (r: Scan)
    ensures |r.log| <= 1
  {
    match Join(profile.node, "extensions.json")
    case None => Empty
    case Some(Dir(_)) => Scan([], [ExtensionsJsonUnreadable])
    case Some(File(text)) =>
      match decode(text)
      case None => Scan([], [ExtensionsJsonUnreadable])
      case Some(data) =>
        if !data.Object? then Scan([], [ExtensionsJsonUnreadable])
        else
          match Get(data.members, "addons")
          case None => Empty
          case Some(addons) =>
            match Iterate(addons)
            case None => Scan([], [ExtensionsJsonUnreadable])
            case Some(items) =>
              var p := ScanAddons(items);
              Scan(p.records, if p.failed then [ExtensionsJsonUnreadable] else [])
  }

  function ProfileStep(decode: Decoder): Entry -> Scan {
    p => ReadProfile(decode, p)
  }

  /** The loop over profiles; no profile can stop it. */
  function ScanProfiles(decode: Decoder, profiles: seq<Entry>): (r: Scan)
    ensures |r.log| <= |profiles|
  {
    ConcatLogBound(ProfileStep(decode), profiles);
    Concat(ProfileStep(decode), profiles)
  }

  /** What an entry of the profiles listing contributes: its `try` block if it is a directory, nothing otherwise. */
  function Contribution(decode: Decoder, e: Entry): Scan
  {
    if e.node.Dir? then ReadProfile(decode, e) else Empty
  }

  /**
   * An entry of the profiles directory is scanned if and only if it is a
   * directory, in listing order; a plain file contributes nothing.
   */
  lemma {:induction false} ProfileSelection(decode: Decoder, entries: seq<Entry>)
    ensures ScanProfiles(decode, Profiles(entries)) == Concat(e => Contribution(decode, e), entries)
  {
    var f := ProfileStep(decode);
    var g := e => Contribution(decode, e);
    if |entries| > 0 {
      var head, tail := entries[0], entries[1..];
      assert entries == [head] + tail;
      ProfileSelection(decode, tail);
      SelectAppend(IsDirectory, [head], tail);
      assert [head][1..] == [];
      assert Profiles([head]) == (if head.node.Dir? then [head] else []);
      ConcatAppend(f, Profiles([head]), Profiles(tail));
      ConcatAppend(g, [head], tail);
      ConcatSingle(g, head);
      if head.node.Dir? {
        ConcatSingle(f, head);
      } else {
        ThenEmpty(Concat(g, tail));
      }
    }
  }

  /** `get_firefox_extensions()` run against home directory `home`; listing the profiles base is unguarded. */
  function Extensions(decode: Decoder, home: Node): (r: Result<Scan, Fault>)
    ensures r.Failure? <==> Lookup(home, BasePath).None? || Lookup(home, BasePath).value.File?
    ensures Lookup(home, BasePath).None? ==> r == Failure(FirefoxBaseMissing)
    ensures Lookup(home, BasePath).Some? && Lookup(home, BasePath).value.File? ==> r == Failure(FirefoxBaseNotDirectory)
  {
    match Lookup(home, BasePath)
    case None => Failure(FirefoxBaseMissing)
    case Some(File(_)) => Failure(FirefoxBaseNotDirectory)
    case Some(Dir(entries)) => Success(ScanProfiles(decode, Profiles(entries)))
  }

  /** The `addons` loop as written, with its early exit on the first element that raises. */
  method CollectAddons(items: seq<Value>, records0: seq<Record>) returns (records: seq<Record>, failed: bool)
    ensures records == records0 + ScanAddons(items).records
    ensures failed == ScanAddons(items).failed
  {
    records, failed := CollectWhileSome(AddonRecord, items, records0);
  }

  /** The `try` block for one profile directory as written, appending to the shared list and log. */
  method CollectProfile(decode: Decoder, profile: Entry, records0: seq<Record>, log0: seq<Diagnostic>)
    returns (records: seq<Record>, log: seq<Diagnostic>)
    ensures Scan(records, log) == Scan(records0, log0).Then(ReadProfile(decode, profile))
  {
    records, log := records0, log0;
    var extensionsFile := Join(profile.node, "extensions.json");
    if extensionsFile.None? {
      ThenEmpty(Scan(records0, log0));
      return;
    }
    var data := if extensionsFile.value.File? then decode(extensionsFile.value.content) else None;
    if data.None? || !data.value.Object? {
      log := log + [ExtensionsJsonUnreadable];
      return;
    }
    var addons := Get(data.value.members, "addons");
    if addons.None? {
      ThenEmpty(Scan(records0, log0));
      return;
    }
    var items := Iterate(addons.value);
    if items.None? {
      log := log + [ExtensionsJsonUnreadable];
      return;
    }
    var failed;
    records, failed := CollectAddons(items.value, records);
    if failed {
      log := log + [ExtensionsJsonUnreadable];
    } else {
      assert log == log0 + [];
    }
  }

  /** `get_firefox_extensions` as written: the `try` block run once per profile directory. */
  method Collect(decode: Decoder, home: Node) returns (r: Result<Scan, Fault>)
    ensures r == Extensions(decode, home)
  {
    var base := Lookup(home, BasePath);
    if base.None? {
      return Failure(FirefoxBaseMissing);
    }
    if base.value.File? {
      return Failure(FirefoxBaseNotDirectory);
    }
    var profiles := Profiles(base.value.entries);
    var records: seq<Record> := [];
    var log: seq<Diagnostic> := [];
    var i := 0;
    while i < |profiles|
      invariant i <= |profiles|
      invariant ScanProfiles(decode, profiles[..i]) == Scan(records, log)
    {
      records, log := CollectProfile(decode, profiles[i], records, log);
      ConcatSnoc(ProfileStep(decode), profiles, i);
      i := i + 1;
    }
    assert profiles[..i] == profiles;
    return Success(Scan(records, log));
  }

  // ---------------------------------------------------------------------------
  // Properties

  /** An `extensions.json` whose text decodes to `data`. */
  predicate Holds(decode: Decoder, profile: Entry, data: Value) {
    && Join(profile.node, "extensions.json").Some?
    && Join(profile.node, "extensions.json").value.File?
    && decode(Join(profile.node, "extensions.json").value.content) == Some(data)
  }

  /**
   * A failure partway through `addons` keeps the records appended before it, drops
   * the remaining entries, and prints one diagnostic.
   */
  lemma PartialFailureKeepsPrefix(decode: Decoder, profile: Entry, members: seq<(string, Value)>,
                                  good: seq<Value>, bad: Value, rest: seq<Value>)
    requires Holds(decode, profile, Object(members))
    requires Get(members, "addons") == Some(Array(good + [bad] + rest))
    requires forall g :: g in good ==> AddonRecord(g).Some?
    requires AddonRecord(bad).None?
    ensures |ReadProfile(decode, profile).records| == |good|
    ensures forall i :: 0 <= i < |good| ==> Some(ReadProfile(decode, profile).records[i]) == AddonRecord(good[i])
    ensures ReadProfile(decode, profile).log == [ExtensionsJsonUnreadable]
  {
    var items := good + [bad] + rest;
    var p := ScanAddons(items);
    assert forall i :: 0 <= i < |good| ==> items[i] == good[i] && good[i] in good;
    assert items[|good|] == bad;
  }

  /** Every element of `addons` is read while none raises: one record each, in order, no diagnostic. */
  lemma AllAddonsRead(decode: Decoder, profile: Entry, members: seq<(string, Value)>, items: seq<Value>)
    requires Holds(decode, profile, Object(members))
    requires Get(members, "addons") == Some(Array(items))
    requires forall a :: a in items ==> AddonRecord(a).Some?
    ensures |ReadProfile(decode, profile).records| == |items|
    ensures forall i :: 0 <= i < |items| ==> Some(ReadProfile(decode, profile).records[i]) == AddonRecord(items[i])
    ensures ReadProfile(decode, profile).log == []
  {
    var p := ScanAddons(items);
  }

  /**
   * A profile contributes no record when its `extensions.json` is absent, does not
   * decode to an object, has no `addons` key, or its `addons` value is not a list.
   * An absent file or an absent `addons` key prints nothing; a file that does not
   * decode to an object, or an `addons` value that cannot be iterated, prints one
   * diagnostic.
   */
  lemma NoRecordsWithoutAddonsList(decode: Decoder, profile: Entry)
    requires || Join(profile.node, "extensions.json").None?
             || !DecodesToObject(decode, profile)
             || !HasKey(TopLevel(decode, profile), "addons")
             || !Get(TopLevel(decode, profile), "addons").value.Array?
    ensures ReadProfile(decode, profile).records == []
    ensures Join(profile.node, "extensions.json").None? ==> ReadProfile(decode, profile) == Empty
    ensures Join(profile.node, "extensions.json").Some? && !DecodesToObject(decode, profile) ==>
              ReadProfile(decode, profile) == Scan([], [ExtensionsJsonUnreadable])
    ensures DecodesToObject(decode, profile) && !HasKey(TopLevel(decode, profile), "addons") ==>
              ReadProfile(decode, profile) == Empty
    ensures DecodesToObject(decode, profile) && HasKey(TopLevel(decode, profile), "addons")
            && Iterate(Get(TopLevel(decode, profile), "addons").value).None? ==>
              ReadProfile(decode, profile) == Scan([], [ExtensionsJsonUnreadable])
  {
    if DecodesToObject(decode, profile) && HasKey(TopLevel(decode, profile), "addons") {
      var it := Iterate(Get(TopLevel(decode, profile), "addons").value);
      if it.Some? {
        var p := ScanAddons(it.value);
      }
    }
  }

  /** One diagnostic is printed for a profile exactly when its `try` block raises, and none otherwise. */
  lemma ReadProfileDiagnostic(decode: Decoder, profile: Entry)
    ensures ReadProfile(decode, profile).log == (if TryRaises(decode, profile) then [ExtensionsJsonUnreadable] else [])
  {
    if DecodesToObject(decode, profile) && HasKey(TopLevel(decode, profile), "addons") {
      var it := Iterate(Get(TopLevel(decode, profile), "addons").value);
      if it.Some? {
        var items := it.value;
        var p := ScanAddons(items);
        if p.failed {
          assert AddonRecord(items[|p.records|]).None?;
        } else {
          assert forall i :: 0 <= i < |items| ==> AddonRecord(items[i]).Some?;
        }
      }
    }
  }

  /** A profile's failure never reaches its neighbours: the profiles are scanned independently and in order. */
  lemma ProfilesIndependent(decode: Decoder, a: seq<Entry>, b: seq<Entry>)
    ensures ScanProfiles(decode, a + b) == ScanProfiles(decode, a).Then(ScanProfiles(decode, b))
  {
    ConcatAppend(ProfileStep(decode), a, b);
  }

  /** Every record the Firefox extractor returns is tagged `Firefox`. */
  lemma AllTaggedFirefox(decode: Decoder, home: Node)
    ensures Extensions(decode, home).Success? ==> Tagged(Extensions(decode, home).value.records, Firefox)
  {
    forall profile: Entry
      ensures Tagged(ReadProfile(decode, profile).records, Firefox)
    {
      var records := ReadProfile(decode, profile).records;
      forall i | 0 <= i < |records|
        ensures records[i].browser == Firefox
      {
        var j := Join(profile.node, "extensions.json");
        var d := decode(j.value.content);
        var items := Iterate(Get(d.value.members, "addons").value).value;
        assert AddonRecord(items[i]) == Some(records[i]);
      }
    }
    match Lookup(home, BasePath)
    case Some(Dir(entries)) =>
      ConcatTagged(ProfileStep(decode), Profiles(entries), Firefox);
    case _ =>
  }

  /** The `extensions.json` document `{"addons":[{"version":"2.0","defaultLocale":{"name":"Bar"}}]}`. */
  const SampleDocument: Value :=
    Object([("addons", Array([Object([("version", Str("2.0")),
                                      ("defaultLocale", Object([("name", Str("Bar"))]))])]))])

  /** That document yields one record: name from the locale, version from the top level, default description. */
  lemma SampleDocumentRecord(decode: Decoder, profile: Entry)
    requires Holds(decode, profile, SampleDocument)
    ensures ReadProfile(decode, profile) == Scan([Record(Firefox, Str("Bar"), Str("2.0"), NoDescription)], [])
  {
    var addon := SampleDocument.members[0].1.items[0];
    var locale := Object([("name", Str("Bar"))]);
    assert IsLastBinding(SampleDocument.members, "addons", 0);
    assert IsLastBinding(addon.members, "version", 0);
    assert IsLastBinding(addon.members, "defaultLocale", 1);
    assert IsLastBinding(locale.members, "name", 0);
    assert !HasKey(locale.members, "description");
    assert ScanAddons([addon][1..]) == Partial([], false);
  }
}
