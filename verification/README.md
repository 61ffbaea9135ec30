# PyAddOnyx extension discovery, modelled in Dafny

PyAddOnyx lists the browser extensions installed for the current user. It scans
two browser families and shows one table of browser-tagged records. This project
models its discovery-and-normalisation core: the functions
`get_chrome_extensions` and `get_firefox_extensions`, and the concatenation of
their results in `fetch_addons`. It proves what these produce on every possible
directory tree.

- **Chrome.** The scanner lists `AppData/Local/Google/Chrome/User Data` under
  the home directory. It keeps the directories named `Default` or starting with
  `Profile`. It then walks `Extensions/<id>/<version>/manifest.json` and appends
  one record per manifest that decodes to a JSON object.
- **Firefox.** The scanner lists `AppData/Roaming/Mozilla/Firefox/Profiles`. For
  each profile directory it reads one `extensions.json`. It appends one record
  per element of its `addons` list. `name` and `description` come from the
  element's `defaultLocale`, and `version` comes from the element itself.
- **Merge.** The Chrome records come first, then the Firefox records.

How the model is built:

- The filesystem is an immutable tree (`FileTree.Node`). A directory lists its
  entries in the order `Path.iterdir` returns them.
- `json.load` is a parameter `decode: string -> Option<Json.Value>`. `None`
  stands for text that is not a JSON document.
- Record fields hold JSON values. A default (`"Unknown"`, `"No description"`)
  is used only when the key is absent. A present value, including `null`, is
  copied unchanged.
- A decoded JSON object keeps its members in order, duplicates included.
  Lookup returns the last binding, as the Python dict built by `json.load` does.
- The diagnostics the scan prints are a log: `Records.Scan(records, log)`.
- Four `iterdir` calls are unguarded. When one of them raises, the exception
  ends the whole scan. The model returns this as a `Records.Fault` inside a
  `Base.Result`:
  - the Chrome base is a file (line 16);
  - a profile's `Extensions` is a file (line 21);
  - an entry under `Extensions` is a file (line 22);
  - the Firefox base is missing or is a file (line 45).

Each extractor has two definitions. One is a recursive function over the listing
(`ChromeScan.Extensions`, `FirefoxScan.Extensions`). The other is a set of
methods whose loops append in place, as the Python does (`ChromeScan.Collect`,
`FirefoxScan.Collect`). Each method is proved to return what its function
returns. The properties are lemmas about the functions.

In these places the code behaves differently from what a reader might expect, and the model follows the code:

- A missing Firefox profiles directory is not an empty result. The `iterdir` at
  line 45 raises, and so does `fetch_addons`.
- The scan can raise. Besides line 45, the `iterdir` calls at lines 16, 21 and
  22 raise when their path is a file.
- A Firefox failure inside the `addons` loop is not atomic. Records appended
  before the failing element stay in the result.
- A shape mismatch is not read as "absent field". A non-dict top level, a
  non-dict `addons` element or a non-dict `defaultLocale` raises inside the
  `try`. The result is a diagnostic, and the remaining elements of that file
  are dropped.
- Fields are not always non-null text. A present `null`, number or empty string
  passes through unchanged.
- An `addons` value that is a string or a dict is iterated the way Python
  iterates it. An empty one yields nothing. A non-empty one fails on its first
  element, which is a string.

## Model

| member | source | states |
|---|---|---|
| `Json.Get` | PyAddOnyx.py:53 | The lookup is `None` exactly when the key is absent. Otherwise it is the value of the key's last binding. |
| `Json.GetOr` | PyAddOnyx.py:28-30 | The default is returned only when the key is absent. Otherwise the last binding's value is returned unchanged, `null` included. |
| `Json.Iterate` | PyAddOnyx.py:53 | Iteration succeeds exactly for lists, strings and dicts. A list yields its items. A string yields its characters, each as a one-character string, in order. A dict yields its keys, as strings, in member order. |
| `FileTree.Child` | PyAddOnyx.py:19-20 | An entry is found exactly when the listing has one of that name. The result is the first such entry's node. |
| `FileTree.Join` | PyAddOnyx.py:23-24 | A path under a plain file never exists. A path under a directory exists exactly when the directory lists an entry of that name, and it is the first such entry. |
| `FileTree.Lookup` | PyAddOnyx.py:10-12 | The empty path is the node itself. A one-step path is that child of the node. No path below a plain file exists. |
| `FileTree.LookupAppend` | PyAddOnyx.py:10-12 | Walking `p + q` is walking `p`, then walking `q` from where `p` ends. If a step of `p` is missing, so is the whole path. |
| `FileTree.Select` | PyAddOnyx.py:16 | A filtering list comprehension keeps an entry exactly when it is listed and passes the test. It never keeps more entries than are listed. |
| `FileTree.SelectAppend` | PyAddOnyx.py:16 | The selection keeps listing order: selecting from `a + b` is selecting from `a`, then from `b`. Both profile lists, at lines 16 and 45, are such a selection. |
| `Records.ConcatOrFail` | PyAddOnyx.py:18-22 | A loop whose body may raise succeeds exactly when no element raises. Otherwise its exception is that of the first element that raises, and every earlier element succeeded. |
| `Records.Concat` | PyAddOnyx.py:22-38 | The loop whose body never raises: the version loop at lines 22-38 and the Firefox profile loop at lines 47-64. It has no contract of its own. `Records.ConcatSingle` and `Records.ConcatAppend` state what it computes. |
| `Records.ConcatSingle` | PyAddOnyx.py:22-38 | The loop over one element contributes exactly that element's pass. |
| `Records.ConcatAppend` | PyAddOnyx.py:22-38 | Scanning a listing `xs + ys` gives the scan of `xs` followed by the scan of `ys`: records and diagnostics keep listing order. The same holds for the Firefox profile loop at lines 47-64. |
| `Records.ConcatLogs` | PyAddOnyx.py:22-38 | A property that holds of every diagnostic of every pass holds of every diagnostic of the loop. |
| `Records.ConcatLogBound` | PyAddOnyx.py:47-64 | A loop whose every pass prints at most one diagnostic prints at most one per element. |
| `Records.AppendWhileSome` | PyAddOnyx.py:53-62 | A loop that appends until the first raising element keeps, in order, one value per element before that element. The next element, if any, raises. |
| `Records.AppendWhileSomeStopsAt` | PyAddOnyx.py:53-64 | If the first `k` elements succeed and element `k` raises (or there is none), exactly `k` values are appended. |
| `Records.CollectWhileSome` | PyAddOnyx.py:53-64 | The same loop written with a `break` and an in-place append gives exactly `AppendWhileSome`'s values. It reports failure exactly when it stopped early. |
| `Records.ConcatOrFailAppend` | PyAddOnyx.py:18-22 | The same in-order split for a loop whose body may raise. The first exception, if any, is the result. |
| `ChromeScan.Profiles` | PyAddOnyx.py:16 | An entry is selected exactly when it is a directory named `Default` or starting with `Profile`. No more entries are selected than listed. |
| `ChromeScan.ProfileSelection` | PyAddOnyx.py:16-18 | Scanning the selected profiles equals visiting every listed entry, where a profile contributes its scan and any other entry contributes nothing and raises nothing. |
| `ChromeScan.ReadManifest` | PyAddOnyx.py:23-27 | A manifest is absent exactly when `manifest.json` does not exist. It is decoded exactly when `manifest.json` is a file whose text decodes to an object, and then it holds that object's members. Otherwise it is unreadable. |
| `ChromeScan.ManifestRecord` | PyAddOnyx.py:31-36 | The record appended for a manifest object is tagged Chrome. |
| `ChromeScan.ManifestRecordFields` | PyAddOnyx.py:28-30 | Each of name, version and description is the default when its key is absent from the manifest. Otherwise it is the value of that key's last binding, copied unchanged. |
| `ChromeScan.VisitVersion` | PyAddOnyx.py:23-38 | A version entry without `manifest.json`, or one that is a plain file, contributes nothing. Any diagnostic names this profile, extension and version. Any record is the one built from this version's decoded manifest. |
| `ChromeScan.VisitVersionAtMostOne` | PyAddOnyx.py:23-38 | A version directory gives at most one record or one diagnostic, never both. It gives a record exactly when its manifest decodes to an object. It gives a diagnostic exactly when its manifest is unreadable. |
| `ChromeScan.ScanVersions` | PyAddOnyx.py:22-38 | Every diagnostic from one extension's version loop is an unreadable-manifest notice naming that profile and extension. |
| `ChromeScan.ScanExtension` | PyAddOnyx.py:21-22 | Listing an extension entry raises exactly when the entry is a plain file. The exception names the profile and the extension. |
| `ChromeScan.ScanProfile` | PyAddOnyx.py:19-22 | A profile without `Extensions` contributes nothing. Its scan raises exactly when `Extensions` is a plain file, or lists a plain file. A plain-file `Extensions` raises the not-a-directory fault for the profile. Otherwise the exception names the first plain-file entry, and every earlier entry is a directory. |
| `ChromeScan.Extensions` | PyAddOnyx.py:10-18 | A missing user-data directory gives no records and one not-found diagnostic. A plain-file user-data directory raises. The scan raises exactly when the user-data directory is a plain file, or some listed profile directory has an `Extensions` that raises. |
| `ChromeScan.ScanProfilesRaise` | PyAddOnyx.py:16-22 | The loop over the selected profiles raises exactly when some listed entry is a profile and its `Extensions` raises. |
| `ChromeScan.RecordCount` | PyAddOnyx.py:22-36 | An extension yields exactly as many records as it has version entries whose manifest decodes to an object. That is at most its number of version directories. |
| `ChromeScan.ProfileRecordBound` | PyAddOnyx.py:21-36 | A profile that does not raise yields at most one record per version directory under its `Extensions`. |
| `ChromeScan.ProfilesRecordBound` | PyAddOnyx.py:18-36 | A loop over profiles that does not raise yields at most one record per version directory under their `Extensions`. |
| `ChromeScan.ChromeRecordBound` | PyAddOnyx.py:7-39 | The whole Chrome scan, when it does not raise, yields at most one record per version directory it visits. |
| `ChromeScan.TwoVersionsTwoRecords` | PyAddOnyx.py:22-36 | Two version directories with readable manifests give two records, in listing order, even when the manifests are equal (no de-duplication). |
| `ChromeScan.BadManifestIsolated` | PyAddOnyx.py:25-38 | An unreadable manifest between other version directories adds exactly one diagnostic naming it. The siblings' records and diagnostics are unchanged and keep their order. |
| `ChromeScan.ScanProfiles` | PyAddOnyx.py:18-38 | The outer loop raises exactly when some profile's `Extensions` is a plain file or lists one. Its exception is that of the first such profile, and no earlier profile raises. `ChromeScan.ProfilesInOrder` gives the order of its records. |
| `ChromeScan.ProfilesInOrder` | PyAddOnyx.py:18 | When neither part raises, the scan of profiles `a + b` is the scan of `a` followed by the scan of `b`. |
| `ChromeScan.AllTaggedChrome` | PyAddOnyx.py:32 | Every record of a successful Chrome scan is tagged Chrome. |
| `ChromeScan.CollectVersion` | PyAddOnyx.py:23-38 | One pass of the innermost loop's body as written extends the accumulated records and log by exactly what `ChromeScan.VisitVersion` gives for that version directory. |
| `ChromeScan.CollectVersions` | PyAddOnyx.py:22-38 | The innermost loop, appending in place, extends the accumulated records and log by exactly the functional scan of the version listing. |
| `ChromeScan.CollectProfile` | PyAddOnyx.py:19-38 | The middle loop raises exactly the profile scan's exception. Otherwise it extends the accumulator by the profile scan. |
| `ChromeScan.Collect` | PyAddOnyx.py:7-39 | The loops as written return exactly `ChromeScan.Extensions`: the same records, diagnostics and exception. |
| `FirefoxScan.Profiles` | PyAddOnyx.py:45 | An entry is a profile exactly when it is a directory. No name filter is applied. |
| `FirefoxScan.ProfileSelection` | PyAddOnyx.py:45-47 | Scanning the profiles equals visiting every listed entry in order, where a directory contributes its `try` block and a plain file contributes nothing. |
| `FirefoxScan.AddonRecord` | PyAddOnyx.py:57-62 | A record built from an `addons` element is tagged Firefox. |
| `FirefoxScan.AddonRecordRaises` | PyAddOnyx.py:53-56 | Building a record raises exactly when the element is not an object, or when its `defaultLocale` is present but not an object (a present `null` included). |
| `FirefoxScan.AddonRecordFields` | PyAddOnyx.py:54-56 | A built record comes from an object. Its version is the element's last `version` binding, or the default when that key is absent. Its name and description come from the locale the same way. Both are defaults when `defaultLocale` is absent. |
| `FirefoxScan.ScanAddons` | PyAddOnyx.py:53-62 | The records are those of the longest prefix of elements that do not raise, in order. The loop failed exactly when it stopped early, and then the next element raises. |
| `FirefoxScan.ReadProfile` | PyAddOnyx.py:48-64 | One profile prints at most one diagnostic. |
| `FirefoxScan.ReadProfileDiagnostic` | PyAddOnyx.py:48-64 | A profile prints the one diagnostic exactly when its `extensions.json` exists and the `try` block raises. That happens when the file is a directory, does not decode to an object, or has an `addons` value that cannot be iterated or holds an element that raises. Otherwise nothing is printed. |
| `FirefoxScan.Extensions` | PyAddOnyx.py:44-45 | The Firefox scan raises exactly when the profiles directory is missing or is a file. A missing directory raises the missing-path fault, and a plain-file one the not-a-directory fault. |
| `FirefoxScan.PartialFailureKeepsPrefix` | PyAddOnyx.py:50-64 | When an `addons` element raises, the records of the elements before it are kept in order. The remaining elements are dropped, and exactly one diagnostic is printed. |
| `FirefoxScan.AllAddonsRead` | PyAddOnyx.py:53-62 | When no element raises, each `addons` element gives one record in order, and nothing is printed. |
| `FirefoxScan.NoRecordsWithoutAddonsList` | PyAddOnyx.py:49-64 | A profile gives no record when `extensions.json` is absent, does not decode to an object, has no `addons` key, or has an `addons` value that is not a list. An absent file or an absent `addons` key prints nothing. A file that does not decode to an object, or an `addons` value that cannot be iterated, prints one diagnostic. |
| `FirefoxScan.ScanProfiles` | PyAddOnyx.py:47-64 | The profile loop never raises and prints at most one diagnostic per profile. `FirefoxScan.ProfilesIndependent` gives the order of its records and diagnostics. |
| `FirefoxScan.ProfilesIndependent` | PyAddOnyx.py:47-64 | The scan of profiles `a + b` is the scan of `a` followed by the scan of `b`. No profile can stop or alter the scan of another. |
| `FirefoxScan.AllTaggedFirefox` | PyAddOnyx.py:58 | Every record of a successful Firefox scan is tagged Firefox. |
| `FirefoxScan.SampleDocumentRecord` | PyAddOnyx.py:53-62 | `{"addons":[{"version":"2.0","defaultLocale":{"name":"Bar"}}]}` yields the single record (Firefox, `"Bar"`, `"2.0"`, `"No description"`) and no diagnostic. |
| `FirefoxScan.CollectAddons` | PyAddOnyx.py:53-62 | The `addons` loop as written, with its early exit, appends exactly `ScanAddons`'s records and reports its failure flag. |
| `FirefoxScan.CollectProfile` | PyAddOnyx.py:48-64 | The `try` block as written extends the accumulator by exactly the profile's scan. |
| `FirefoxScan.Collect` | PyAddOnyx.py:41-65 | The loops as written return exactly `FirefoxScan.Extensions`. |
| `Addons.Fetch` | PyAddOnyx.py:74 | The merge succeeds exactly when both extractors do. A Chrome exception wins over a Firefox one. On success the records are the Chrome records followed by the Firefox records. |
| `Addons.ChromeBeforeFirefox` | PyAddOnyx.py:74 | In the merged list a record is tagged Chrome exactly when it lies among the first n records, where n is the number of Chrome records. |
| `Addons.MissingChromeLeavesFirefox` | PyAddOnyx.py:12-14 | With no Chrome user-data directory, the merged records are exactly the Firefox records. The log is the missing-path notice followed by the Firefox log. |

## Left out

- The tkinter window (lines 78-118) and the row clearing and inserting in `fetch_addons` (lines 70-71, 75-76). They are presentation with no logic to state.
- Real filesystem access and the Windows home directory. They are replaced by the tree value `home`. Case-insensitive names, symbolic links, permissions and I/O errors other than "is a directory" are not modelled. A file that cannot be read is treated like text that does not decode.
- `FileTree.Child`: a real directory never repeats a name. The model takes the first entry of a name, a case the filesystem never produces.
- JSON text parsing and UTF-8 decoding. They are the uninterpreted `decode` parameter. JSON numbers are kept as their literal text.
- `Json.Iterate`: iterating a dict built from duplicate keys visits each key once. The model visits every member. This changes only how many strings a non-empty object yields, never whether its first element raises.
- The text of the printed diagnostics (lines 13, 38, 64). Only which diagnostic is printed and in what order is modelled.
- The diagnostics printed before an uncaught exception. A failing scan returns only its `Fault`.
- The Python exception classes of the unguarded `iterdir` calls. They are the `Fault` constructors.
- Running the scan twice on an unchanged tree gives equal results. This holds because every extractor is a function of the tree, so it is not stated separately.
