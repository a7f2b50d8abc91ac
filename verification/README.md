# AgentSmith in Dafny

AgentSmith generates one realistic browser user-agent string from a JSON
catalog of browsers. Each browser in the catalog has a name, a list of
versions, and a list of OS entries. Each OS entry has a name and a list of
versions. This project models the core of `AgentSmith.py` as pure Dafny
functions and proves properties about them:

- **Catalog validator** (`validate_json_structure`): the `Catalog` module.
  It walks a parsed document and reports the first structural violation,
  with the browser and OS indices.
- **OS descriptor formatter** (`get_os_string`): the `OsFormat` module.
  "Windows", "Mac OS" and "Linux" have descriptors of their own. For Mac OS
  the version's dots become underscores, unless the version already holds an
  underscore. Any other name is joined to its version with a space.
- **User-agent checker** (`validate_user_agent`): the `AgentCheck` module.
  It applies five checks in order: the "Mozilla/5.0" prefix, equal counts of
  `(` and `)`, a length of at least 30, a browser pattern and an OS pattern.
- **Generator** (`generate_user_agent`): the `Generator` module. It:
  - filters the browsers;
  - draws a browser and a version;
  - filters that browser's OS entries;
  - draws an OS and an OS version;
  - fills the template of the browser family;
  - re-checks the result.

Every `random.choice` becomes `Pick(s, n) = s[n % |s|]`, where `n` is an
arbitrary natural number held in a `Choice` record. So every element can be
drawn and no draw is out of range, and each property of the generator holds
for every choice.

The exception classes (`InvalidJSONFormatError`, `EmptyDataError`,
`InvalidUserAgentError`, `UserAgentError`) become the `Error` datatype of the
`Errors` module. Each kind carries what identifies the failure, not its
message. `KeyError`, `AttributeError` and `TypeError` are raised inside the
generator on a malformed document; it re-raises them as `UserAgentError`,
written here as `UserAgentError(UnexpectedException)`.

Python semantics the model needs are spelled out in the `Json` module:
- truthiness;
- `key in d`;
- `d.get(key)`, where the last binding of a repeated key wins, as in the
  dictionary `json.load` builds;
- `str(x)` as an f-string inserts it. This matters because a browser name
  or version that is not a string still lands in the template.

Two behaviours of the code are worth stating plainly:
- **Mac OS "10.15" gives "10_15".** The rewrite only replaces dots; it
  never appends a patch level (`OsFormat.MacVersionExamples`).
- **A catalog the validator accepts can still fail the re-check.** The
  generator raises `InvalidUserAgentError` for some well-formed catalogs.
  One case is a browser without a template of its own whose name and
  versions hold no browser pattern (`Generator.UnknownBrowserRejected`).
  Another is a known browser on an OS without a descriptor of its own whose
  name and versions hold no OS pattern (`Generator.UnknownOsRejected`).
  What is proved instead:
  - every returned string passes the check;
  - every draw succeeds on a validated catalog of known browsers and OS
    names, whose OS versions are all JSON strings and whose versions keep
    the parentheses balanced (`Generator.KnownCatalogGenerates`).

## Model

| member | source | states |
|---|---|---|
| `Json.Truthy` | AgentSmith.py:145-154 | Python truthiness of a parsed value: None, False, 0 and empty strings, lists and dicts are false |
| `Json.Str` | AgentSmith.py:181-189 | the text an f-string inserts for a browser name or version: the string itself, or its repr |
| `Json.Repr` | AgentSmith.py:181-189 | `repr` of None, booleans, integers, strings, lists and dicts |
| `Json.HasKeyIff` | AgentSmith.py:32 | `key in d` holds exactly when some member of the object is named `key` |
| `Json.Get` | AgentSmith.py:154 | `d.get(key)` is None when the key is absent |
| `Json.GetLast` | AgentSmith.py:162 | `d[key]` and `d.get(key)` give the value of the last member named `key` |
| `Catalog.OsEntryOk` | AgentSmith.py:56-64 | the shape an OS entry must have: a dict with a name and a non-empty versions list |
| `Catalog.BrowserOk` | AgentSmith.py:38-64 | the shape a browser entry must have: a dict with name, versions and os, non-empty versions and os lists, every OS entry well formed |
| `Catalog.CatalogOk` | AgentSmith.py:27-64 | the shape the validator accepts: a dict with a non-empty browsers list of well-formed browsers |
| `Catalog.CheckOsEntry` | AgentSmith.py:56-64 | the OS-entry checks find no fault exactly when the entry is an object with a name and a non-empty versions list; a fault names that browser and OS index |
| `Catalog.CheckOsEntries` | AgentSmith.py:56-64 | the loop over OS entries passes exactly when every entry from `j` on is well formed; otherwise it reports the fault of the first entry that is not, all earlier ones being well formed |
| `Catalog.CheckBrowser` | AgentSmith.py:38-64 | the per-browser checks pass exactly when the entry is a well-formed browser; a fault names that browser index |
| `Catalog.CheckBrowsers` | AgentSmith.py:38-64 | the loop over browsers passes exactly when every browser from `i` on is well formed |
| `Catalog.CheckBrowsersFirst` | AgentSmith.py:38-40 | the fault the browser loop reports is that of the first browser that is not well formed |
| `Catalog.ValidateJsonStructure` | AgentSmith.py:27-64 | passes iff the document is an object with a non-empty `browsers` list of well-formed browsers with well-formed OS entries; every failure is an InvalidJSONFormatError; each top-level fault is reported exactly when its condition is the first that fails; a per-browser fault names the first bad browser |
| `Catalog.OsFaultOrder` | AgentSmith.py:57-64 | within an OS entry: not-an-object, then missing name, then versions missing, not a list or empty; each reported exactly when it is the first that applies |
| `Catalog.BrowserFaultOrder` | AgentSmith.py:39-64 | within a browser: not-an-object, missing name, versions, os (in that order), bad versions, bad os, then the first bad OS entry by index; each reported exactly when it is the first that applies |
| `OsFormat.ReplaceDots` | AgentSmith.py:107 | `replace(".", "_")` keeps the length and turns each dot, and nothing else, into an underscore |
| `OsFormat.MacVersion` | AgentSmith.py:104-108 | a version holding `_` is kept as is; otherwise the result holds no dot; only dots change, into underscores |
| `OsFormat.OsString` | AgentSmith.py:101-112 | the descriptor for a string name and version, branch by branch |
| `OsFormat.GetOsString` | AgentSmith.py:95-114 | fails with a UserAgentError exactly when the name or the version is not a string |
| `OsFormat.OsStringShapes` | AgentSmith.py:101-112 | Windows gives "Windows NT v; Win64; x64", Linux "X11; Linux v", Mac OS "Macintosh; Intel Mac OS X " then the rewritten version (unchanged with `_`, dot-free otherwise), any other name "name v" |
| `OsFormat.MacVersionIdempotent` | AgentSmith.py:104-108 | rewriting a Mac OS version twice is the same as once |
| `OsFormat.MacVersionExamples` | AgentSmith.py:104-108 | "10.15" becomes "10_15" and "10_15_7" is kept |
| `OsFormat.KnownOsHasOsPattern` | AgentSmith.py:101-110 | the Windows, Mac OS and Linux descriptors each carry an OS pattern of the checker |
| `OsFormat.OsStringParens` | AgentSmith.py:101-112 | the descriptor adds no parenthesis: its counts of `(` and `)` are those of the version, plus those of the name for an unknown OS |
| `OsFormat.MacVersionCount` | AgentSmith.py:104-108 | the Mac OS rewrite keeps the count of every character other than `.` and `_` |
| `AgentCheck.StartsWith` | AgentSmith.py:119 | `startswith` |
| `AgentCheck.Count` | AgentSmith.py:123 | `count` of one character |
| `AgentCheck.Contains` | AgentSmith.py:130-138 | `p in s`, by scanning the start positions |
| `AgentCheck.ValidUserAgent` | AgentSmith.py:116-140 | the five checks of validate_user_agent, in source order |
| `AgentCheck.ContainsIff` | AgentSmith.py:132 | the substring scan finds `p` exactly when some slice of the string equals `p` |
| `AgentCheck.CountIsMultiplicity` | AgentSmith.py:123 | `count(c)` is the multiplicity of `c` |
| `AgentCheck.ValidUserAgentIff` | AgentSmith.py:116-140 | the checker accepts exactly the strings of length at least 30 that start with "Mozilla/5.0", hold as many `(` as `)`, and have a browser pattern and an OS pattern as slices |
| `AgentCheck.NoBrowserToken` | AgentSmith.py:131-133 | a string without 'C', 'F', 'S' and 'E' holds no browser pattern |
| `AgentCheck.NoOsToken` | AgentSmith.py:136-138 | a string without 'w', 'X' and 'u' holds no OS pattern |
| `Generator.Pick` | AgentSmith.py:161 | a draw is an element of the list drawn from |
| `Generator.Filter` | AgentSmith.py:152-155 | the comprehension keeps exactly the elements that pass the test, and keeps the list whole when all pass |
| `Generator.FeasibleBrowser` | AgentSmith.py:154 | the browser filter: a dict with a truthy "os" and a non-empty versions list |
| `Generator.FeasibleOs` | AgentSmith.py:168 | the OS filter: a dict with a non-empty versions list |
| `Generator.Select` | AgentSmith.py:145-177 | the draws either fail with EmptyDataError or an unexpected-exception UserAgentError, or choose a feasible browser of the catalog, its name, one of its versions, a feasible OS entry of that browser, its name and one of its versions |
| `Generator.SelectEmptyData` | AgentSmith.py:145-172 | each of the four EmptyDataError cases occurs exactly under its condition: no usable data, an empty browser list, no feasible browser, or a drawn browser (named, with a list of dicts for "os") none of whose OS entries has a non-empty versions list |
| `Generator.SelectNoFeasibleOs` | AgentSmith.py:166-172 | EmptyDataError for want of an OS occurs exactly when the drawn browser has a name and a list of dicts for "os", none of them with a non-empty versions list |
| `Generator.SelectUnexpected` | AgentSmith.py:152-177 | the selection raises an unexpected exception exactly when a truthy "browsers" is not a list of dicts, the drawn browser has no name, its "os" is not a list of dicts, or the drawn OS entry has no name |
| `Generator.GenerateUserAgent` | AgentSmith.py:142-201 | every returned string passes the checker; errors are EmptyDataError, InvalidUserAgentError or UserAgentError; selection errors pass through; an InvalidUserAgentError carries a string the checker rejects |
| `Generator.GenerateFromSelection` | AgentSmith.py:180-195 | after the draws, a non-string OS name or version gives the formatter's error; otherwise the filled template is returned when the checker accepts it and reported otherwise |
| `Generator.UserAgent` | AgentSmith.py:180-189 | the five templates filled with the descriptor, the version and, for the fallback, the name |
| `Generator.ChromeShape` | AgentSmith.py:181 | the Chrome template written out in full |
| `Generator.FirefoxShape` | AgentSmith.py:183 | the Firefox template written out in full, with the version twice |
| `Generator.SafariShape` | AgentSmith.py:185 | the Safari template written out in full |
| `Generator.EdgeShape` | AgentSmith.py:187 | the Edge template written out in full |
| `Generator.OtherShape` | AgentSmith.py:189 | any other name gets the WebKit template with the name as product token |
| `Generator.UserAgentPrefix` | AgentSmith.py:180-189 | every template starts with "Mozilla/5.0 (" and so with the checker's prefix, and is at least 30 characters long |
| `Generator.UserAgentParens` | AgentSmith.py:180-189 | the `(`/`)` counts of a template are those of its pieces plus two fixed groups (one for Firefox, which repeats the version) |
| `Generator.UserAgentKeepsOs` | AgentSmith.py:180-189 | any pattern in the OS descriptor is in the filled template |
| `Generator.KnownBrowserToken` | AgentSmith.py:180-187 | the Chrome, Firefox, Safari and Edge templates each carry a browser pattern |
| `Generator.KnownBrowserCheck` | AgentSmith.py:180-193 | for a known browser the checker accepts the template exactly when its parentheses balance and it carries an OS pattern |
| `Generator.KnownTemplateValid` | AgentSmith.py:180-193 | a known browser with a balanced version and a balanced descriptor carrying an OS pattern yields an accepted string |
| `Generator.FallbackRejected` | AgentSmith.py:188-193 | the fallback template carries no browser pattern of its own: with no 'C', 'F', 'S', 'E' in name, version or descriptor it is rejected |
| `Generator.OsPatternMissing` | AgentSmith.py:180-193 | no template carries an OS pattern of its own: with no 'w', 'X', 'u' in name, version or descriptor it is rejected |
| `Generator.ValidatedCatalogSelects` | AgentSmith.py:152-177 | on a catalog the validator accepts, every draw reaches an OS version, with no EmptyDataError and no unexpected exception |
| `Generator.KnownCombinationSucceeds` | AgentSmith.py:161-195 | a known browser drawn with a known OS, an OS version that is a JSON string, and balanced versions returns its filled template |
| `Generator.KnownCatalogGenerates` | AgentSmith.py:142-195 | on a validated catalog of known browsers and OS names, whose OS versions are all JSON strings and whose versions are balanced, every draw succeeds |
| `Generator.SingleCatalogSelects` | AgentSmith.py:152-177 | a one-browser, one-OS catalog is well formed and every draw selects its only entries |
| `Generator.UnknownBrowserRejected` | AgentSmith.py:188-193 | a well-formed catalog with an unknown browser on Windows, whose name and versions hold no 'C', 'F', 'S' or 'E', fails with InvalidUserAgentError on every draw |
| `Generator.UnknownOsRejected` | AgentSmith.py:111-112 | a well-formed catalog with a known browser on an unknown OS, whose OS name and versions hold no 'w', 'X' or 'u', fails with InvalidUserAgentError on every draw |
| `Generator.ChromeOnWindows` | AgentSmith.py:180-181 | Chrome on Windows with balanced versions returns the Chrome template around "Windows NT v; Win64; x64" |
| `Generator.EmptyOsVersionsReported` | AgentSmith.py:63-64 | the validator reports an OS entry with an empty versions list |
| `Generator.EmptyOsVersionsFiltered` | AgentSmith.py:166-172 | the generator filters that entry out and raises EmptyDataError (no feasible OS) |

## Left out

- `load_user_agents`: file existence and permission checks, opening the file, and `json.load` are I/O and a foreign parser. The model takes an already-parsed `Json` value. `FileNotFoundError` belongs to this part and has no counterpart.
- `main`: command-line arguments, printing and exit codes.
- The `random` module: no pseudo-random generator and no uniformity; each draw is an arbitrary `nat` reduced modulo the list length.
- Exception message texts: errors carry their kind and indices, the rejected user agent, or the cause, not the message.
- JSON numbers are integers. Floats and their `str` form are not modelled.
- `repr` of a string does not escape non-printable non-ASCII characters as Python does. `repr` of a dict prints every member, even a repeated key that Python's dict keeps only once.
- `Generator.FallbackRejected`: proves rejection only when name, version and descriptor lack the letters 'C', 'F', 'S' and 'E'. A name such as "ChromeFork" carries a browser pattern and can pass.
- `Generator.UnknownBrowserRejected`: proved only for browser names and versions without 'C', 'F', 'S' and 'E'. An unknown browser named "ChromeFork" on Windows carries a browser pattern and passes.
- `Generator.OsPatternMissing`: proves rejection only when name, version and descriptor lack the letters 'w', 'X' and 'u'.
- `Generator.UnknownOsRejected`: proved for OS names and versions without 'w', 'X' and 'u'. An unknown OS named, say, "Ubuntu Linux" carries an OS pattern and can pass.
- `Generator.KnownCatalogGenerates`: a sufficient condition for success, not a characterisation. Each of its conditions matters: an OS version that is not a JSON string makes get_os_string raise a UserAgentError, and a version with an unmatched parenthesis is rejected by the check.
