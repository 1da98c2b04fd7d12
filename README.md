# I14Y dataset import: row-to-payload transformer and codelist cache

This project models the core of the I14Y catalogue import in Dafny. The import has three parts:

- **`ImportDatasets`** (`import_datasets.dfy`) turns one spreadsheet row into the nested JSON payload of one dataset:
  - language objects and `{"uri": ...}` objects;
  - keywords from slots 1 to 3;
  - distributions from slots 1 to 3;
  - the contact point and the temporal coverage;
  - `create_dataset_payload` as a whole.

  A row is a map from column name to an optional cell. A column that is not a key is not in the sheet. A column mapped to `None` holds pandas' missing value. Building a payload either raises or succeeds:
  - It raises (`Failure`) on `row[...]` of a mandatory column the sheet lacks (`KeyMissing`).
  - It raises on `.isoformat()` of a cell that is not a date (`NotADate`).
  - Otherwise it yields exactly `ExpectedData(row, publisher)`. That is a declarative description of the dictionary that the function fills step by step.
- **`ImportMain`** (`import_main.dfy`) models the counting loop of `main` over the rows:
  - A row without a title is skipped.
  - A missing `title` column, or, on a titled row, a missing `identificator` column, raises outside the `try`, and this ends the run.
  - Otherwise the row is counted as a success or as an error.
  - A submission that the catalogue accepts but whose reply is not a JSON object is counted as both: the `.get` on the reply raises after the success counter has already been incremented.
- **`CodelistUtils`** (`codelist_utils.dfy`) models the codelist helpers:
  - a class `Codelists` holding the three module-level caches;
  - the getters, which build a label-or-code → code dictionary from a fetch result or serve it from the cache;
  - the `map_*_to_code` lookups. These return `None` for a missing or empty value, and otherwise the looked-up code, passing an unknown value through unchanged.

Each imperative builder or loop is proved equal to a declarative function:
- `ProcessKeywords` to `Keywords`;
- `ProcessDistribution` to `DistributionOf`;
- `CollectEntries` to `Build`/`Fetch`;
- `ImportRows` to `Run`.

The properties are proved about those functions:
- Keywords and distributions keep slot order and leave no gaps.
- A run aborts exactly when some row is fatal, and its counters add up.
- Running over concatenated sheets composes.
- Every code maps to itself when no label shadows another entry's code.
- The built dictionary is idempotent under lookup when, in addition, the seed is idempotent and no seed value is the label of an entry with another code. For the license map, this means no entry is labelled `UNKNOWN` with a code other than `UNKNOWN`.
- The access-rights table has fixed keys and values.
- The cache discipline holds: a hit requests nothing, a successful fetch is cached, and a failed fetch returns `{}` (themes) or `{'Unknown': 'UNKNOWN'}` (license) without caching anything.

The model follows what the code does, in particular:
- `create_dataset_payload` copies `accessRights` and `themes_label` verbatim. It maps no label to a code and has no `PUBLIC` default.
- It copies each distribution URL to its own key only, with no reconciliation between access and download URLs.
- A failed codelist fetch is not cached, so the next lookup requests again (`LicenseRetry`, `LicenseLookupRetry`).

## Model

| member | source | states |
|---|---|---|
| ImportDatasets.LanguageObject | src/import_datasets.py:7-9 | the result is an object with the single key `lang` (German by default) holding the text |
| ImportDatasets.CreateUriLabelObject | src/import_datasets.py:11-16 | `uri` is always there; `label` is there iff a non-empty label is given, as a German language object; no other key |
| ImportDatasets.Keywords | src/import_datasets.py:18-24 | slots 1..n yield at most n keywords |
| ImportDatasets.ProcessKeywords | src/import_datasets.py:18-24 | the loop over slots 1 to 3 yields exactly the keyword list `Keywords(row, 3)` |
| ImportDatasets.KeywordsAreSlots | src/import_datasets.py:20-23 | one keyword per present slot; the j-th keyword wraps the cell of the j-th present slot, so order is kept and gaps leave no trace |
| ImportDatasets.KeywordGap | src/import_datasets.py:21-23 | slots 1 and 3 present and slot 2 absent give exactly the two keywords of slots 1 and 3, in that order |
| ImportDatasets.DistributionOf | src/import_datasets.py:26-42 | None iff neither URL cell is present; otherwise `accessUrl`, `downloadUrl` and `license` are there iff their cells are, as `{"uri": cell}` and `{"code": cell}`, with no other key and no label |
| ImportDatasets.ProcessDistribution | src/import_datasets.py:26-42 | the step-by-step dictionary equals `DistributionOf(row, index)` |
| ImportDatasets.Distributions | src/import_datasets.py:94-98 | at most n distributions, each an object with an access or a download URL |
| ImportDatasets.DistributionsAreSlots | src/import_datasets.py:94-98 | one distribution per slot with a URL; the j-th is that of the j-th such slot |
| ImportDatasets.ProcessDistributions | src/import_datasets.py:94-98 | the loop over slots 1 to 3 yields `Distributions(row, 3)` |
| ImportDatasets.IsoOrNull | src/import_datasets.py:53-54 | succeeds iff the column exists and its cell is missing or a date; yields the ISO text or null; otherwise reports the missing key or the non-date cell |
| ImportDatasets.ContactPoint | src/import_datasets.py:64-73 | kind is "Organization"; `fn`, `hasEmail` and `hasTelephone` are there iff their cells are, with the name as a German language object; no other key |
| ImportDatasets.BuildContactPoint | src/import_datasets.py:65-73 | the step-by-step contact point equals `ContactPoint(row)` |
| ImportDatasets.TemporalCoverage | src/import_datasets.py:85-91 | `start` and `end` are there iff their cells are, as ISO text; no other key |
| ImportDatasets.BuildTemporalCoverage | src/import_datasets.py:86-90 | raises iff a present start or end cell is not a date, with that cause; otherwise yields `TemporalCoverage(row)` |
| ImportDatasets.CreateDatasetPayload | src/import_datasets.py:44-103 | succeeds iff every mandatory column exists and every date cell read is a date; a failure names a real cause; a success is exactly `ExpectedData`: the mandatory fields copied raw, and each optional key there iff its trigger cells are |
| ImportMain.Step | src/import_datasets.py:133-146 | one iteration raises iff the row is fatal; skips an untitled row; otherwise adds one success if the payload builds and is accepted, and one error if not or if the reply is not an object |
| ImportMain.ImportRows | src/import_datasets.py:133-147 | the loop completes iff `Run` does, with the counters `Run` gives |
| ImportMain.RunAborts | src/import_datasets.py:134-137 | a run raises iff some row lacks the `title` column, or has a title but no `identificator` column; a row that fails to build or submit never ends the run |
| ImportMain.RunCounts | src/import_datasets.py:138-152 | successes are the succeeding rows; the total is the titled rows plus the rows counted twice |
| ImportMain.RunConcat | src/import_datasets.py:133-146 | running over two sheets in sequence is running over the first and then over the second from its counters |
| ImportMain.ThreeRows | src/import_datasets.py:138-146 | accepted, rejected, and accepted with a non-object reply give two successes and two errors for three rows |
| CodelistUtils.Build | src/codelist_utils.py:21-28 | the keys are the seed keys plus every label and code of a contributing entry; a key so brought maps to one of the codes; any other key keeps its seed value |
| CodelistUtils.CollectEntries | src/codelist_utils.py:22-28 | the loop yields `Build(seed, entries)`, or fails iff some entry's name raises |
| CodelistUtils.TouchedHas | src/codelist_utils.py:25-28 | an entry with a non-empty code and label brings both as keys |
| CodelistUtils.CodesFrom | src/codelist_utils.py:25-28 | every code in the dictionary comes from a contributing entry |
| CodelistUtils.BuildLastWriter | src/codelist_utils.py:22-28 | a key the entries bring holds the code of the last contributing entry having it as label or code; no later contributing entry has it |
| CodelistUtils.CodesMapToThemselves | src/codelist_utils.py:26-28 | when no label is another entry's different code, every code maps to itself |
| CodelistUtils.LabelMapsToItsCode | src/codelist_utils.py:26-28 | without shadowing, a label naming only one code maps to that code |
| CodelistUtils.BuildIdempotent | src/codelist_utils.py:22-28 | with an idempotent seed, no shadowing and no seed value reused as another code's label, looking up twice equals looking up once |
| CodelistUtils.Resolve | src/codelist_utils.py:90 | a known value gives its mapped code, an unknown value is passed through |
| CodelistUtils.ResolveTwice | src/codelist_utils.py:84-90 | on an idempotent dictionary, resolving the result again changes nothing |
| CodelistUtils.AccessRightsKeys | src/codelist_utils.py:69-79 | the table's keys are the four German labels and the four codes |
| CodelistUtils.AccessRightsCodes | src/codelist_utils.py:69-79 | every value is one of the four codes, each code maps to itself, and the table is idempotent |
| CodelistUtils.LicenseSeedKept | src/codelist_utils.py:48-55 | `Unknown` still maps to `UNKNOWN` after a fetch whose entries do not bring `Unknown` |
| CodelistUtils.Codelists.constructor | src/codelist_utils.py:5-7 | all three caches start empty |
| CodelistUtils.Codelists.GetThemesCodelist | src/codelist_utils.py:9-34 | a hit returns the cache and requests nothing; a miss requests: success builds the dictionary and caches it, failure returns `{}` and caches nothing; the other caches are untouched |
| CodelistUtils.Codelists.GetLicenseCodelist | src/codelist_utils.py:36-61 | as for themes, from the `{'Unknown': 'UNKNOWN'}` seed, which a failed fetch returns uncached; the result always has the `Unknown` key |
| CodelistUtils.Codelists.GetAccessRightsCodelist | src/codelist_utils.py:63-82 | always the fixed table, cached afterwards |
| CodelistUtils.Codelists.MapThemeToCode | src/codelist_utils.py:84-90 | a missing or empty value gives None and touches no cache; otherwise the value resolved in the cached or freshly built themes dictionary (`{}` on failure), and on a miss the cache afterwards holds the built dictionary, or nothing when the fetch failed |
| CodelistUtils.Codelists.MapLicenseToCode | src/codelist_utils.py:92-98 | as for themes, through the license dictionary (the seed on failure); on a miss the cache afterwards holds the built dictionary, or nothing when the fetch failed |
| CodelistUtils.Codelists.MapAccessRightsToCode | src/codelist_utils.py:100-106 | None for a missing or empty value, cache untouched; otherwise the value resolved in the fixed table, which is cached afterwards |
| CodelistUtils.LicenseRetry | src/codelist_utils.py:36-61 | after a failed fetch returns the seed, the next call requests again and yields the built dictionary |
| CodelistUtils.LicenseLookupRetry | src/codelist_utils.py:92-98 | after a failed fetch, `Unknown` still maps to `UNKNOWN`; the next lookup fetches again, resolves in the built dictionary and caches it |

## Left out

- HTTP is not modelled: `requests.get`/`requests.post`, status checks and JSON decoding are left out. A codelist fetch is an input (`None` for any failure before the `data` list is read). A submission's outcome is an input per row (`Submission`).
- Reading the sheet (`pd.read_excel`), the configuration constants and all `print` output are left out. `DEFAULT_PUBLISHER` is a parameter; `API_TOKEN` and the URLs play no part.
- `isoformat()` is not modelled: a date cell carries the text that `isoformat()` yields.
- Cell types are simplified: a cell is text or a date, so numbers and other pandas types fall under text.
- Dictionary key order and JSON serialisation are not modelled. A payload is a record with one optional field per optional key.
- `submit_to_api` is not modelled beyond its outcome: building the request and the response's `id` in the success line have no effect on the counters, except a reply without `.get`.
- `create_template.py` is not part of this model.
- Codelist entries: a `code` that is not text (a number, say) is not modelled. The source would store such a code as it is, as a value and as a key; the model treats codes as text.
- Aliasing of the cached dictionaries is not modelled. The getters return the cached object itself, and a caller mutating it would change the cache; the model returns values.
- ImportDatasets.CreateDatasetPayload: when several causes apply, the contract says that the reported failure names a real cause, not which one is reported first. The method itself reports them in the source's order.
- ImportDatasets.Keywords: its own contract only bounds the length; the content and order are stated by `KeywordsAreSlots`.
