# Elasticsearch reader and writer, modelled in Dafny

The repository reads documents from Elasticsearch one date window at a
time. It pages through the hits with a point-in-time handle or a scroll
scan, and flattens each hit's payload field with the rest of the hit as
`metadata`. For each window with data it yields a batch `{date, index,
data}`. A writer checks such a batch, builds the partition path
`<folder>/<index>/<date>` and hands the data to one of five storage sinks:
S3 JSON, Cloud Storage JSON, local JSON, local CSV or S3 gzip. Reader and
writer each keep a success ledger with one boolean per window or batch. A
small file utility picks the parser for a config file and plans local JSON
dumps.

The Dafny modules follow the Python files:

| module | file | what it holds |
|---|---|---|
| `PyValues` | (shared) | Python values and dicts, truthiness, `str.strip`, `rsplit`, `replace`, `endswith`, integer rendering, a mutable `Dict` |
| `Ledgers` | base_readers.py, base_writers.py | the success ledger (`is_success` / `not_success`) |
| `Effects` | (shared) | the store calls and file writes a sink performs |
| `ElasticSearchSdk` | elastic_search_sdk.py | parameter builders, the two factories, the client (`Cluster`), both paginators |
| `Readers` | readers.py | flattening, the window loop of `run_query`, the reader class |
| `BaseWriters` | base_writers.py | destination table, the five sinks (`Sink`) |
| `Writers` | writers.py | `verify_data`, `write_data`, the writer class |
| `FileManagers` | api_utilities/file_managers.py | `load_file`, `local_json_writer` |

The Elasticsearch client is a `Cluster` object. It holds a scripted
`Backend`: the point-in-time ids it will hand out, the search responses it
will return in order, the scan results, and whether closing a handle
raises. Every call is appended to a call log. An exhausted script answers
with a transport error. Each imperative operation is a method whose
postcondition ties its result and new state to a pure function of the
initial state:

- `PointInTimePaginate` and `PitPages` are tied to `PitRun` / `PitLoop`.
- `RunQuery` and `ProcessWindow` are tied to `RunQuerySpec` / `WindowStep`.
- `NormalizeRecords` is tied to `NormalizeAll`.
- `WriteData` is tied to `VerifyData` and `SinkEffects`.

The lemmas then state what those functions guarantee.

## Model

| member | source | states |
|---|---|---|
| PyValues.StripEmptyIffAllSpace | api_utilities/file_managers.py:43 | `s.strip() == ""` exactly when every character of `s` is whitespace |
| PyValues.TrimStart | api_utilities/file_managers.py:14 | leading `strip`: the result is a suffix, starts with a non-space, and only spaces were dropped |
| PyValues.TrimEnd | api_utilities/file_managers.py:14 | trailing `strip`: the result is a prefix, ends with a non-space, and only spaces were dropped |
| PyValues.Strip | api_utilities/file_managers.py:17 | `strip()` gives a contiguous part of the string that neither starts nor ends with whitespace, and everything dropped on either side is whitespace |
| PyValues.Decimal | elastic_search_sdk.py:58 | the rendering of an integer in an f-string is a non-empty digit string with no leading zero |
| PyValues.Render | elastic_search_sdk.py:58 | an f-string gives a string back unchanged, is empty only for the empty string, and renders an integer as its decimal digits (with `-` when negative), which parse back to it |
| PyValues.DecimalRoundTrip | elastic_search_sdk.py:58 | parsing the rendered integer gives the integer back |
| PyValues.LastIndexOf | base_writers.py:197 | the position found holds the separator and nothing after it does; none exactly when the separator is absent |
| PyValues.RSplitHead | base_writers.py:197 | `rsplit(c, 1)[0]`: the whole string when `c` is absent, otherwise the part before the last `c` |
| PyValues.RSplitLast | api_utilities/file_managers.py:14 | `rsplit(c, 1)[-1]` holds no `c`; the whole string when `c` is absent, otherwise head, `c` and it rebuild the string |
| PyValues.RSplitJoin | base_writers.py:197 | `rsplit(c, 1)` of `head + c + tail`, with no `c` in `tail`, gives back `head` and `tail` |
| PyValues.RSplitLastIsSuffix | api_utilities/file_managers.py:14 | `rsplit(c, 1)[-1]` is a suffix of the string |
| PyValues.RemoveAll | readers.py:100 | `replace(c, "")` leaves no `c`, never lengthens, and adds no character |
| PyValues.RemoveAllConcat | readers.py:100 | `replace(c, "")` distributes over concatenation |
| PyValues.RemoveAllAbsent | readers.py:100 | `replace(c, "")` leaves a string without `c` unchanged |
| PyValues.Dict.Pop | readers.py:42 | `pop` returns the value and removes the key; a missing key raises KeyError and leaves the dict as it was |
| PyValues.Dict.Set | elastic_search_sdk.py:216 | item assignment sets exactly one key |
| Ledgers.Ledger.constructor | readers.py:26 | each reader and writer starts with its own empty ledger |
| Ledgers.Ledger.IsSuccess | base_readers.py:53-55 | appends exactly one `True` |
| Ledgers.Ledger.NotSuccess | base_readers.py:57-59 | appends exactly one `False` |
| Ledgers.CountTrue | readers.py:93-98 | the number of successes is at most the ledger length; it equals it iff all entries succeed and is 0 iff none do |
| Ledgers.CountTrueConcat | readers.py:93-98 | success counts add over concatenated ledgers |
| ElasticSearchSdk.BuildParams | elastic_search_sdk.py:52-83 | KeyError for a missing index, then a missing query; otherwise exactly six keys, the index and query copied, the documented defaults 10000 / 20 / None, and a timeout string ending in `s`: `"60s"` when unset, the configured string followed by `s` when it is a string |
| ElasticSearchSdk.TimeoutReadsBack | elastic_search_sdk.py:58 | a non-negative integer timeout is rendered as its decimal digits followed by `s`, and reads back to the same number |
| ElasticSearchSdk.DslIsSqlWithQueryKey | elastic_search_sdk.py:73-83 | the DSL parameters are the SQL parameters with `q` renamed to `query`, and each fails exactly when the other does |
| ElasticSearchSdk.GetHandler | elastic_search_sdk.py:89-104 | exactly `"sql"` and `"dsl"` select a builder, the one they name; any other hashable value raises the KeyError with the value in its message, and a list or dict raises TypeError |
| ElasticSearchSdk.GetPaginator | elastic_search_sdk.py:243-259 | exactly `"scroll"` and `"point_in_time"` select a paginator, the one they name; other values raise the KeyError `wrong value paginator …`, and a list or dict raises TypeError |
| ElasticSearchSdk.Cluster.OpenPointInTime | elastic_search_sdk.py:192-197 | logs one open call and returns the next scripted handle id, or a transport error with the backend unchanged |
| ElasticSearchSdk.Cluster.SearchPage | elastic_search_sdk.py:217-225 | logs one search call with the handle, keep-alive, parameters and sort, and returns the next scripted response or a transport error |
| ElasticSearchSdk.Cluster.ClosePointInTime | elastic_search_sdk.py:173 | logs one close call for the given id and reports whether it raised |
| ElasticSearchSdk.Cluster.ScanAll | elastic_search_sdk.py:144-154 | logs one scan call with the query, scroll, size and timeout, and returns the next scripted scan |
| ElasticSearchSdk.StartPit | elastic_search_sdk.py:179-197 | opens one handle on the index with the keep-alive and returns its id |
| ElasticSearchSdk.StopPit | elastic_search_sdk.py:162-177 | closes the handle; a failing close is swallowed and reported as `False`, the backend is unchanged |
| ElasticSearchSdk.KeepAlive | elastic_search_sdk.py:207 | the keep-alive is `"5m"` when unset, a configured string followed by `m`, or a non-negative integer's digits followed by `m` |
| ElasticSearchSdk.Sent | elastic_search_sdk.py:213-216 | the first search, or any search without a configured sort, sends the parameters unchanged; later sorted searches set `search_after` to the cursor and change nothing else |
| ElasticSearchSdk.PitLoop | elastic_search_sdk.py:212-235 | the loop starts with a search, and ends without error only right after a close call |
| ElasticSearchSdk.PitLoopKeepsParams | elastic_search_sdk.py:213-216 | the loop changes no parameter other than `search_after` |
| ElasticSearchSdk.PitLoopConsumesPages | elastic_search_sdk.py:217-235 | the loop consumes the scripted pages in order, at least one when any is left, and changes nothing else of the backend |
| ElasticSearchSdk.PitRun | elastic_search_sdk.py:199-211 | a missing index in the configs fails before any call; a missing index in the parameters fails right after the handle is opened; the parameters are untouched unless the loop is entered, and then they lose `index` and change in nothing but `search_after` |
| ElasticSearchSdk.PointInTimePaginate | elastic_search_sdk.py:199-235 | the hits, the error, the final parameter dict, the backend and the appended call log are those of `PitRun` on the initial state |
| ElasticSearchSdk.PitPages | elastic_search_sdk.py:212-235 | the `while True` loop produces exactly what `PitLoop` specifies, starting from counter 0 and an empty cursor |
| ElasticSearchSdk.ScrollPaginate | elastic_search_sdk.py:130-156 | one scan call with the configured scroll, size and timeout; its hits are passed on unchanged and in order |
| ElasticSearchSdk.ScrollRun | elastic_search_sdk.py:130-156 | one scan call on the unchanged parameters, with the defaults `5m`, 10000 and 60 for unset keys; it succeeds exactly when the backend has a scan, whose hits it yields, and otherwise fails with a transport error and no hits |
| ElasticSearchSdk.PaginateRun | elastic_search_sdk.py:255-259 | scroll paging makes one scan call and leaves the parameters alone; point-in-time paging opens a handle first and, once in its loop, drops `index` from the parameters and changes nothing else but `search_after` |
| ElasticSearchSdk.Paginate | elastic_search_sdk.py:255-259 | the selected paginator runs as `PaginateRun` specifies: hits, error, backend, appended call log, and the caller's parameter dict left as that run leaves it |
| ElasticSearchSdk.PitLoopUnfold | elastic_search_sdk.py:226-235 | a page with hits whose last hit has a sort value yields its hits, then continues with that response's handle id, counter + 1 and that sort value as cursor (unfolding step) |
| ElasticSearchSdk.PitLoopFirstCall | elastic_search_sdk.py:213-225 | every loop turn begins with a search using the current handle, the keep-alive, the current parameters and the configured sort (unfolding step) |
| ElasticSearchSdk.PitLoopExits | elastic_search_sdk.py:226-234 | an exhausted backend raises, an empty page closes the handle of that response and ends, and a last hit without `sort` raises KeyError after its page's hits are yielded (unfolding step) |
| ElasticSearchSdk.PitRunEntersLoop | elastic_search_sdk.py:206-211 | after the index check the handle is opened with `<keep_alive>m`, `index` is deleted from the parameters, and the loop starts (unfolding step) |
| ElasticSearchSdk.PitLoopClosesAt | elastic_search_sdk.py:228-230 | when page `k` is the first empty page, the loop yields the hits of pages `0..k-1` in order, makes `k+2` calls ending with the close of page `k`'s handle, and consumes `k+1` pages |
| ElasticSearchSdk.PitLoopSearches | elastic_search_sdk.py:213-225 | the `i`-th search of the loop uses the handle returned by the previous response and the parameters as they stand after `i` turns |
| ElasticSearchSdk.PitLoopFails | elastic_search_sdk.py:226-234 | without an empty page reached through sorted pages, the loop ends with an error and never closes the handle |
| ElasticSearchSdk.PitRunSucceedsIffCloses | elastic_search_sdk.py:226-230 | a paging run succeeds exactly when some page is empty and every page before it ends with a sorted hit; otherwise no close call is made |
| ElasticSearchSdk.PitRunCloses | elastic_search_sdk.py:199-235 | a successful run opens first, closes last with the final response's id, yields all hits before the empty page, and makes `k+3` calls |
| ElasticSearchSdk.PitRunSearch | elastic_search_sdk.py:213-225 | every search uses the previous response's handle and the keep-alive and never carries `index`; it carries `search_after` iff it is not the first search and a sort is configured, and then the value is the previous page's last sort value |
| Readers.BatchRecord | readers.py:99-103 | a yielded batch is a dict with exactly `date`, `index` and `data` |
| Readers.Flatten | readers.py:32-44 | KeyError for a missing payload field, AttributeError for a non-dict payload; otherwise the payload's keys plus `metadata`, with the rest of the hit under `metadata` and the other payload entries kept |
| Readers.Unflatten | readers.py:42-43 | puts the `metadata` part back under the field name |
| Readers.FlattenRoundTrip | readers.py:42-44 | flattening a hit whose payload has no `metadata` key loses nothing: unflattening gives the hit back |
| Readers.DataField | readers.py:90 | a missing `data_field` raises KeyError; exactly a string names the field; a list or dict raises the unhashable TypeError; None, a boolean or an integer raises KeyError with its rendering |
| Readers.NormalizeAll | readers.py:89-92 | no hits flatten to nothing whatever the field; a failed field lookup fails any non-empty run; success keeps the length |
| Readers.NormalizeAllMeaning | readers.py:89-92 | the comprehension succeeds iff every hit flattens, position `i` holds hit `i` flattened, and a failure is the first hit's error |
| Readers.FirstItem | readers.py:101 | `configs["index"][0]`: the first element of a non-empty list, the first character of a non-empty string; IndexError when empty, KeyError `0` for a dict, TypeError for None, booleans and integers |
| Readers.WindowStep | readers.py:82-103 | a window appends at most one ledger entry and yields at most one batch, only after a success; a batch carries the dash-free date, non-empty data and the first index item |
| Readers.RunWindowsBounds | readers.py:75-103 | a run appends at most one ledger entry per window and yields at most one batch per success; every batch is non-empty and names the first index item |
| Readers.RunWindows | readers.py:75-103 | no windows make an empty run; a run without error records exactly one ledger entry per window |
| Readers.RunQuerySpec | readers.py:69-74 | a missing or wrong paginator, then a missing or wrong syntax, raises before any window is queried or any entry recorded |
| Readers.ElasticSearchReader.constructor | readers.py:22-26 | no service yet and a fresh empty ledger |
| Readers.ElasticSearchReader.Nomalize | readers.py:32-44 | returns the flattened hit and removes the field from the caller's dict, also when the field is not a dict |
| Readers.ElasticSearchReader.NormalizeRecords | readers.py:89-92 | the loop over hits computes exactly `NormalizeAll` |
| Readers.ElasticSearchReader.QueryHandler | readers.py:46-61 | passes the paginator's hits and calls through unchanged, and leaves the caller's parameter dict as the paginator leaves it |
| Readers.ElasticSearchReader.RunQuery | readers.py:63-103 | the batches, error, ledger entries, backend and call log are exactly `RunQuerySpec` of the initial backend |
| Readers.ElasticSearchReader.ProcessWindow | readers.py:82-103 | one window with fresh parameters is processed as `WindowStep` specifies |
| Readers.RunWindowsComplete | readers.py:75-103 | a run without error records one entry per window and one batch per success, and the batch dates are the dash-free labels of the successful windows, in order |
| Readers.WindowOutcome | readers.py:89-103 | an empty window records `False` and yields nothing; otherwise the ledger gets `True` and the batch holds every hit flattened, in order |
| Readers.BatchDateOfLabel | readers.py:100 | `YYYY-MM-DD` becomes `YYYYMMDD` |
| BaseWriters.GetResource | base_writers.py:252-266 | exactly the five identifiers select a sink, the one they name; others raise NotImplementedError listing the allowed values |
| BaseWriters.GetResourceSelects | base_writers.py:254-260 | each sink is selected by its own identifier and by no other |
| BaseWriters.SinkEffects | base_writers.py:110-231 | S3 sinks make one store call keyed `<path>.json` / `.gzip`; Cloud Storage makes one insert call with the batch as body and `<path>.json` as its media argument; local sinks create `bucket/<path up to its last />` and then write `bucket/<path>.json` / `.csv` |
| BaseWriters.PersistedStripsToPath | base_writers.py:121 | the persisted key ends with the sink's suffix, and stripping it gives back the partition path |
| BaseWriters.PersistedInjective | base_writers.py:121 | two different partition paths never persist to the same place in one sink |
| BaseWriters.LocalFileInCreatedDir | base_writers.py:197-203 | a local sink writes its file inside the directory it has just created |
| BaseWriters.Sink.WriteToDestination | base_writers.py:110-231 | appends exactly the sink's effects for the path and data |
| Writers.WritePathSplits | writers.py:41 | the partition path splits back into folder, index and date when the latter two hold no `/` |
| Writers.WritePath | writers.py:41 | the partition path is the folder, a `/`, the rendered index, a `/` and the rendered date |
| Writers.ReaderBatchIsWritable | writers.py:38-43 | a batch the reader yields passes `verify_data`, has truthy data, and is written under `<folder>/<index>/<date>` |
| Writers.ElasticSearchWriter.constructor | writers.py:15-24 | a fresh empty ledger and a fresh sink for the destination |
| Writers.ElasticSearchWriter.VerifyData | writers.py:26-43 | KeyError for `data`, then `date`, then `index`; otherwise the partition path and the data unchanged |
| Writers.ElasticSearchWriter.WriteData | base_writers.py:268-275 | a failed check changes nothing; falsy data records `False` without calling the sink; otherwise one sink call and then `True` |
| Writers.NewElasticSearchWriter | base_writers.py:239-266 | construction fails with NotImplementedError exactly for an unknown destination |
| FileManagers.Load | api_utilities/file_managers.py:14-23 | an extension outside json/yml/yaml raises TypeError; a parsed config is read from the stripped path |
| FileManagers.Extension | api_utilities/file_managers.py:14 | the extension holds no `.`, ends the stripped path, and is the whole stripped path when it has no `.` |
| FileManagers.ParserFor | api_utilities/file_managers.py:18-23 | JSON exactly for a `json` suffix, YAML for a `yml` suffix otherwise, and the empty config exactly when neither suffix matches; a parsed config reads the given path |
| FileManagers.LoadFile | api_utilities/file_managers.py:9-25 | TypeError exactly when the extension after the last `.` of the stripped path is not json, yml or yaml; a parsed config is read from the stripped path |
| FileManagers.EndsWithExtension | api_utilities/file_managers.py:14 | the stripped path ends with its extension |
| FileManagers.ParserForJson | api_utilities/file_managers.py:21-23 | a path ending in `json` is parsed as JSON |
| FileManagers.ParserForYml | api_utilities/file_managers.py:18-20 | a path ending in `yml` is parsed as YAML |
| FileManagers.ParserForYaml | api_utilities/file_managers.py:18-23 | a path ending in `yaml` matches neither suffix test |
| FileManagers.LoadDispatch | api_utilities/file_managers.py:14-23 | for a path ending in its extension: json goes to JSON, yml to YAML, and yaml to the empty config |
| FileManagers.LoadFileDispatch | api_utilities/file_managers.py:9-25 | `load_file` sends json to JSON, yml to YAML, and yaml to the empty config |
| FileManagers.LoadFileDropsYaml | api_utilities/file_managers.py:18-23 | `configs.yaml` is accepted and returns `{}` |
| FileManagers.LoadIntended | api_utilities/file_managers.py:14-23 | corrected body: every accepted extension is parsed |
| FileManagers.LoadFileIntended | api_utilities/file_managers.py:9-25 | corrected `load_file`: TypeError for the same paths, and every accepted path is parsed from the stripped path |
| FileManagers.LoadIntendedAgrees | api_utilities/file_managers.py:14-23 | the correction parses every accepted path, agrees wherever the original parses, and differs exactly for yaml |
| FileManagers.LoadFileIntendedAgrees | api_utilities/file_managers.py:9-25 | the corrected `load_file` agrees with the original wherever the original reads a file; the original returns `{}` exactly for yaml |
| FileManagers.FileDir | api_utilities/file_managers.py:37-39 | the target directory is the root, or `root/folder` for a truthy folder |
| FileManagers.LocalJsonWriter | api_utilities/file_managers.py:28-50 | the directory is always created first; ValueError exactly for a None or blank filename; otherwise one write of the payload to `<dir>/<filename>.json` with the given mode |
| FileManagers.LocalJsonWriterRefuses | api_utilities/file_managers.py:43-44 | the filename is refused exactly when it is None or all whitespace |
| FileManagers.LocalJsonWriterTarget | api_utilities/file_managers.py:46-48 | an accepted file is written inside the directory just created, named `<filename>.json` |

## Left out

- Authentication (`BasicAuthAuthenticator`, the AWS, GCP and local authenticators) and the secrets file are not modelled. The reader's client is passed in to `RunQuery`, and a sink is chosen by destination only.
- `date_range_iterator` (api_utilities/date_managers.py) is not part of this model. `RunQuery` takes the list of `YYYY-MM-DD` window labels it would produce.
- Loading the reader's config and credential files in `ElasticSearchReader.__init__` is not modelled. The constructor receives the loaded dictionaries; `load_file` itself is modelled in `FileManagers`.
- `helpers.scan` is an external call. Its whole result is one scripted answer, so its own scrolling, clearing and `raise_on_error` behaviour are not modelled.
- The bytes written are not modelled: JSON, CSV and gzip encoding, file contents and `print` output. Effects record the target, mode, format and data handed over.
- `APIRequestsSessionsReader.get_session` is left out. It configures HTTP retries on a session and is not used by the Elasticsearch reader.
- Generators are evaluated eagerly. A point-in-time handle left open because a consumer stops early is not represented.
- Readers.WindowStep: when flattening a hit fails, the source stops pulling pages at that hit. The model's call log still holds every page the paginator fetches before its own stop.
- ElasticSearchSdk.PitRun: the cursor is read from the hit as returned. The source reads it after `nomalize` has popped the payload field from that same dict, which differs only when `data_field` is `"sort"`.
- ElasticSearchSdk.PitRun: responses are well formed (`hits.hits` and `pit_id` present). A malformed response body is not modelled.
- PyValues.Render: lists and dicts render as placeholders, not their Python `repr`. Only the renderings of None, booleans, integers and strings are exact.
- Python floats are not modelled. Integers are unbounded, as in Python.
- Writers.ElasticSearchWriter.VerifyData: the payload is a dict. A payload of another type (raising TypeError on subscription) is not modelled.
- Writers.ElasticSearchWriter.constructor: requires a known destination. The raise for an unknown one is modelled by `NewElasticSearchWriter`.
- Readers.ElasticSearchReader.QueryHandler: requires a client, which `RunQuery` always sets first.
- The class-level `success` lists of `BaseReader` and `BaseWriter` are shadowed by instance lists in both concrete classes, so each object gets its own `Ledger`.
- Behaviour some writer tests expect but the code does not implement (type checks on `data`, `date` and `index`) is not modelled; the model follows `verify_data` as written.
- Writers.ElasticSearchWriter.WriteData: a sink call that raises (S3 `put_object`, Cloud Storage `insert`, opening or writing the local file) is not modelled. In the source that exception propagates out of `write_data` before `is_success`, so the ledger is unchanged; the model's sinks always succeed.
- BaseWriters.Sink.WriteToDestination: the store or file write always succeeds; a failure of the external service or file system is not modelled.
- The `fmt` argument of `load_file` is unused by the code and is left out.

## Findings

| source | as written | input that shows it | evidently intended | confidence | as-written member | corrected member |
|---|---|---|---|---|---|---|
| api_utilities/file_managers.py:14-23 | the extension check accepts `yaml`, but only the suffixes `yml` and `json` select a parser, so an accepted `.yaml` file is never read and `{}` is returned | `load_file("configs.yaml")` | a `.yaml` file is parsed as YAML like a `.yml` file | high; not executed | FileManagers.LoadFileDropsYaml | FileManagers.LoadFileIntended |
