# pytest-api-cov in Dafny

pytest-api-cov is a pytest plugin that measures which routes of a Flask, FastAPI or Django app a test run calls. It does four things:

- It discovers the app's routes as `"METHOD /path"` strings, from the framework or from an OpenAPI document.
- It records each request made through its tracking test client under the calling test's name.
- Under pytest-xdist, it merges the per-worker recordings on the master.
- It splits the discovered routes into covered, uncovered and excluded, computes the coverage percentage and derives a pass/fail status.

This project models that core and proves its properties:

- `textops.dfy`: the Python string operations the code relies on. These are ASCII `upper`/`lower`, code-point `sorted`, `split('.')[0]`, `strip`, and the single-pass `replace('//', '/')`.
- `models.dfy`: the recorder, the discovery list and the session data. Their contract is the one pinned by the recorder tests:
  - `ApiCallRecorder`: record, merge and serialise.
  - `EndpointDiscovery`: add without duplicates; merge.
  - `SessionData`: tolerant worker merge.
- `report.dfy`: the report's contract, as pinned by the report tests:
  - template-to-regex matching;
  - `*` globs with `!` negation;
  - the covered / uncovered / excluded partition;
  - the coverage percentage in tenths;
  - caller aggregation;
  - the exit status.
- `frameworks.dfy`:
  - adapter selection;
  - Flask, FastAPI and Django route enumeration, including the recursive walk over Django resolvers;
  - the three tracking clients, which record before forwarding.
- `openapi.dfy`: `parse_openapi_spec`, with its empty-result fallbacks. It extracts the Path Item keys of the Paths Object that are HTTP methods (sections 4.7.8 and 4.7.9 of the OpenAPI Specification 3.0.3).
- `plugin.dfy`: the plugin's hooks:
  - the supported-framework check;
  - the log level;
  - the `client` fixture, which discovers endpoints at most once;
  - `pytest_sessionfinish`, covering both the worker output and the master merge and report;
  - `pytest_testnodedown`, which unions worker maps and keeps the first non-empty discovered list;
  - exit-status propagation.
- `wrappers.dfy`: an `Option` type.

The source keeps state in objects and updates it step by step. The model follows that:

- The recorder, the discovery list, the session, the xdist state, the logger, the Django pattern collector and the tracking clients are classes. Their methods have `modifies` clauses.
- The loops are loops:
  - the two `update` loops of the master merge;
  - the worker merge;
  - the Django pattern walk;
  - the OpenAPI path loop.
- Each loop is proved against a function that specifies it.
- Comprehensions, decision chains and queries are functions. Their properties are proved as lemmas.

`models.py` and `report.py` are not part of this model's sources. Their behaviour is taken from the contracts that `tests/unit/test_models.py` and `tests/unit/test_report.py` assert. Where those tests leave a choice open, the model makes one choice, and each is listed under "Left out" on a line that starts with the member that makes it.

Two points of ordering and precedence follow the code exactly:

- The tracking clients record a call before forwarding the request (`frameworks.py:57-60`, `95-96`, `144-147`). The `events` sequence of `Frameworks.TrackingClient` makes that order visible.
- The master prefers the workers' discovered list whenever one was stored (`plugin.py:239-241`). `Plugin.MasterDiscovered` does the same.

## Model

| member | source | states |
|---|---|---|
| TextOps.Upper | src/pytest_api_cov/openapi.py:31 | `str.upper` on ASCII: same length, and each character is mapped to its upper-case letter |
| TextOps.UpperIdempotent | src/pytest_api_cov/openapi.py:31 | upper-casing an already upper-cased name changes nothing |
| TextOps.Lower | src/pytest_api_cov/openapi.py:24 | `str.lower` on ASCII: same length, and each character is mapped to its lower-case letter |
| TextOps.SortCorrect | src/pytest_api_cov/frameworks.py:39 | `sorted` returns an ordered permutation of its input |
| TextOps.SortSameElements | src/pytest_api_cov/frameworks.py:39 | sorting neither adds nor loses an element |
| TextOps.SortedUnique | src/pytest_api_cov/frameworks.py:39 | two ordered permutations of the same list are equal, so the sorted output does not depend on the input order |
| TextOps.SortedElements | src/pytest_api_cov/frameworks.py:121-123 | walking a set of method names gives each member exactly once, in strictly increasing order |
| TextOps.FirstSegment | src/pytest_api_cov/plugin.py:26 | `split('.')[0]` is a prefix without a dot, and it is the whole name exactly when the name has no dot |
| TextOps.FirstSegmentOf | src/pytest_api_cov/plugin.py:26 | the first segment of `x + "." + rest` is `x` whenever `x` has no dot |
| TextOps.StripLeft | src/pytest_api_cov/frameworks.py:114 | strips exactly the leading run of characters from the set: what remains is a suffix that does not start with one of them |
| TextOps.StripRight | src/pytest_api_cov/frameworks.py:114 | strips exactly the trailing run of characters from the set: what remains is a prefix that does not end with one of them |
| TextOps.CollapseKeepsPlain | src/pytest_api_cov/frameworks.py:115 | `replace("//", "/")` leaves a path with no doubled slash unchanged |
| TextOps.CollapseSinglePass | src/pytest_api_cov/frameworks.py:115 | the replacement is one pass: `"///"` becomes `"//"`, not `"/"` |
| TextOps.CollapseClearsDoubles | src/pytest_api_cov/frameworks.py:115 | a path with no run of three slashes has no `//` left after the replacement, so a `//` survives only where `///` was |
| Models.KeySplits | tests/unit/test_models.py:17-45 | the key `"METHOD path"` splits back, at its first space, into the upper-cased method and the path |
| Models.KeysDistinct | tests/unit/test_models.py:35-45 | different methods or different paths give different keys |
| Models.CallersOf | tests/unit/test_models.py:105-109 | `get_callers` of an absent key is the empty set |
| Models.RecordedCalls | tests/unit/test_models.py:17-45 | recording adds the caller under `"METHOD path"` and changes no other key |
| Models.RecordIdempotent | tests/unit/test_models.py:84-92 | recording the same call twice leaves the recorder as after one call |
| Models.RecordAllKeys | tests/unit/test_models.py:73-103 | after a sequence of calls, a key is present iff it was present before or some call targeted it |
| Models.RecordAllCallers | tests/unit/test_models.py:73-92 | after a sequence of calls, the callers of a key are the earlier ones plus every caller passed for that key |
| Models.MergedCalls | tests/unit/test_models.py:111-141 | a merge's keys are the union of both key sets, and each caller set is the union of both |
| Models.MergeEmpty | tests/unit/test_models.py:111-120 | merging an empty recorder changes nothing |
| Models.MergeCommutative | tests/unit/test_models.py:122-141 | the merge result does not depend on which recorder is merged into which |
| Models.MergeAssociative | tests/unit/test_models.py:122-141 | merging several recorders does not depend on grouping |
| Models.ToSerializable | tests/unit/test_models.py:143-157 | each key maps to a duplicate-free list with exactly the members of its caller set |
| Models.FromSerializable | tests/unit/test_models.py:159-169 | the keys are kept, and each caller set has exactly the members of its list |
| Models.SerializableRoundTrip | tests/unit/test_models.py:143-169 | deserialising a serialised recorder gives back the same recorder |
| Models.SerializableRoundTripLists | tests/unit/test_models.py:159-169 | serialising a deserialised map keeps its keys and the membership of each list |
| Models.CalledMethodsForEndpoint | tests/unit/test_models.py:47-58 | exactly the methods of the keys whose path part is the given path, sorted and without duplicates |
| Models.CalledEndpointsForMethod | tests/unit/test_models.py:60-71 | exactly the paths of the keys whose method part is the given method, sorted and without duplicates |
| Models.ProjectionsSeeRecordedCall | tests/unit/test_models.py:47-71 | after recording a call, both projections list its method and its path |
| Models.RecordKeepsCallersNonEmpty | tests/unit/test_models.py:73-92 | recording never leaves a key with an empty caller set |
| Models.ApiCallRecorder.constructor | tests/unit/test_models.py:11-15 | a new recorder is empty |
| Models.ApiCallRecorder.FromData | tests/unit/test_models.py:159-169 | `from_serializable` holds the deserialised caller sets |
| Models.ApiCallRecorder.RecordCall | tests/unit/test_models.py:17-45 | the recorder's map becomes the recorded map |
| Models.ApiCallRecorder.Merge | tests/unit/test_models.py:111-141 | the key-by-key update loop leaves the union of both recorders |
| Models.AddedOnce | tests/unit/test_models.py:236-259 | adding keeps the old list as a prefix, adds the key at most once and keeps the list duplicate-free |
| Models.AppendMissingSpec | tests/unit/test_models.py:261-287 | merging appends only the absent keys: the members are the union, and there are no duplicates |
| Models.AdoptedSource | tests/unit/test_models.py:421-437 | the discovery source is taken only while it is still `"unknown"` |
| Models.EndpointDiscovery.constructor | tests/unit/test_models.py:220-225 | a new discovery is empty, with source `"unknown"` |
| Models.EndpointDiscovery.WithData | tests/unit/test_models.py:227-234 | construction with data keeps the list and the source as given |
| Models.EndpointDiscovery.AddEndpoint | tests/unit/test_models.py:236-259 | the list becomes `AddedOnce` of the key, and the source is unchanged |
| Models.EndpointDiscovery.Merge | tests/unit/test_models.py:261-287 | the list becomes `AppendMissing` of the other list, and the source is adopted only while unknown |
| Models.AsCallerSet | tests/unit/test_models.py:378-394 | a list, a set or a single string of callers becomes the set of those callers |
| Models.WorkerCalls | tests/unit/test_models.py:365-419 | a worker mapping keeps its keys verbatim and coerces each value; `None` or a non-mapping gives nothing |
| Models.SessionData.constructor | tests/unit/test_models.py:304-311 | a new session holds an empty recorder and an empty discovery |
| Models.SessionData.RecordCall | tests/unit/test_models.py:313-327 | the session's recorder records the call |
| Models.SessionData.AddDiscoveredEndpoint | tests/unit/test_models.py:329-346 | the key is added once, and the source is adopted only while unknown |
| Models.SessionData.MergeWorkerData | tests/unit/test_models.py:348-419 | the recorder becomes the union with the coerced worker map; the worker's endpoints are appended when absent, even when the worker map is unusable |
| Report.StaticPieces | tests/unit/test_report.py:26 | a template without `<` or `{` is all literal characters |
| Report.StaticTemplateExact | tests/unit/test_report.py:26 | a static template matches exactly itself |
| Report.RegexSourceStatic | tests/unit/test_report.py:26 | a plain static path becomes `^path$` |
| Report.RegexSourcePlaceholder | tests/unit/test_report.py:22-25 | a `<name>` or `{name}` placeholder between plain text becomes `(.+)`, anchored with `^…$` |
| Report.HoleNeedsACharacter | tests/unit/test_report.py:22-25 | a placeholder matches only a non-empty value |
| Report.PlaceholderMatchesValue | tests/unit/test_report.py:28-38 | a template with one placeholder matches every call that puts a non-empty, newline-free value in its place |
| Report.PiecesMatchConcat | tests/unit/test_report.py:28-38 | matching composes: compiled pieces that match two texts, joined, match the joined texts |
| Report.PlaceholderSegmentMatches | tests/unit/test_report.py:28-38 | literal text, a placeholder and any further template match the same text, any value in the placeholder's place, and any key the further template matches |
| Report.TwoPlaceholdersMatch | tests/unit/test_report.py:28-38 | a template with two placeholders matches every call that keeps its literal text and puts a value in each place |
| Report.LitPiecesMatch | tests/unit/test_report.py:26 | literal pieces match exactly the text they spell |
| Report.GlobLiteral | tests/unit/test_report.py:71-80 | a pattern without `*` matches only itself, so `.` is literal |
| Report.GlobStarTakesAll | tests/unit/test_report.py:28-38 | a leading `*` absorbs any prefix, including one with `/` |
| Report.GlobStarSpans | tests/unit/test_report.py:60-69 | `a*b` matches `a`, then any text (with `/`), then `b` |
| Report.ExclusionIgnoresOrder | tests/unit/test_report.py:82-135 | whether an endpoint is excluded does not depend on the order of the patterns |
| Report.NegationOnlyRescues | tests/unit/test_report.py:126-135 | adding a negation never excludes anything, and one that hits nothing changes nothing |
| Report.NegationRescuesOnePath | tests/unit/test_report.py:82-91 | with `[base*, !base+y]`, `base+y` stays in while every other `base+x` is excluded |
| Report.BarePathExcludesEveryMethod | tests/unit/test_report.py:115-124 | a bare-path glob excludes the `"METHOD /path"` endpoint of every method |
| Report.CategorisePartition | tests/unit/test_report.py:28-38 | the three lists together are a permutation of the discovered list |
| Report.CategoriseMembership | tests/unit/test_report.py:28-69 | excluded iff matched by the patterns; covered iff not excluded and called; uncovered iff neither |
| Report.CategoriseDisjoint | tests/unit/test_report.py:49-58 | no endpoint is in two of the three lists, so an excluded endpoint is never covered |
| Report.NoPatternsNoExclusions | tests/unit/test_report.py:40-47 | with no patterns nothing is excluded |
| Report.RoundHalfEven | tests/unit/test_report.py:166-172 | the result is the nearest integer to `n/d`, and a tie goes to the even one |
| Report.CoverageTenths | tests/unit/test_report.py:166-172 | coverage in tenths of a percent is the rounded `1000*covered/total`, between 0 and 1000; it is 0 with no endpoints or nothing covered, and 1000 when nothing is uncovered |
| Report.CoverageTable | tests/unit/test_report.py:166-172 | (10,0) gives 100.0, (0,10) gives 0.0, (5,5) gives 50.0, (3,1) gives 75.0, and (0,0) gives 0.0 |
| Report.PrepareEndpointDetail | tests/unit/test_report.py:174-188 | one entry per endpoint, in order; its callers are exactly the union over every called key matching the template, sorted |
| Report.GenerateReport | tests/unit/test_report.py:190-242 | the status is 0 or 1; with nothing discovered it is 0 and no file is written; a file is written iff endpoints were discovered and a report path is set; the file's details are for exactly the discovered endpoints, each as often as it was discovered |
| Report.ReportDetailSpec | tests/unit/test_report.py:174-188 | the file's details list the covered, then the uncovered, then the excluded endpoints; each entry's callers are sorted, without duplicates, and are exactly the callers of the called keys its template matches |
| Report.StatusSpec | tests/unit/test_report.py:190-229 | the status is 1 iff endpoints were discovered, `fail_under` is set and the coverage is below it; the file carries the computed coverage |
| Frameworks.GetFrameworkAdapter | src/pytest_api_cov/frameworks.py:152-173 | Flask iff `(flask, Flask)` or `(flask_openapi3, OpenAPI)`; FastAPI iff `(fastapi, FastAPI)`; Django iff the top module contains `django`; otherwise the `TypeError` with its message |
| Frameworks.NoDjangoInFlaskNames | src/pytest_api_cov/frameworks.py:157-164 | the Flask and FastAPI module names never contain `django`, so the outcomes are exclusive |
| Frameworks.WsgiHandlerTestUnreachable | src/pytest_api_cov/frameworks.py:167-169 | the top module segment is never `django.core.handlers.wsgi`, so the `WSGIHandler` test never fires |
| Frameworks.DjangoModulesSelectDjango | src/pytest_api_cov/frameworks.py:164-165 | every `django` or `django.*` module selects the Django adapter |
| Frameworks.RouteEndpoints | src/pytest_api_cov/frameworks.py:35-36 | one `"M path"` per method other than `HEAD` and `OPTIONS` |
| Frameworks.FlaskEndpointList | src/pytest_api_cov/frameworks.py:31-37 | `"M rule"` for each rule other than the static one and each reported method |
| Frameworks.FlaskEndpoints | src/pytest_api_cov/frameworks.py:28-39 | the list is sorted, a permutation of the comprehension, and has the same members |
| Frameworks.FastAPIEndpointList | src/pytest_api_cov/frameworks.py:72-78 | `"M path"` for each `APIRoute` and each reported method; other routes give nothing |
| Frameworks.FastAPIEndpoints | src/pytest_api_cov/frameworks.py:68-80 | the list is sorted, a permutation of the comprehension, and has the same members |
| Frameworks.DjangoMethods | src/pytest_api_cov/frameworks.py:118-121 | the seven default methods, or the upper-cased `http_method_names` |
| Frameworks.DefaultMethodsReported | src/pytest_api_cov/frameworks.py:118-123 | the defaults minus `HEAD` and `OPTIONS` are GET, POST, PUT, PATCH and DELETE |
| Frameworks.MethodSetEndpoints | src/pytest_api_cov/frameworks.py:123 | a method set gives one endpoint per reported member |
| Frameworks.FunctionViewEndpoints | src/pytest_api_cov/frameworks.py:114-123 | a pattern without a view class gives exactly the five default endpoints of its path |
| Frameworks.DjangoPathVerbatim | src/pytest_api_cov/frameworks.py:114-115 | a route without `^`/`$` at its ends, joined without `//`, gives `"/" + prefix + route` |
| Frameworks.ResolverExtendsPrefix | src/pytest_api_cov/frameworks.py:125-127 | a resolver contributes its children under the prefix extended by its own stripped route |
| Frameworks.EndpointCollector.ExtractPatterns | src/pytest_api_cov/frameworks.py:111-127 | the recursive walk appends exactly the depth-first endpoints of the patterns |
| Frameworks.DjangoGetEndpoints | src/pytest_api_cov/frameworks.py:104-130 | the result is sorted and a permutation of everything the walk collects |
| Frameworks.TrackingClient.constructor | src/pytest_api_cov/frameworks.py:41-62 | the client keeps the recorder (one with `record_call`, or none) and the test name, and has done nothing yet |
| Frameworks.TrackingClient.OnPlainMapping | src/pytest_api_cov/frameworks.py:41-62 | the client keeps a recorder object that has no `record_call`, and the test name |
| Frameworks.TrackingClient.FlaskOpen | src/pytest_api_cov/frameworks.py:49-60 | the rule template is recorded only with a recorder that has `record_call`, a non-empty path and a matching rule; a failed match or a missing `record_call` is swallowed; the request is forwarded exactly once, after any recording |
| Frameworks.TrackingClient.FastAPISend | src/pytest_api_cov/frameworks.py:90-96 | with a recorder, the path is recorded under the upper-cased method before the request is forwarded once; a recorder without `record_call` raises `AttributeError` before anything is forwarded |
| Frameworks.TrackingClient.DjangoRequest | src/pytest_api_cov/frameworks.py:140-147 | as for FastAPI, with method `GET` and path `/` as defaults, including the `AttributeError` of a recorder without `record_call` |
| OpenApi.ItemEndpoints | src/pytest_api_cov/openapi.py:31 | `"UPPER(key) path"` exactly for the keys whose upper-case form is an HTTP method; never more entries than keys |
| OpenApi.ItemEndpointsCount | src/pytest_api_cov/openapi.py:31 | there is exactly one entry per key iff every key is an HTTP method name |
| OpenApi.PathsEndpointsMembership | src/pytest_api_cov/openapi.py:29-31 | an endpoint is listed iff the Path Item of some path gives it |
| OpenApi.PathsEndpointsSpec | src/pytest_api_cov/openapi.py:29-31 | an endpoint is listed iff some path has a method key that spells it |
| OpenApi.ItemEndpointsConcat | src/pytest_api_cov/openapi.py:31 | keys contribute independently, in order |
| OpenApi.OtherKeysIgnored | src/pytest_api_cov/openapi.py:31 | a key such as `parameters` or `summary` contributes nothing, wherever it sits |
| OpenApi.HeadOptionsTraceKept | src/pytest_api_cov/openapi.py:12 | `head`, `options` and `trace` keys are kept, upper-cased |
| OpenApi.ParseOpenApiSpec | src/pytest_api_cov/openapi.py:15-33 | a missing file, a decode error or a missing `paths` give `[]`; a non-mapping document or a `paths` value that is not a mapping raises `AttributeError`; otherwise the result is a sorted permutation of the path loop's endpoints |
| OpenApi.FormatExamples | src/pytest_api_cov/openapi.py:24 | `.yaml` and `.YML` are read as YAML; `.json` and `.txt` as JSON |
| Plugin.IsSupportedFramework | src/pytest_api_cov/plugin.py:20-28 | `None` is unsupported, and a supported app always gets the Flask or FastAPI adapter |
| Plugin.SupportedIsNarrowerThanSelection | src/pytest_api_cov/plugin.py:181-187 | supported iff the adapter is FastAPI, or Flask from a module other than `flask_openapi3`; Django apps are skipped, so the `TypeError` skip is unreachable |
| Plugin.LevelForBands | src/pytest_api_cov/plugin.py:119-125 | DEBUG iff verbosity is at least 2, WARNING iff it is at most 0, and more verbosity never raises the level |
| Plugin.PluginLogger.constructor | src/pytest_api_cov/plugin.py:17 | the module logger starts with no level set and no handler |
| Plugin.PluginLogger.Configure | src/pytest_api_cov/plugin.py:116-136 | with the flag, the level is set and a handler is added only when there is none, so there is never more than one |
| Plugin.StoredListStays | src/pytest_api_cov/plugin.py:192 | once a list is stored, or without a recorder, later fixture runs never change it |
| Plugin.DiscoveryAtMostOnce | src/pytest_api_cov/plugin.py:189-199 | over any sequence of fixture runs, the stored list is the first run's result, or `[]` when it raised |
| Plugin.UpdateFromSets | src/pytest_api_cov/plugin.py:229-230 | the `update` loop leaves the pointwise union of the two maps |
| Plugin.MergeCalledData | src/pytest_api_cov/plugin.py:227-234 | the merged keys are the union of both key sets, and each caller set is the union of the worker set and the master list |
| Plugin.MergedFromBoth | src/pytest_api_cov/plugin.py:227-234 | the two successive updates of an empty map give the union of both maps |
| Plugin.XdistState.constructor | src/pytest_api_cov/plugin.py:268 | before any worker finishes, neither the accumulated map nor a discovered list is stored |
| Plugin.XdistState.TestNodeDown | src/pytest_api_cov/plugin.py:257-281 | a non-empty worker map is unioned in, an empty or missing one changes nothing; a worker's list is stored only when it is non-empty and none is stored |
| Plugin.NodesUnionCalls | src/pytest_api_cov/plugin.py:265-276 | after any sequence of workers, the keys are the union of all keys and each key's callers are the union of all listed callers |
| Plugin.NonEmptyListStays | src/pytest_api_cov/plugin.py:278-281 | a stored non-empty list is never replaced |
| Plugin.FirstNonEmptyWins | src/pytest_api_cov/plugin.py:278-281 | the stored list is the first non-empty list any worker sent |
| Plugin.PropagatedStatus | src/pytest_api_cov/plugin.py:250-251 | a zero exit status is replaced by the report's status, a non-zero one is never replaced, and the result is 0 iff both are 0 |
| Plugin.Session.constructor | src/pytest_api_cov/plugin.py:145-149 | with the flag, an empty recorder and nothing discovered; without it, no recorder |
| Plugin.Session.Client | src/pytest_api_cov/plugin.py:152-202 | skips with the source's messages; otherwise discovers once and returns a fresh tracking client bound to the session recorder and the test name |
| Plugin.Session.SessionFinish | src/pytest_api_cov/plugin.py:205-251 | a worker sends its calls as lists and its discovered list, and the status is unchanged; the master reports on the merged map and the chosen list, and propagates the status |
| Plugin.MasterDataRoundTrip | src/pytest_api_cov/plugin.py:222 | serialising the master's recorder to lists loses nothing in the merge |
| Plugin.PlainMappingRecordsNothing | src/pytest_api_cov/plugin.py:147-148 | through the tracking clients over the session's plain mapping, a Flask request is forwarded with nothing recorded, a FastAPI send raises before forwarding, and the mapping stays empty |
| Plugin.RecorderObjectRecordsCalls | src/pytest_api_cov/plugin.py:147-148 | the same requests over an `ApiCallRecorder` are forwarded and store the test's name under the request's key, and under the matched rule's key for Flask |

## Left out

- Process and I/O work is not modelled:
  - logging output and all `logger` calls;
  - console rendering and report-file writing, including the Unicode and ASCII symbols;
  - `print_endpoints`, `write_report_file` and config loading.

  The report file is modelled as the value that would be written.
- `auto_discover_app`, fixture lookup and the setup-guidance text are not modelled. They probe the file system and import modules dynamically. The app the fixture finds is a parameter of `Plugin.Session.Client`.
- Adapter objects are represented by their names only. Flask, Starlette and Django client subclassing, `url_map.bind().match()` and `isinstance` checks on framework objects are not modelled. Routes, rules and requests are plain records. The Flask rule match is a parameter, and `hasattr(url_map, "bind")` is taken as true.
- Flask `rule.methods` are taken as already upper case, as Werkzeug stores them.
- pytest-xdist transport and concurrency are not modelled. `Plugin.XdistState` folds worker outputs that have already been received, one at a time.
- Reading and decoding the OpenAPI file is not modelled. A present file carries what decoding it as YAML or JSON would give.
- Plugin.Session: the session holds the intended `ApiCallRecorder` from the Findings row, not the plain `defaultdict(set)` that `plugin.py:148` stores. So the clients that `Plugin.Session.Client` hands out record calls, where the code as written records none. The as-written behaviour is `Plugin.PlainMappingRecordsNothing`.
- OpenAPI Path Items are taken to be mappings. The source iterates a Path Item that is not a mapping as whatever it is: a list gives its elements, and `null` raises `TypeError`. That branch is not modelled.
- OpenApi.ParseOpenApiSpec: Path Item keys are taken to be strings. A non-string YAML key (`200:`, `true:`, `null:`) makes `method.upper()` raise `AttributeError` at `openapi.py:31`, outside the `try`, and that case is not modelled.
- The `else: merged = worker_data` branch of `pytest_sessionfinish` (`plugin.py:231-232`) is not modelled. The hook only ever stores a mapping, so that branch is never taken.
- The discovered list the master passes to the report can be `None`, when no test used the fixture. The model treats it as `[]`, because `report.py` is not part of this model.
- Report.CoverageTenths: it does not model floating point. Coverage is an integer number of tenths of a percent, rounded half to even on the exact ratio. It equals every value the report tests pin.
- Report.GlobMatch: only `*` is special. `?` and `[...]` classes of `fnmatch` are not modelled; the report tests use neither.
- Report.PiecesMatch: the `$` anchor is taken as the end of the text. Python's `$` also matches before a trailing newline, and that case is not modelled.
- TextOps.Upper: it is ASCII only. Unicode case mapping is not modelled. The same holds for TextOps.Lower.
- TextOps.SortedElements: Python walks a set in hash order, and the model walks it in ascending order. The final `sorted` hides the difference in every adapter.
- Models.ToSerializable: it lists each caller set in ascending order. Python's `list(set)` order is unspecified, and every consumer only tests membership.
- Models.AdoptedSource: the other discovery's source is adopted only while the own source is still `"unknown"`. The tests pin only that the first endpoint sets the source and later ones keep it (`tests/unit/test_models.py:421-437`). Adopting it only while the list is empty would also pass them, and the model does not take that reading.
- Report.Hits: an exclusion glob is tried against the whole key and against the path after the first space. The tests pin bare paths and `"METHOD /path"` keys only (`tests/unit/test_report.py:115-124`); another rule that agrees on those is not modelled.
- Models.CalledMethodsForEndpoint: it returns a sorted list without duplicates. The tests sort the result before comparing it, or check a one-element list (`tests/unit/test_models.py:47-71`). The same holds for Models.CalledEndpointsForMethod.
- Report.PrepareEndpointDetail: each callers list is sorted and duplicate-free. The tests sort it before comparing, or check a one-element list (`tests/unit/test_report.py:187-188`).
- Report.GenerateReport: the detail lists the covered endpoints, then the uncovered, then the excluded. The tests check only the number of entries (`tests/unit/test_report.py:228`) and look entries up by endpoint.
- The report config's display options (`show_*`, `force_sugar`) are left out. Only `fail_under`, the exclusion patterns and the report path affect the status and the file.

## Findings

| source | as written | input that shows it | evidently intended | confidence | as-written member | corrected member |
|---|---|---|---|---|---|---|
| src/pytest_api_cov/plugin.py:147-148 | The session recorder is a plain `defaultdict(set)`. It is handed to `get_tracked_client` at line 201. The tracking clients call `recorder.record_call` on it (frameworks.py:57, 95), and a `defaultdict` has no such method. The Flask client swallows the `AttributeError` and records nothing. The FastAPI client raises before forwarding. | `pytest --api-cov-report` with a Flask app whose only route is `/`, and a test that calls `client.get("/")` | the session recorder is an `ApiCallRecorder`, so the request stores the test's name under `"GET /"` and the route counts as covered | not executed; high (the attribute lookup fails on every request) | Plugin.PlainMappingRecordsNothing | Plugin.RecorderObjectRecordsCalls, Plugin.Session.Client |
