/**
 * The pytest plugin's decisions: which apps the `client` fixture accepts,
 * the log level chosen from pytest's verbosity, discovering endpoints at
 * most once per session, what a worker sends to the master, how the master
 * and the xdist hook merge per-worker call maps, which discovered list is
 * used, and how the report's status reaches the session's exit status.
 * pytest, xdist and logging are not modelled; their state appears as the
 * fields of `Session` and `XdistState`.
 */
module Plugin {
  import opened TextOps
  import opened Models
  import opened Wrappers
  import opened Frameworks
  import opened Report

  // ---------------------------------------------------------------------
  // `is_supported_framework`.
  // ---------------------------------------------------------------------

  /** `is_supported_framework(app)`: a Flask app (`flask.Flask`) or a FastAPI app (`fastapi.FastAPI`). */
  function IsSupportedFramework(app: Option<AppType>): (r: bool)
    ensures app.None? ==> !r
    ensures r ==> GetFrameworkAdapter(app.value) == Selected(FlaskAdapter) || GetFrameworkAdapter(app.value) == Selected(FastAPIAdapter)
  {
    match app
    case None => false
    case Some(t) => (TopModule(t) == "flask" && t.className == "Flask") || (TopModule(t) == "fastapi" && t.className == "FastAPI")
  }

  /**
   * The fixture's check is narrower than adapter selection: a supported app
   * is exactly a Flask or FastAPI selection other than flask-openapi3's
   * `OpenAPI`, so Django apps and `OpenAPI` apps are skipped although an
   * adapter exists for them, and the fixture's `TypeError` path is never taken.
   */
  lemma SupportedIsNarrowerThanSelection(t: AppType)
    ensures IsSupportedFramework(Some(t)) <==>
      (GetFrameworkAdapter(t) == Selected(FlaskAdapter) && TopModule(t) != "flask_openapi3") || GetFrameworkAdapter(t) == Selected(FastAPIAdapter)
    ensures GetFrameworkAdapter(t) == Selected(DjangoAdapter) ==> !IsSupportedFramework(Some(t))
  {
  }

  // ---------------------------------------------------------------------
  // Logging level (`pytest_configure`).
  // ---------------------------------------------------------------------

  datatype LogLevel = Debug | Info | Warning

  /** The numeric value the `logging` module gives each level. */
  function Severity(level: LogLevel): nat
  {
    match level
    case Debug => 10
    case Info => 20
    case Warning => 30
  }

  /** `-vv` or more gives DEBUG, `-v` gives INFO, anything lower WARNING. */
  function LevelFor(verbosity: int): LogLevel
  {
    if verbosity >= 2 then Debug else if verbosity >= 1 then Info else Warning
  }

  /** More verbosity never raises the threshold; the three bands are as documented. */
  lemma LevelForBands(v1: int, v2: int)
    requires v1 <= v2
    ensures Severity(LevelFor(v2)) <= Severity(LevelFor(v1))
    ensures LevelFor(v1) == Debug <==> v1 >= 2
    ensures LevelFor(v1) == Warning <==> v1 <= 0
  {
  }

  /** The plugin's logger: its level and the levels of its handlers. */
  class PluginLogger {
    var level: nat
    var handlers: seq<nat>

    constructor ()
      ensures level == 0 && handlers == []
    {
      level := 0;
      handlers := [];
    }

    /** With `--api-cov-report`: set the level, and add a handler at that level only when there is none. */
    method Configure(reportEnabled: bool, verbosity: int)
      modifies this
      ensures reportEnabled ==> level == Severity(LevelFor(verbosity))
      ensures reportEnabled && old(handlers) == [] ==> handlers == [level]
      ensures !reportEnabled || old(handlers) != [] ==> handlers == old(handlers)
      ensures !reportEnabled ==> level == old(level)
      ensures |old(handlers)| <= 1 ==> |handlers| <= 1
    {
      if reportEnabled {
        var l := Severity(LevelFor(verbosity));
        level := l;
        if handlers == [] {
          handlers := [l];
        }
      }
    }
  }

  // ---------------------------------------------------------------------
  // Discovering endpoints at most once (`client`).
  // ---------------------------------------------------------------------

  /** What `adapter.get_endpoints()` did: returned a list, or raised. */
  datatype Discovery = Listed(endpoints: seq<string>) | Raised

  /** One run of the fixture: with a recorder and nothing stored, store the list (`[]` when discovery raised). */
  function DiscoveryStep(stored: Option<seq<string>>, hasRecorder: bool, outcome: Discovery): Option<seq<string>>
  {
    if hasRecorder && stored.None? then Some(if outcome.Listed? then outcome.endpoints else []) else stored
  }

  /** The stored list after the fixture has run once per outcome, in order. */
  function DiscoveredAfter(stored: Option<seq<string>>, hasRecorder: bool, outcomes: seq<Discovery>): Option<seq<string>>
    decreases |outcomes|
  {
    if outcomes == [] then stored
    else DiscoveredAfter(DiscoveryStep(stored, hasRecorder, outcomes[0]), hasRecorder, outcomes[1..])
  }

  lemma {:induction false} StoredListStays(stored: Option<seq<string>>, hasRecorder: bool, outcomes: seq<Discovery>)
    requires stored.Some? || !hasRecorder
    ensures DiscoveredAfter(stored, hasRecorder, outcomes) == stored
  {
    if outcomes != [] {
      StoredListStays(DiscoveryStep(stored, hasRecorder, outcomes[0]), hasRecorder, outcomes[1..]);
    }
  }

  /** Discovery happens at most once: the first run decides, and an exception stores `[]`. */
  lemma DiscoveryAtMostOnce(hasRecorder: bool, outcomes: seq<Discovery>)
    requires hasRecorder && outcomes != []
    ensures DiscoveredAfter(None, hasRecorder, outcomes) ==
      Some(if outcomes[0].Listed? then outcomes[0].endpoints else [])
  {
    StoredListStays(DiscoveryStep(None, hasRecorder, outcomes[0]), hasRecorder, outcomes[1..]);
  }

  // ---------------------------------------------------------------------
  // Merging call maps.
  // ---------------------------------------------------------------------

  /** `for endpoint, calls in source.items(): target[endpoint].update(calls)` with set values. */
  method UpdateFromSets(target: Calls, source: Calls) returns (r: Calls)
    ensures r == MergedCalls(target, source)
  {
    r := target;
    var todo := source.Keys;
    ghost var done: set<string> := {};
    RestrictNone(source);
    MergeEmpty(target);
    while todo != {}
      invariant todo <= source.Keys && done == source.Keys - todo
      invariant r == MergedCalls(target, Restrict(source, done))
      decreases todo
    {
      var k :| k in todo;
      MergeStep(target, source, done, k);
      r := r[k := CallersOf(r, k) + source[k]];
      assert r == MergedCalls(target, Restrict(source, done + {k}));
      todo := todo - {k};
      done := done + {k};
    }
    RestrictAll(source);
    assert done == source.Keys;
  }

  /**
   * The master's merge in `pytest_sessionfinish`: a fresh map updated with
   * the accumulated worker data, then with the master's own serialised
   * data. No key from either side is dropped and every caller set is the
   * union of the two.
   */
  method MergeCalledData(workerData: Calls, masterData: map<string, seq<string>>) returns (merged: Calls)
    ensures merged.Keys == workerData.Keys + masterData.Keys
    ensures forall k, x :: x in CallersOf(merged, k) <==>
      x in CallersOf(workerData, k) || (k in masterData && x in masterData[k])
  {
    merged := map[];
    merged := UpdateFromSets(merged, workerData);
    var masterSets := FromSerializable(masterData);
    merged := UpdateFromSets(merged, masterSets);
    MergedFromBoth(workerData, masterData);
  }

  lemma MergedFromBoth(workerData: Calls, masterData: map<string, seq<string>>)
    ensures var merged := MergedCalls(MergedCalls(map[], workerData), FromSerializable(masterData));
      && merged.Keys == workerData.Keys + masterData.Keys
      && forall k, x :: x in CallersOf(merged, k) <==> x in CallersOf(workerData, k) || (k in masterData && x in masterData[k])
  {
    MergeCommutative(map[], workerData);
    MergeEmpty(workerData);
    var masterSets := FromSerializable(masterData);
    var merged := MergedCalls(workerData, masterSets);
    forall k, x ensures x in CallersOf(merged, k) <==> x in CallersOf(workerData, k) || (k in masterData && x in masterData[k]) {
      assert x in CallersOf(masterSets, k) <==> k in masterData && x in masterData[k];
    }
  }

  // ---------------------------------------------------------------------
  // `DeferXdistPlugin.pytest_testnodedown`.
  // ---------------------------------------------------------------------

  /** What a finished worker left in `workeroutput`; absent keys (or `None`) are `None`. */
  datatype NodeOutput = NodeOutput(apiCallRecorder: Option<map<string, seq<string>>>, discoveredEndpoints: Option<seq<string>>)

  /** The accumulated map after one worker: a non-empty worker map is unioned in; otherwise nothing changes. */
  function NodeCallsStep(acc: Option<Calls>, data: Option<map<string, seq<string>>>): Option<Calls>
  {
    if data.Some? && data.value != map[] then Some(MergedCalls(acc.GetOr(map[]), FromSerializable(data.value))) else acc
  }

  /** The stored list after one worker: its list is taken only when non-empty and nothing non-empty is stored. */
  function FirstNonEmptyStep(stored: Option<seq<string>>, offered: Option<seq<string>>): Option<seq<string>>
  {
    if offered.Some? && offered.value != [] && (stored.None? || stored.value == []) then offered else stored
  }

  /** The state `pytest_testnodedown` keeps on the master's config. */
  class XdistState {
    var workerCalls: Option<Calls>
    var workerDiscovered: Option<seq<string>>

    constructor ()
      ensures workerCalls == None && workerDiscovered == None
    {
      workerCalls := None;
      workerDiscovered := None;
    }

    method TestNodeDown(out: NodeOutput)
      modifies this
      ensures workerCalls == NodeCallsStep(old(workerCalls), out.apiCallRecorder)
      ensures workerDiscovered == FirstNonEmptyStep(old(workerDiscovered), out.discoveredEndpoints)
    {
      if out.apiCallRecorder.Some? && out.apiCallRecorder.value != map[] {
        var current := workerCalls.GetOr(map[]);
        current := UpdateFromSets(current, FromSerializable(out.apiCallRecorder.value));
        workerCalls := Some(current);
      }
      var offered := out.discoveredEndpoints;
      if offered.Some? && offered.value != [] && (workerDiscovered.None? || workerDiscovered.value == []) {
        workerDiscovered := offered;
      }
    }
  }

  /** The accumulated map after each worker in turn. */
  function CallsAfterNodes(acc: Option<Calls>, outs: seq<NodeOutput>): Option<Calls>
    decreases |outs|
  {
    if outs == [] then acc else CallsAfterNodes(NodeCallsStep(acc, outs[0].apiCallRecorder), outs[1..])
  }

  /** The callers every worker listed under `key`. */
  function ListedCallers(outs: seq<NodeOutput>, key: string): set<string>
  {
    if outs == [] then {}
    else
      var d := outs[0].apiCallRecorder;
      (if d.Some? && key in d.value then set x | x in d.value[key] else {}) + ListedCallers(outs[1..], key)
  }

  /** The keys every worker listed. */
  function ListedKeys(outs: seq<NodeOutput>): set<string>
  {
    if outs == [] then {}
    else (if outs[0].apiCallRecorder.Some? then outs[0].apiCallRecorder.value.Keys else {}) + ListedKeys(outs[1..])
  }

  /** After all workers, every key any worker listed is present and its callers are the union of all of theirs. */
  lemma {:induction false} NodesUnionCalls(acc: Option<Calls>, outs: seq<NodeOutput>, key: string)
    ensures CallersOf(CallsAfterNodes(acc, outs).GetOr(map[]), key) == CallersOf(acc.GetOr(map[]), key) + ListedCallers(outs, key)
    ensures CallsAfterNodes(acc, outs).GetOr(map[]).Keys == acc.GetOr(map[]).Keys + ListedKeys(outs)
    decreases |outs|
  {
    if outs != [] {
      var next := NodeCallsStep(acc, outs[0].apiCallRecorder);
      NodesUnionCalls(next, outs[1..], key);
      var d := outs[0].apiCallRecorder;
      if d.Some? && d.value != map[] {
        assert CallersOf(FromSerializable(d.value), key) == (if key in d.value then set x | x in d.value[key] else {});
      } else if d.Some? {
        assert d.value.Keys == {};
      }
    }
  }

  /** The discovered list after each worker in turn. */
  function DiscoveredAfterNodes(stored: Option<seq<string>>, outs: seq<NodeOutput>): Option<seq<string>>
    decreases |outs|
  {
    if outs == [] then stored else DiscoveredAfterNodes(FirstNonEmptyStep(stored, outs[0].discoveredEndpoints), outs[1..])
  }

  /** The first non-empty list among the workers' outputs. */
  function FirstListed(outs: seq<NodeOutput>): Option<seq<string>>
  {
    if outs == [] then None
    else if outs[0].discoveredEndpoints.Some? && outs[0].discoveredEndpoints.value != [] then outs[0].discoveredEndpoints
    else FirstListed(outs[1..])
  }

  lemma {:induction false} NonEmptyListStays(stored: Option<seq<string>>, outs: seq<NodeOutput>)
    requires stored.Some? && stored.value != []
    ensures DiscoveredAfterNodes(stored, outs) == stored
  {
    if outs != [] { NonEmptyListStays(stored, outs[1..]); }
  }

  /** "First non-empty list wins": starting from nothing, the stored list is the first non-empty one any worker sent. */
  lemma {:induction false} FirstNonEmptyWins(outs: seq<NodeOutput>)
    ensures DiscoveredAfterNodes(None, outs) == FirstListed(outs)
  {
    if outs != [] {
      var o := outs[0].discoveredEndpoints;
      if o.Some? && o.value != [] {
        NonEmptyListStays(o, outs[1..]);
      } else {
        FirstNonEmptyWins(outs[1..]);
      }
    }
  }

  // ---------------------------------------------------------------------
  // The session.
  // ---------------------------------------------------------------------

  /** Exit-status propagation: the report's status replaces the session's only when that is 0. */
  function PropagatedStatus(current: int, status: int): (r: int)
    ensures current != 0 ==> r == current
    ensures current == 0 ==> r == status
    ensures r == 0 <==> current == 0 && status == 0
  {
    if current == 0 then status else current
  }

  /** What `client` yields: a skip, or a tracking client built by the selected adapter. */
  datatype FixtureResult = Skipped(reason: string) | Ready(adapter: Adapter, client: TrackingClient)

  /** What a worker puts in `workeroutput`. */
  datatype WorkerOutput = WorkerOutput(apiCallRecorder: map<string, seq<string>>, discoveredEndpoints: Option<seq<string>>)

  datatype FinishOutcome = NotEnabled | SentToMaster(output: WorkerOutput) | Reported(status: int)

  /** The discovered list the master reports on: the workers' list when one was stored, else the session's own. */
  function MasterDiscovered(workerDiscovered: Option<seq<string>>, discovered: Option<seq<string>>): seq<string>
  {
    if workerDiscovered.Some? then workerDiscovered.value else discovered.GetOr([])
  }

  class Session {
    const reportEnabled: bool
    var recorder: ApiCallRecorder?
    var discovered: Option<seq<string>>
    var exitStatus: int

    /**
     * `pytest_sessionstart`: with `--api-cov-report`, an empty recorder and
     * nothing discovered yet. The recorder is an `ApiCallRecorder`, the
     * corrected form of the plain mapping the code stores (see
     * `PlainMappingRecordsNothing`).
     */
    constructor (reportEnabled: bool)
      ensures this.reportEnabled == reportEnabled
      ensures reportEnabled ==> recorder != null && fresh(recorder) && recorder.calls == map[]
      ensures !reportEnabled ==> recorder == null
      ensures discovered == None && exitStatus == 0
    {
      this.reportEnabled := reportEnabled;
      if reportEnabled {
        recorder := new ApiCallRecorder();
      } else {
        recorder := null;
      }
      discovered := None;
      exitStatus := 0;
    }

    /**
     * The `client` fixture for one test, given the app it found (if any) and
     * what `get_endpoints` would do: skip unless coverage is on and the app is
     * supported; discover once; hand out a tracking client bound to the
     * session's recorder and the test's name. Since that recorder is an
     * `ApiCallRecorder`, the client can record.
     */
    method Client(app: Option<AppType>, outcome: Discovery, testName: string) returns (r: FixtureResult)
      modifies this
      ensures recorder == old(recorder) && exitStatus == old(exitStatus)
      ensures !reportEnabled ==> r == Skipped("API coverage not enabled. Use --api-cov-report flag.") && discovered == old(discovered)
      ensures reportEnabled && app.None? ==> r == Skipped("No API app found. See error message above for setup guidance.") && discovered == old(discovered)
      ensures reportEnabled && app.Some? && !IsSupportedFramework(app) ==>
        r == Skipped("Unsupported framework: " + app.value.className + ". pytest-api-coverage supports Flask and FastAPI.") && discovered == old(discovered)
      ensures reportEnabled && IsSupportedFramework(app) ==>
        && discovered == DiscoveryStep(old(discovered), recorder != null, outcome)
        && r.Ready? && r.adapter == GetFrameworkAdapter(app.value).adapter
        && fresh(r.client) && r.client.recorder == recorder && r.client.hasRecordCall && r.client.testName == testName && r.client.events == []
    {
      if !reportEnabled {
        return Skipped("API coverage not enabled. Use --api-cov-report flag.");
      }
      if app.None? {
        return Skipped("No API app found. See error message above for setup guidance.");
      }
      if !IsSupportedFramework(app) {
        return Skipped("Unsupported framework: " + app.value.className + ". pytest-api-coverage supports Flask and FastAPI.");
      }
      var selection := GetFrameworkAdapter(app.value);
      if recorder != null && discovered.None? {
        discovered := Some(if outcome.Listed? then outcome.endpoints else []);
      }
      var c := new TrackingClient(recorder, testName);
      r := Ready(selection.adapter, c);
    }

    /**
     * `pytest_sessionfinish`. A worker sends its calls (as lists) and its
     * discovered list, unchanged, and generates no report. The master merges
     * the workers' map with its own, picks the discovered list, generates the
     * report and lets its status through only when the session status is 0.
     */
    method SessionFinish(isWorker: bool, xdist: XdistState, config: ReportConfig) returns (r: FinishOutcome)
      requires reportEnabled ==> recorder != null
      modifies this
      ensures recorder == old(recorder) && discovered == old(discovered)
      ensures !reportEnabled ==> r == NotEnabled && exitStatus == old(exitStatus)
      ensures reportEnabled && isWorker ==>
        r == SentToMaster(WorkerOutput(ToSerializable(recorder.calls), discovered)) && exitStatus == old(exitStatus)
      ensures reportEnabled && !isWorker ==>
        var merged := MergedCalls(xdist.workerCalls.GetOr(map[]), FromSerializable(ToSerializable(recorder.calls)));
        var status := GenerateReport(config, merged, MasterDiscovered(xdist.workerDiscovered, discovered)).status;
        r == Reported(status) && exitStatus == PropagatedStatus(old(exitStatus), status)
    {
      if !reportEnabled {
        return NotEnabled;
      }
      if isWorker {
        r := SentToMaster(WorkerOutput(ToSerializable(recorder.calls), discovered));
        return;
      }
      var masterData := ToSerializable(recorder.calls);
      var workerData := xdist.workerCalls.GetOr(map[]);
      var merged := MergeCalledData(workerData, masterData);
      assert merged == MergedCalls(workerData, FromSerializable(masterData)) by {
        var target := MergedCalls(workerData, FromSerializable(masterData));
        forall k ensures CallersOf(merged, k) == CallersOf(target, k) { }
        CallsExtensional(merged, target);
      }
      var status := GenerateReport(config, merged, MasterDiscovered(xdist.workerDiscovered, discovered)).status;
      if exitStatus == 0 {
        exitStatus := status;
      }
      r := Reported(status);
    }
  }

  /** The master's own calls survive serialisation: merging them in is merging the recorder's caller sets. */
  lemma MasterDataRoundTrip(workerData: Calls, calls: Calls)
    ensures MergedCalls(workerData, FromSerializable(ToSerializable(calls))) == MergedCalls(workerData, calls)
  {
    SerializableRoundTrip(calls);
  }

  // ---------------------------------------------------------------------
  // The recorder the fixture hands out, as written.
  // ---------------------------------------------------------------------

  /**
   * As written, `client` passes `session.api_call_recorder`, a plain
   * `defaultdict(set)`, to `get_tracked_client`, whose clients call
   * `recorder.record_call(...)`, a method the mapping does not have. One
   * request through a Flask client and one through a FastAPI client over a
   * fresh session mapping: the Flask request is forwarded with nothing
   * recorded, the FastAPI send raises before forwarding, and the mapping
   * stays empty, so every discovered endpoint would be reported uncovered.
   */
  method PlainMappingRecordsNothing(testName: string, path: Option<string>, verb: Option<string>, matchedRule: Option<string>)
    returns (flaskEvents: seq<Event>, fastAPIEvents: seq<Event>, recorded: Calls)
    ensures flaskEvents == [Forwarded]
    ensures fastAPIEvents == [Escaped("AttributeError")]
    ensures recorded == map[]
  {
    var mapping := new ApiCallRecorder();
    var flask := new TrackingClient.OnPlainMapping(mapping, testName);
    flask.FlaskOpen(path, verb, matchedRule);
    var fastAPI := new TrackingClient.OnPlainMapping(mapping, testName);
    fastAPI.FastAPISend(verb.GetOr("GET"), path.GetOr("/"));
    flaskEvents := flask.events;
    fastAPIEvents := fastAPI.events;
    recorded := mapping.calls;
  }

  /**
   * The same two requests over an `ApiCallRecorder`, as the session is meant
   * to hold: both are forwarded, and a Flask request whose path matches a
   * rule stores the test's name under that rule's key.
   */
  method RecorderObjectRecordsCalls(testName: string, path: Option<string>, verb: Option<string>, matchedRule: Option<string>)
    returns (flaskEvents: seq<Event>, fastAPIEvents: seq<Event>, recorded: Calls)
    ensures Forwarded in flaskEvents && Forwarded in fastAPIEvents
    ensures testName in CallersOf(recorded, EndpointKey(verb.GetOr("GET"), path.GetOr("/")))
    ensures path.Some? && path.value != [] && matchedRule.Some? ==>
      testName in CallersOf(recorded, EndpointKey(verb.GetOr("GET"), matchedRule.value))
  {
    var recorder := new ApiCallRecorder();
    var flask := new TrackingClient(recorder, testName);
    flask.FlaskOpen(path, verb, matchedRule);
    var fastAPI := new TrackingClient(recorder, testName);
    fastAPI.FastAPISend(verb.GetOr("GET"), path.GetOr("/"));
    flaskEvents := flask.events;
    fastAPIEvents := fastAPI.events;
    recorded := recorder.calls;
  }
}
