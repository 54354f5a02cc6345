/**
 * The session data model: `ApiCallRecorder` (endpoint key -> set of test
 * names), `EndpointDiscovery` (ordered, duplicate-free endpoint keys with a
 * source label) and `SessionData` (one of each, plus the tolerant merge of a
 * worker process's snapshot).
 *
 * The recorder's and the discovery list's contents are also given as plain
 * values (`Calls`, `seq<string>`) with functions over them; the classes'
 * methods are proved against those functions, and the lemmas below state
 * what the functions promise.
 */
module Models {
  import opened TextOps

  /** A recorder's contents: endpoint key -> names of the tests that called it. */
  type Calls = map<string, set<string>>

  /** The key under which a call is recorded: `"METHOD path"` with the verb upper-cased. */
  function EndpointKey(verb: string, path: string): string
  {
    Upper(verb) + " " + path
  }

  /** The verb half of a key: the text before its first space. */
  function MethodOf(key: string): string
  {
    FirstSegment(key, ' ')
  }

  /** The path half of a key: the text after its first space (empty when there is none). */
  function PathOf(key: string): string
  {
    var i := IndexOf(key, ' ');
    if i < |key| then key[i + 1..] else ""
  }

  predicate HasSpace(key: string)
  {
    ' ' in key
  }

  /** Splitting a key at its first space gives back the verb and the path it was built from. */
  lemma {:induction false} KeySplits(verb: string, path: string)
    requires ' ' !in verb
    ensures HasSpace(EndpointKey(verb, path))
    ensures MethodOf(EndpointKey(verb, path)) == Upper(verb)
    ensures PathOf(EndpointKey(verb, path)) == path
  {
    var u := Upper(verb);
    var k := EndpointKey(verb, path);
    assert ' ' !in u by {
      forall i | 0 <= i < |u| ensures u[i] != ' ' {
        assert verb[i] != ' ';
      }
    }
    assert k[|u|] == ' ';
    assert forall i :: 0 <= i < |u| ==> k[i] == u[i];
    var j := IndexOf(k, ' ');
    assert j == |u|;
    assert k[..j] == u;
    assert k[j + 1..] == path;
  }

  /** Different methods (after upper-casing) or different paths give different keys. */
  lemma KeysDistinct(m1: string, p1: string, m2: string, p2: string)
    requires ' ' !in m1 && ' ' !in m2
    requires Upper(m1) != Upper(m2) || p1 != p2
    ensures EndpointKey(m1, p1) != EndpointKey(m2, p2)
  {
    KeySplits(m1, p1);
    KeySplits(m2, p2);
  }

  // ---------------------------------------------------------------------
  // ApiCallRecorder, as values.
  // ---------------------------------------------------------------------

  /** `get_callers(key)`: the callers recorded under `key`, or the empty set when it is absent. */
  function CallersOf(calls: Calls, key: string): (r: set<string>)
    ensures key !in calls ==> r == {}
  {
    if key in calls then calls[key] else {}
  }

  /** Two recorders with the same callers for every key are the same recorder. */
  lemma CallsExtensional(a: Calls, b: Calls)
    requires a.Keys == b.Keys
    requires forall k :: CallersOf(a, k) == CallersOf(b, k)
    ensures a == b
  {
    forall k | k in a ensures a[k] == b[k] { assert CallersOf(a, k) == CallersOf(b, k); }
  }

  /** The recorder after `record_call(path, caller, verb)`. */
  function RecordedCalls(calls: Calls, path: string, caller: string, verb: string): (r: Calls)
    ensures r.Keys == calls.Keys + {EndpointKey(verb, path)}
    ensures forall k :: CallersOf(r, k) == (if k == EndpointKey(verb, path) then CallersOf(calls, k) + {caller} else CallersOf(calls, k))
  {
    var k := EndpointKey(verb, path);
    calls[k := CallersOf(calls, k) + {caller}]
  }

  /** Recording the same call twice leaves one caller: set semantics, not list append. */
  lemma RecordIdempotent(calls: Calls, path: string, caller: string, verb: string)
    ensures RecordedCalls(RecordedCalls(calls, path, caller, verb), path, caller, verb)
         == RecordedCalls(calls, path, caller, verb)
  {
    var once := RecordedCalls(calls, path, caller, verb);
    CallsExtensional(RecordedCalls(once, path, caller, verb), once);
  }

  /** A call to record: `record_call(path, caller, verb)`. */
  datatype Call = Call(path: string, caller: string, verb: string)

  predicate Targets(c: Call, key: string)
  {
    EndpointKey(c.verb, c.path) == key
  }

  /** The recorder after a sequence of `record_call`s, in order. */
  function RecordAll(calls: Calls, cs: seq<Call>): Calls
    decreases |cs|
  {
    if cs == [] then calls
    else RecordAll(RecordedCalls(calls, cs[0].path, cs[0].caller, cs[0].verb), cs[1..])
  }

  /** The callers passed with `key` in a sequence of calls. */
  function PassedCallers(cs: seq<Call>, key: string): set<string>
  {
    set i | 0 <= i < |cs| && Targets(cs[i], key) :: cs[i].caller
  }

  lemma PassedCallersSplit(cs: seq<Call>, key: string)
    requires cs != []
    ensures PassedCallers(cs, key) ==
      (if Targets(cs[0], key) then {cs[0].caller} else {}) + PassedCallers(cs[1..], key)
  {
    var tail := cs[1..];
    forall x | x in PassedCallers(cs, key)
      ensures x in (if Targets(cs[0], key) then {cs[0].caller} else {}) + PassedCallers(tail, key)
    {
      var i :| 0 <= i < |cs| && Targets(cs[i], key) && cs[i].caller == x;
      if i > 0 { assert tail[i - 1] == cs[i]; }
    }
    forall x | x in PassedCallers(tail, key) ensures x in PassedCallers(cs, key) {
      var i :| 0 <= i < |tail| && Targets(tail[i], key) && tail[i].caller == x;
      assert cs[i + 1] == tail[i];
    }
  }

  lemma {:induction false} RecordAllKeys(calls: Calls, cs: seq<Call>, key: string)
    ensures key in RecordAll(calls, cs) <==> key in calls || exists i :: 0 <= i < |cs| && Targets(cs[i], key)
    decreases |cs|
  {
    if cs != [] {
      var next := RecordedCalls(calls, cs[0].path, cs[0].caller, cs[0].verb);
      RecordAllKeys(next, cs[1..], key);
      var tail := cs[1..];
      if exists i :: 0 <= i < |tail| && Targets(tail[i], key) {
        var i :| 0 <= i < |tail| && Targets(tail[i], key);
        assert cs[i + 1] == tail[i];
      }
      if exists i :: 0 <= i < |cs| && Targets(cs[i], key) {
        var i :| 0 <= i < |cs| && Targets(cs[i], key);
        if i > 0 { assert tail[i - 1] == cs[i]; }
      }
    }
  }

  /**
   * For every sequence of `record_call`s, `get_callers(key)` is what was there
   * before plus exactly the callers passed with that key, however often repeated;
   * the key is present exactly when it was before or some call targeted it.
   */
  lemma {:induction false} RecordAllCallers(calls: Calls, cs: seq<Call>, key: string)
    ensures CallersOf(RecordAll(calls, cs), key) == CallersOf(calls, key) + PassedCallers(cs, key)
    ensures key in RecordAll(calls, cs) <==> key in calls || exists i :: 0 <= i < |cs| && Targets(cs[i], key)
    decreases |cs|
  {
    RecordAllKeys(calls, cs, key);
    if cs != [] {
      var next := RecordedCalls(calls, cs[0].path, cs[0].caller, cs[0].verb);
      RecordAllCallers(next, cs[1..], key);
      PassedCallersSplit(cs, key);
    }
  }

  /** The recorder after `merge(other)`: every key of either side, callers unioned. */
  function MergedCalls(a: Calls, b: Calls): (r: Calls)
    ensures r.Keys == a.Keys + b.Keys
    ensures forall k :: CallersOf(r, k) == CallersOf(a, k) + CallersOf(b, k)
  {
    map k | k in a.Keys + b.Keys :: CallersOf(a, k) + CallersOf(b, k)
  }

  /** The part of `m` on the keys in `ks`. */
  function Restrict(m: Calls, ks: set<string>): (r: Calls)
    ensures r.Keys == m.Keys * ks
    ensures forall k :: CallersOf(r, k) == if k in ks then CallersOf(m, k) else {}
  {
    map k | k in m && k in ks :: m[k]
  }

  lemma RestrictNone(m: Calls)
    ensures Restrict(m, {}) == map[]
  {
  }

  lemma RestrictAll(m: Calls)
    ensures Restrict(m, m.Keys) == m
  {
    CallsExtensional(Restrict(m, m.Keys), m);
  }

  lemma MergeStepAt(start: Calls, src: Calls, done: set<string>, k: string, j: string)
    requires k in src && done <= src.Keys
    ensures var before := MergedCalls(start, Restrict(src, done));
      CallersOf(before[k := CallersOf(before, k) + src[k]], j) == CallersOf(MergedCalls(start, Restrict(src, done + {k})), j)
  {
  }

  /** One step of an in-place merge: folding in one more key of `src`. */
  lemma MergeStep(start: Calls, src: Calls, done: set<string>, k: string)
    requires k in src && done <= src.Keys
    ensures var before := MergedCalls(start, Restrict(src, done));
      before[k := CallersOf(before, k) + src[k]] == MergedCalls(start, Restrict(src, done + {k}))
  {
    var before := MergedCalls(start, Restrict(src, done));
    var after := before[k := CallersOf(before, k) + src[k]];
    var target := MergedCalls(start, Restrict(src, done + {k}));
    assert after.Keys == target.Keys;
    forall j ensures CallersOf(after, j) == CallersOf(target, j) {
      MergeStepAt(start, src, done, k, j);
    }
    CallsExtensional(after, target);
  }

  /** Merging an empty recorder changes nothing. */
  lemma MergeEmpty(a: Calls)
    ensures MergedCalls(a, map[]) == a
  {
    CallsExtensional(MergedCalls(a, map[]), a);
  }

  /** Merge order does not matter: merging is commutative ... */
  lemma MergeCommutative(a: Calls, b: Calls)
    ensures MergedCalls(a, b) == MergedCalls(b, a)
  {
    CallsExtensional(MergedCalls(a, b), MergedCalls(b, a));
  }

  /** ... and associative. */
  lemma MergeAssociative(a: Calls, b: Calls, c: Calls)
    ensures MergedCalls(MergedCalls(a, b), c) == MergedCalls(a, MergedCalls(b, c))
  {
    var left := MergedCalls(MergedCalls(a, b), c);
    var right := MergedCalls(a, MergedCalls(b, c));
    forall k ensures CallersOf(left, k) == CallersOf(right, k) {
      assert CallersOf(left, k) == CallersOf(a, k) + CallersOf(b, k) + CallersOf(c, k);
    }
    CallsExtensional(left, right);
  }

  /** `to_serializable()`: key -> list of callers (here in sorted order; the source leaves the order open). */
  function ToSerializable(calls: Calls): (r: map<string, seq<string>>)
    ensures r.Keys == calls.Keys
    ensures forall k :: k in r ==> |r[k]| == |calls[k]| && forall x :: x in r[k] <==> x in calls[k]
  {
    map k | k in calls :: SortedElements(calls[k])
  }

  /** `from_serializable(data)`: key -> set of the listed callers. */
  function FromSerializable(data: map<string, seq<string>>): (r: Calls)
    ensures r.Keys == data.Keys
    ensures forall k, x :: k in r ==> (x in r[k] <==> x in data[k])
  {
    map k | k in data :: set x | x in data[k]
  }

  /** The serialisation round trip restores exactly the caller sets. */
  lemma SerializableRoundTrip(calls: Calls)
    ensures FromSerializable(ToSerializable(calls)) == calls
  {
    var back := FromSerializable(ToSerializable(calls));
    forall k | k in calls ensures back[k] == calls[k] {
      assert forall x :: x in back[k] <==> x in calls[k];
    }
  }

  /** The other direction: serialising a deserialised mapping keeps each key's membership. */
  lemma SerializableRoundTripLists(data: map<string, seq<string>>)
    ensures ToSerializable(FromSerializable(data)).Keys == data.Keys
    ensures forall k, x :: k in data ==> (x in ToSerializable(FromSerializable(data))[k] <==> x in data[k])
  {
  }

  /** `get_called_methods_for_endpoint(path)`: the methods of the recorded keys whose path is `path`. */
  function CalledMethodsForEndpoint(calls: Calls, path: string): (r: seq<string>)
    ensures StrictlySorted(r)
    ensures forall m :: m in r <==> exists k :: k in calls && HasSpace(k) && PathOf(k) == path && MethodOf(k) == m
  {
    SortedElements(set k | k in calls && HasSpace(k) && PathOf(k) == path :: MethodOf(k))
  }

  /** `get_called_endpoints_for_method(verb)`: the paths of the recorded keys whose verb is `verb`. */
  function CalledEndpointsForMethod(calls: Calls, verb: string): (r: seq<string>)
    ensures StrictlySorted(r)
    ensures forall p :: p in r <==> exists k :: k in calls && HasSpace(k) && MethodOf(k) == verb && PathOf(k) == p
  {
    SortedElements(set k | k in calls && HasSpace(k) && MethodOf(k) == verb :: PathOf(k))
  }

  /** After recording a call, its verb is among the methods called on its path, and vice versa. */
  lemma ProjectionsSeeRecordedCall(calls: Calls, path: string, caller: string, verb: string)
    requires ' ' !in verb
    ensures Upper(verb) in CalledMethodsForEndpoint(RecordedCalls(calls, path, caller, verb), path)
    ensures path in CalledEndpointsForMethod(RecordedCalls(calls, path, caller, verb), Upper(verb))
  {
    KeySplits(verb, path);
    var r := RecordedCalls(calls, path, caller, verb);
    assert EndpointKey(verb, path) in r;
  }

  /** Every key of `r` holds at least one caller (true of a recorder built only by `record_call`). */
  predicate NoEmptyCallerSets(calls: Calls)
  {
    forall k :: k in calls ==> calls[k] != {}
  }

  lemma RecordKeepsCallersNonEmpty(calls: Calls, path: string, caller: string, verb: string)
    requires NoEmptyCallerSets(calls)
    ensures NoEmptyCallerSets(RecordedCalls(calls, path, caller, verb))
  {
    var r := RecordedCalls(calls, path, caller, verb);
    forall k | k in r ensures r[k] != {} {
      assert CallersOf(r, k) == r[k];
      if k == EndpointKey(verb, path) { assert caller in r[k]; } else { assert CallersOf(calls, k) == calls[k]; }
    }
  }

  class ApiCallRecorder {
    var calls: Calls

    constructor ()
      ensures calls == map[]
    {
      calls := map[];
    }

    /** `ApiCallRecorder.from_serializable(data)`. */
    constructor FromData(data: map<string, seq<string>>)
      ensures calls == FromSerializable(data)
    {
      calls := FromSerializable(data);
    }

    /** `len(recorder)`: the number of distinct keys. */
    function Size(): nat
      reads this
    {
      |calls|
    }

    /** `key in recorder`. */
    predicate Has(key: string)
      reads this
    {
      key in calls
    }

    function GetCallers(key: string): set<string>
      reads this
    {
      CallersOf(calls, key)
    }

    method RecordCall(path: string, caller: string, verb: string := "GET")
      modifies this
      ensures calls == RecordedCalls(old(calls), path, caller, verb)
    {
      var key := EndpointKey(verb, path);
      calls := calls[key := CallersOf(calls, key) + {caller}];
    }

    /** `merge(other)`: folds `other`'s caller sets into this recorder key by key. */
    method Merge(other: ApiCallRecorder)
      modifies this
      ensures calls == MergedCalls(old(calls), old(other.calls))
    {
      var src := other.calls;
      ghost var start := calls;
      var todo := src.Keys;
      ghost var done: set<string> := {};
      RestrictNone(src);
      MergeEmpty(start);
      while todo != {}
        invariant todo <= src.Keys && done == src.Keys - todo
        invariant calls == MergedCalls(start, Restrict(src, done))
        decreases todo
      {
        var k :| k in todo;
        MergeStep(start, src, done, k);
        calls := calls[k := CallersOf(calls, k) + src[k]];
        assert calls == MergedCalls(start, Restrict(src, done + {k}));
        todo := todo - {k};
        done := done + {k};
      }
      RestrictAll(src);
      assert done == src.Keys;
    }

    function Serializable(): map<string, seq<string>>
      reads this
    {
      ToSerializable(calls)
    }
  }

  // ---------------------------------------------------------------------
  // EndpointDiscovery, as values.
  // ---------------------------------------------------------------------

  predicate NoDuplicates(s: seq<string>)
  {
    forall i, j :: 0 <= i < j < |s| ==> s[i] != s[j]
  }

  /** The list after appending `key` unless it is already present. */
  function AddedOnce(s: seq<string>, key: string): (r: seq<string>)
    ensures key in r
    ensures s <= r
    ensures forall x :: x in r <==> x in s || x == key
    ensures NoDuplicates(s) ==> NoDuplicates(r)
  {
    if key in s then s else s + [key]
  }

  /** The list after appending, in order, each of `more` not already present. */
  function AppendMissing(s: seq<string>, more: seq<string>): seq<string>
    decreases |more|
  {
    if more == [] then s else AppendMissing(AddedOnce(s, more[0]), more[1..])
  }

  /**
   * Merging keeps the existing list as a prefix, holds exactly the keys of
   * both sides, and never creates a duplicate: a shared key appears once.
   */
  lemma {:induction false} AppendMissingSpec(s: seq<string>, more: seq<string>)
    ensures s <= AppendMissing(s, more)
    ensures forall x :: x in AppendMissing(s, more) <==> x in s || x in more
    ensures NoDuplicates(s) ==> NoDuplicates(AppendMissing(s, more))
    decreases |more|
  {
    if more != [] {
      AppendMissingSpec(AddedOnce(s, more[0]), more[1..]);
      assert forall x :: x in more <==> x == more[0] || x in more[1..];
    }
  }

  lemma AppendMissingStep(s: seq<string>, more: seq<string>, i: nat)
    requires i < |more|
    ensures AppendMissing(s, more[i..]) == AppendMissing(AddedOnce(s, more[i]), more[i + 1..])
  {
    assert more[i..][1..] == more[i + 1..];
  }

  /** The source label after a merge or first add: the default `"unknown"` gives way, any other label stays. */
  function AdoptedSource(current: string, offered: string): (r: string)
    ensures current != "unknown" ==> r == current
    ensures current == "unknown" ==> r == offered
  {
    if current == "unknown" then offered else current
  }

  class EndpointDiscovery {
    var endpoints: seq<string>
    var source: string

    constructor ()
      ensures endpoints == [] && source == "unknown"
    {
      endpoints := [];
      source := "unknown";
    }

    constructor WithData(endpoints: seq<string>, source: string)
      ensures this.endpoints == endpoints && this.source == source
    {
      this.endpoints := endpoints;
      this.source := source;
    }

    function Size(): nat
      reads this
    {
      |endpoints|
    }

    /** `add_endpoint(path, verb)`: appends the key unless present. */
    method AddEndpoint(path: string, verb: string := "GET")
      modifies this
      ensures endpoints == AddedOnce(old(endpoints), EndpointKey(verb, path))
      ensures source == old(source)
    {
      var key := EndpointKey(verb, path);
      if key !in endpoints {
        endpoints := endpoints + [key];
      }
    }

    /** `merge(other)`: appends `other`'s keys not already present, in `other`'s order. */
    method Merge(other: EndpointDiscovery)
      modifies this
      ensures endpoints == AppendMissing(old(endpoints), old(other.endpoints))
      ensures source == AdoptedSource(old(source), old(other.source))
    {
      var more := other.endpoints;
      source := AdoptedSource(source, other.source);
      var i := 0;
      while i < |more|
        invariant 0 <= i <= |more|
        invariant AppendMissing(endpoints, more[i..]) == AppendMissing(old(endpoints), more)
        invariant source == AdoptedSource(old(source), old(other.source))
      {
        AppendMissingStep(endpoints, more, i);
        if more[i] !in endpoints {
          endpoints := endpoints + [more[i]];
        }
        i := i + 1;
      }
    }
  }

  // ---------------------------------------------------------------------
  // SessionData.
  // ---------------------------------------------------------------------

  /** A worker's caller value as it may arrive: a list, a set, or a single test name. */
  datatype CallerValue = ListOf(names: seq<string>) | SetOf(members: set<string>) | Single(name: string)

  /** The caller set a value is coerced to before merging. */
  function AsCallerSet(v: CallerValue): (r: set<string>)
    ensures v.ListOf? ==> forall x :: x in r <==> x in v.names
    ensures v.SetOf? ==> r == v.members
    ensures v.Single? ==> r == {v.name}
  {
    match v
    case ListOf(names) => set x | x in names
    case SetOf(members) => members
    case Single(name) => {name}
  }

  /** A worker's recorder snapshot: a mapping, or something else (`None`, a string, ...). */
  datatype WorkerRecorder = Mapping(entries: map<string, CallerValue>) | NotAMapping

  /** The worker snapshot as a recorder: keys kept verbatim, values coerced; nothing for a non-mapping. */
  function WorkerCalls(w: WorkerRecorder): (r: Calls)
    ensures w.NotAMapping? ==> r == map[]
    ensures w.Mapping? ==> r.Keys == w.entries.Keys && forall k :: k in r ==> r[k] == AsCallerSet(w.entries[k])
  {
    match w
    case Mapping(entries) => map k | k in entries :: AsCallerSet(entries[k])
    case NotAMapping => map[]
  }

  class SessionData {
    const recorder: ApiCallRecorder
    const discovery: EndpointDiscovery

    constructor ()
      ensures fresh(recorder) && fresh(discovery)
      ensures recorder.calls == map[]
      ensures discovery.endpoints == [] && discovery.source == "unknown"
    {
      recorder := new ApiCallRecorder();
      discovery := new EndpointDiscovery();
    }

    method RecordCall(path: string, caller: string, verb: string := "GET")
      modifies recorder
      ensures recorder.calls == RecordedCalls(old(recorder.calls), path, caller, verb)
    {
      recorder.RecordCall(path, caller, verb);
    }

    /** `add_discovered_endpoint(path, verb, source)`: the first label set sticks. */
    method AddDiscoveredEndpoint(path: string, verb: string := "GET", source: string := "unknown")
      modifies discovery
      ensures discovery.endpoints == AddedOnce(old(discovery.endpoints), EndpointKey(verb, path))
      ensures discovery.source == AdoptedSource(old(discovery.source), source)
    {
      discovery.source := AdoptedSource(discovery.source, source);
      discovery.AddEndpoint(path, verb);
    }

    /**
     * `merge_worker_data(worker_recorder, worker_endpoints)`: a mapping snapshot
     * is coerced and unioned into the recorder (a non-mapping is ignored), and
     * the worker's endpoints are appended verbatim unless already present.
     */
    method MergeWorkerData(worker: WorkerRecorder, workerEndpoints: seq<string>)
      modifies recorder, discovery
      ensures recorder.calls == MergedCalls(old(recorder.calls), WorkerCalls(worker))
      ensures discovery.endpoints == AppendMissing(old(discovery.endpoints), workerEndpoints)
      ensures discovery.source == old(discovery.source)
    {
      if worker.Mapping? {
        var incoming := new ApiCallRecorder();
        incoming.calls := WorkerCalls(worker);
        recorder.Merge(incoming);
      } else {
        MergeEmpty(recorder.calls);
      }
      var endpoints := discovery.endpoints;
      var i := 0;
      while i < |workerEndpoints|
        invariant 0 <= i <= |workerEndpoints|
        invariant AppendMissing(endpoints, workerEndpoints[i..]) == AppendMissing(old(discovery.endpoints), workerEndpoints)
        modifies {}
      {
        AppendMissingStep(endpoints, workerEndpoints, i);
        var e := workerEndpoints[i];
        if e !in endpoints {
          endpoints := endpoints + [e];
        }
        i := i + 1;
      }
      discovery.endpoints := endpoints;
    }
  }
}
