/**
 * The framework adapters: which adapter an application gets, how each one
 * lists its routes as sorted `"METHOD /path"` strings, and what its tracking
 * test client does with a request (record the call, then forward it).
 * Framework objects are abstract records here: a Flask rule, a FastAPI
 * route, a Django URL pattern or resolver, and a request's method and path.
 */
module Frameworks {
  import opened TextOps
  import opened Models
  import opened Wrappers

  // ---------------------------------------------------------------------
  // `get_framework_adapter`.
  // ---------------------------------------------------------------------

  /** The two names adapter selection looks at: `type(app).__module__` and `type(app).__name__`. */
  datatype AppType = AppType(moduleName: string, className: string)

  /** `type(app).__module__.split(".")[0]`. */
  function TopModule(t: AppType): string
  {
    FirstSegment(t.moduleName, '.')
  }

  datatype Adapter = FlaskAdapter | FastAPIAdapter | DjangoAdapter

  /** An adapter, or the `TypeError` raised for anything else. */
  datatype Selection = Selected(adapter: Adapter) | Unsupported(message: string)

  predicate IsFlaskApp(t: AppType)
  {
    (TopModule(t) == "flask" && t.className == "Flask") || (TopModule(t) == "flask_openapi3" && t.className == "OpenAPI")
  }

  predicate IsFastAPIApp(t: AppType)
  {
    TopModule(t) == "fastapi" && t.className == "FastAPI"
  }

  lemma NoDjangoInFlaskNames()
    ensures !ContainsText("flask", "django")
    ensures !ContainsText("flask_openapi3", "django")
    ensures !ContainsText("fastapi", "django")
  {
    var dj := "django";
    assert dj != [] && dj[0] == 'd';
    assert 'd' !in "flask" && 'd' !in "flask_openapi3" && 'd' !in "fastapi";
    NotContainsText("flask", dj);
    NotContainsText("flask_openapi3", dj);
    NotContainsText("fastapi", dj);
  }

  /**
   * Flask (or flask-openapi3's `OpenAPI`) first, then FastAPI, then any top
   * module whose name contains `django`; everything else is unsupported.
   * The outcomes are exclusive, and the `WSGIHandler` test after the
   * `django` one can never be the one that decides.
   */
  function GetFrameworkAdapter(t: AppType): (r: Selection)
    ensures r == Selected(FlaskAdapter) <==> IsFlaskApp(t)
    ensures r == Selected(FastAPIAdapter) <==> IsFastAPIApp(t)
    ensures r == Selected(DjangoAdapter) <==> ContainsText(TopModule(t), "django")
    ensures r.Unsupported? <==> !IsFlaskApp(t) && !IsFastAPIApp(t) && !ContainsText(TopModule(t), "django")
    ensures r.Unsupported? ==> r.message == "Unsupported application type: " + t.className + ". pytest-api-coverage supports Flask, FastAPI, and Django."
  {
    var m := TopModule(t);
    NoDjangoInFlaskNames();
    WsgiHandlerTestUnreachable(t);
    if IsFlaskApp(t) then Selected(FlaskAdapter)
    else if IsFastAPIApp(t) then Selected(FastAPIAdapter)
    else if m == "django" || ContainsText(m, "django") then Selected(DjangoAdapter)
    else if t.className == "WSGIHandler" && m == "django.core.handlers.wsgi" then Selected(DjangoAdapter)
    else Unsupported("Unsupported application type: " + t.className + ". pytest-api-coverage supports Flask, FastAPI, and Django.")
  }

  /** The top module is the text before the first dot, so it is never the dotted WSGI handler module name. */
  lemma WsgiHandlerTestUnreachable(t: AppType)
    ensures TopModule(t) != "django.core.handlers.wsgi"
  {
    var wsgi := "django.core.handlers.wsgi";
    assert wsgi[6] == '.';
    assert '.' in wsgi;
    assert '.' !in TopModule(t);
  }

  /** Every class from the `django` package or one of its sub-modules (a `WSGIHandler`, say) gets the Django adapter. */
  lemma DjangoModulesSelectDjango(t: AppType, sub: string)
    requires t.moduleName == "django" + sub
    requires sub == [] || sub[0] == '.'
    ensures GetFrameworkAdapter(t) == Selected(DjangoAdapter)
  {
    var dj := "django";
    assert '.' !in dj;
    if sub == [] {
      assert t.moduleName == dj;
    } else {
      FirstSegmentOf(dj, '.', sub[1..]);
      assert dj + ['.'] + sub[1..] == t.moduleName;
    }
    assert TopModule(t) == dj;
    assert dj <= TopModule(t);
  }

  // ---------------------------------------------------------------------
  // Route enumeration (`get_endpoints`).
  // ---------------------------------------------------------------------

  /** Adapters leave `HEAD` and `OPTIONS` out. */
  predicate Reported(verb: string)
  {
    verb != "HEAD" && verb != "OPTIONS"
  }

  /** `f"{method} {path}"` for each reported method, in the order given. */
  function RouteEndpoints(path: string, verbs: seq<string>): (r: seq<string>)
    ensures forall e :: e in r <==> exists v :: v in verbs && Reported(v) && e == v + " " + path
  {
    if verbs == [] then []
    else
      var rest := RouteEndpoints(path, verbs[1..]);
      assert forall v :: v in verbs <==> v == verbs[0] || v in verbs[1..];
      if Reported(verbs[0]) then [verbs[0] + " " + path] + rest else rest
  }

  /** A Flask rule: its rule string and its set of methods. */
  datatype FlaskRule = FlaskRule(rule: string, methods: set<string>)

  const FlaskStaticRule: string := "/static/<path:filename>"

  /** The comprehension in Flask's `get_endpoints`, before sorting (a set is walked in ascending order here). */
  function FlaskEndpointList(rules: seq<FlaskRule>): (r: seq<string>)
    ensures forall e :: e in r <==>
      exists i, v :: 0 <= i < |rules| && rules[i].rule != FlaskStaticRule && v in rules[i].methods && Reported(v) && e == v + " " + rules[i].rule
  {
    if rules == [] then []
    else
      var head := if rules[0].rule != FlaskStaticRule then RouteEndpoints(rules[0].rule, SortedElements(rules[0].methods)) else [];
      var rest := FlaskEndpointList(rules[1..]);
      assert forall e :: e in rest <==>
        exists i, v :: 1 <= i < |rules| && rules[i].rule != FlaskStaticRule && v in rules[i].methods && Reported(v) && e == v + " " + rules[i].rule
      by {
        forall e | e in rest ensures exists i, v :: 1 <= i < |rules| && rules[i].rule != FlaskStaticRule && v in rules[i].methods && Reported(v) && e == v + " " + rules[i].rule {
          var i, v :| 0 <= i < |rules[1..]| && rules[1..][i].rule != FlaskStaticRule && v in rules[1..][i].methods && Reported(v) && e == v + " " + rules[1..][i].rule;
          assert rules[i + 1] == rules[1..][i];
        }
        forall e, i, v | 1 <= i < |rules| && rules[i].rule != FlaskStaticRule && v in rules[i].methods && Reported(v) && e == v + " " + rules[i].rule ensures e in rest {
          assert rules[1..][i - 1] == rules[i];
        }
      }
      head + rest
  }

  /** `FlaskAdapter.get_endpoints`: one `"M rule"` per rule and reported method, the static rule left out, sorted. */
  function FlaskEndpoints(rules: seq<FlaskRule>): (r: seq<string>)
    ensures Sorted(r)
    ensures multiset(r) == multiset(FlaskEndpointList(rules))
    ensures forall e :: e in r <==>
      exists i, v :: 0 <= i < |rules| && rules[i].rule != FlaskStaticRule && v in rules[i].methods && Reported(v) && e == v + " " + rules[i].rule
  {
    var list := FlaskEndpointList(rules);
    SortCorrect(list);
    SortSameElements(list);
    Sort(list)
  }

  /** A FastAPI route: an `APIRoute` with its path and methods, or any other kind of route (mounts, websockets). */
  datatype FastAPIRoute = ApiRoute(path: string, methods: set<string>) | OtherRoute

  function FastAPIEndpointList(routes: seq<FastAPIRoute>): (r: seq<string>)
    ensures forall e :: e in r <==>
      exists i, v :: 0 <= i < |routes| && routes[i].ApiRoute? && v in routes[i].methods && Reported(v) && e == v + " " + routes[i].path
  {
    if routes == [] then []
    else
      var head := if routes[0].ApiRoute? then RouteEndpoints(routes[0].path, SortedElements(routes[0].methods)) else [];
      var rest := FastAPIEndpointList(routes[1..]);
      assert forall e :: e in rest <==>
        exists i, v :: 1 <= i < |routes| && routes[i].ApiRoute? && v in routes[i].methods && Reported(v) && e == v + " " + routes[i].path
      by {
        forall e ensures e in rest <==>
          exists i, v :: 1 <= i < |routes| && routes[i].ApiRoute? && v in routes[i].methods && Reported(v) && e == v + " " + routes[i].path
        {
          RoutesTail(routes, e);
        }
      }
      head + rest
  }

  /** The endpoints an `APIRoute` of the tail gives, indexed in the whole list. */
  lemma RoutesTail(routes: seq<FastAPIRoute>, e: string)
    requires routes != []
    ensures (exists i, v :: 0 <= i < |routes[1..]| && routes[1..][i].ApiRoute? && v in routes[1..][i].methods && Reported(v) && e == v + " " + routes[1..][i].path)
      <==> (exists i, v :: 1 <= i < |routes| && routes[i].ApiRoute? && v in routes[i].methods && Reported(v) && e == v + " " + routes[i].path)
  {
    var tail := routes[1..];
    if exists i, v :: 0 <= i < |tail| && tail[i].ApiRoute? && v in tail[i].methods && Reported(v) && e == v + " " + tail[i].path {
      var i, v :| 0 <= i < |tail| && tail[i].ApiRoute? && v in tail[i].methods && Reported(v) && e == v + " " + tail[i].path;
      assert routes[i + 1] == tail[i];
    }
    if exists i, v :: 1 <= i < |routes| && routes[i].ApiRoute? && v in routes[i].methods && Reported(v) && e == v + " " + routes[i].path {
      var i, v :| 1 <= i < |routes| && routes[i].ApiRoute? && v in routes[i].methods && Reported(v) && e == v + " " + routes[i].path;
      assert tail[i - 1] == routes[i];
    }
  }

  /** `FastAPIAdapter.get_endpoints`: API routes only, `HEAD`/`OPTIONS` left out, sorted. */
  function FastAPIEndpoints(routes: seq<FastAPIRoute>): (r: seq<string>)
    ensures Sorted(r)
    ensures multiset(r) == multiset(FastAPIEndpointList(routes))
    ensures forall e :: e in r <==>
      exists i, v :: 0 <= i < |routes| && routes[i].ApiRoute? && v in routes[i].methods && Reported(v) && e == v + " " + routes[i].path
  {
    var list := FastAPIEndpointList(routes);
    SortCorrect(list);
    SortSameElements(list);
    Sort(list)
  }

  // ---------------------------------------------------------------------
  // Django URL configuration.
  // ---------------------------------------------------------------------

  /**
   * An entry of a Django `urlpatterns` list: a pattern with its route text and
   * the view class's `http_method_names` when it has them, a resolver
   * (`include(...)`) with its route text and its own entries, or anything else.
   */
  datatype UrlEntry =
    | UrlPattern(pattern: string, methodNames: Option<seq<string>>)
    | UrlResolver(pattern: string, children: seq<UrlEntry>)
    | OtherEntry

  const DjangoDefaultMethods: set<string> := {"GET", "POST", "PUT", "PATCH", "DELETE", "HEAD", "OPTIONS"}

  /** The route text with leading and trailing `^`/`$` removed. */
  function DjangoRoute(pattern: string): string
  {
    Strip(pattern, {'^', '$'})
  }

  /** `f"/{prefix}{route}".replace("//", "/")`. */
  function DjangoPath(prefix: string, pattern: string): string
  {
    CollapseDoubleSlash("/" + prefix + DjangoRoute(pattern))
  }

  /** A route without `^`/`$` at its ends, joined without a doubled slash, is used verbatim. */
  lemma DjangoPathVerbatim(prefix: string, route: string)
    requires route == [] || (route[0] !in {'^', '$'} && route[|route| - 1] !in {'^', '$'})
    requires NoDoubleSlash("/" + prefix + route)
    ensures DjangoPath(prefix, route) == "/" + prefix + route
  {
    assert StripLeft(route, {'^', '$'}) == route;
    assert StripRight(route, {'^', '$'}) == route;
    CollapseKeepsPlain("/" + prefix + route);
  }

  /** The methods of a pattern: the upper-cased `http_method_names` when the view class has them, else the defaults. */
  function DjangoMethods(methodNames: Option<seq<string>>): (r: set<string>)
    ensures methodNames.None? ==> r == DjangoDefaultMethods
    ensures methodNames.Some? ==> forall v :: v in r <==> exists n :: n in methodNames.value && v == Upper(n)
  {
    match methodNames
    case None => DjangoDefaultMethods
    case Some(names) => set n | n in names :: Upper(n)
  }

  /** The endpoints of one URL pattern: `"M path"` for each of its reported methods. */
  function PatternEndpoints(prefix: string, pattern: string, methodNames: Option<seq<string>>): seq<string>
  {
    RouteEndpoints(DjangoPath(prefix, pattern), SortedElements(DjangoMethods(methodNames)))
  }

  /** What `_extract_patterns` appends for one entry. */
  function EntryEndpoints(entry: UrlEntry, prefix: string): seq<string>
    decreases entry
  {
    match entry
    case UrlPattern(p, names) => PatternEndpoints(prefix, p, names)
    case UrlResolver(p, children) => DjangoEndpoints(children, prefix + DjangoRoute(p))
    case OtherEntry => []
  }

  /** What `_extract_patterns(patterns, prefix)` appends, entry by entry and depth first. */
  function DjangoEndpoints(patterns: seq<UrlEntry>, prefix: string): seq<string>
    decreases patterns
  {
    if patterns == [] then []
    else EntryEndpoints(patterns[0], prefix) + DjangoEndpoints(patterns[1..], prefix)
  }

  /** A resolver contributes its children's endpoints under the prefix extended by its own route. */
  lemma ResolverExtendsPrefix(p: string, children: seq<UrlEntry>, prefix: string)
    ensures DjangoEndpoints([UrlResolver(p, children)], prefix) == DjangoEndpoints(children, prefix + DjangoRoute(p))
  {
    assert [UrlResolver(p, children)][1..] == [];
  }

  /** A set of methods walked in any order gives one endpoint per reported method. */
  lemma MethodSetEndpoints(path: string, methods: set<string>)
    ensures forall e :: e in RouteEndpoints(path, SortedElements(methods)) <==>
      exists v :: v in methods && Reported(v) && e == v + " " + path
  {
  }

  lemma DefaultMethodsReported()
    ensures forall v :: v in DjangoDefaultMethods && Reported(v) <==> v in {"GET", "POST", "PUT", "PATCH", "DELETE"}
  {
  }

  /** A plain function view gets the five default methods, `HEAD` and `OPTIONS` being dropped. */
  lemma FunctionViewEndpoints(p: string, prefix: string)
    ensures forall e :: e in DjangoEndpoints([UrlPattern(p, None)], prefix) <==>
      exists v :: v in {"GET", "POST", "PUT", "PATCH", "DELETE"} && e == v + " " + DjangoPath(prefix, p)
  {
    var entry := UrlPattern(p, None);
    var path := DjangoPath(prefix, p);
    var r := DjangoEndpoints([entry], prefix);
    assert r == PatternEndpoints(prefix, p, None) by {
      assert [entry][1..] == [];
      assert r == EntryEndpoints(entry, prefix) + [];
    }
    assert r == RouteEndpoints(path, SortedElements(DjangoDefaultMethods));
    MethodSetEndpoints(path, DjangoDefaultMethods);
    DefaultMethodsReported();
  }

  lemma ConcatAssoc(a: seq<string>, b: seq<string>, c: seq<string>)
    ensures a + (b + c) == (a + b) + c
  {
  }

  lemma DjangoEndpointsAt(patterns: seq<UrlEntry>, i: nat, prefix: string)
    requires i < |patterns|
    ensures DjangoEndpoints(patterns[i..], prefix) == EntryEndpoints(patterns[i], prefix) + DjangoEndpoints(patterns[i + 1..], prefix)
  {
    assert patterns[i..][0] == patterns[i] && patterns[i..][1..] == patterns[i + 1..];
  }

  /** Collects Django endpoints into a list the recursive walk extends in place. */
  class EndpointCollector {
    var endpoints: seq<string>

    constructor ()
      ensures endpoints == []
    {
      endpoints := [];
    }

    /** `_extract_patterns(patterns, prefix)`. */
    method ExtractPatterns(patterns: seq<UrlEntry>, prefix: string)
      modifies this
      ensures endpoints == old(endpoints) + DjangoEndpoints(patterns, prefix)
      decreases patterns
    {
      var i := 0;
      while i < |patterns|
        invariant 0 <= i <= |patterns|
        invariant old(endpoints) + DjangoEndpoints(patterns, prefix) == endpoints + DjangoEndpoints(patterns[i..], prefix)
      {
        var entry := patterns[i];
        ghost var before := endpoints;
        ghost var later := DjangoEndpoints(patterns[i + 1..], prefix);
        DjangoEndpointsAt(patterns, i, prefix);
        match entry {
          case UrlPattern(p, names) =>
            endpoints := endpoints + PatternEndpoints(prefix, p, names);
          case UrlResolver(p, children) =>
            ExtractPatterns(children, prefix + DjangoRoute(p));
          case OtherEntry =>
        }
        assert endpoints == before + EntryEndpoints(entry, prefix);
        ConcatAssoc(before, EntryEndpoints(entry, prefix), later);
        i := i + 1;
      }
      assert patterns[i..] == [];
    }
  }

  /** `DjangoAdapter.get_endpoints`: walk the root URL configuration, then sort. */
  method DjangoGetEndpoints(urlpatterns: seq<UrlEntry>) returns (r: seq<string>)
    ensures Sorted(r)
    ensures multiset(r) == multiset(DjangoEndpoints(urlpatterns, ""))
  {
    var collector := new EndpointCollector();
    collector.ExtractPatterns(urlpatterns, "");
    SortCorrect(collector.endpoints);
    r := Sort(collector.endpoints);
  }

  // ---------------------------------------------------------------------
  // Tracking test clients.
  // ---------------------------------------------------------------------

  /** What a tracking client has done so far, in order; `Escaped` is an exception that leaves the client. */
  datatype Event = Recorded(path: string, caller: string, verb: string) | Forwarded | Escaped(error: string)

  /**
   * A test client bound to one test. With a recorder it records each call
   * before forwarding the request to the framework's own client; without one
   * it is the framework's plain client and only forwards. `hasRecordCall`
   * says whether the recorder object has a `record_call` method: an
   * `ApiCallRecorder` has, a plain mapping of keys to caller sets (which
   * `recorder.calls` then stands for) has not, and calling it raises
   * `AttributeError`.
   */
  class TrackingClient {
    const recorder: ApiCallRecorder?
    const hasRecordCall: bool
    const testName: string
    var events: seq<Event>

    /** `get_tracked_client(recorder, test_name)` on an `ApiCallRecorder`, or on no recorder. */
    constructor (recorder: ApiCallRecorder?, testName: string)
      ensures this.recorder == recorder && hasRecordCall && this.testName == testName && events == []
    {
      this.recorder := recorder;
      hasRecordCall := true;
      this.testName := testName;
      events := [];
    }

    /** `get_tracked_client(mapping, test_name)` on a plain mapping, which has no `record_call`. */
    constructor OnPlainMapping(mapping: ApiCallRecorder, testName: string)
      ensures recorder == mapping && !hasRecordCall && this.testName == testName && events == []
    {
      recorder := mapping;
      hasRecordCall := false;
      this.testName := testName;
      events := [];
    }

    /**
     * The Flask client's `open`: `path` is the request path (absent or empty
     * means none), `verb` the `method` argument, and `matchedRule` the rule
     * string of the first rule registered for the endpoint the URL map
     * matches the path to (with several rules per view, not necessarily the
     * rule that matched), absent when matching raises.
     * The rule template is recorded, not the concrete path. A failed match,
     * or the `AttributeError` of a recorder without `record_call`, is
     * swallowed by the `except Exception` and records nothing; the request
     * is forwarded exactly once either way.
     */
    method FlaskOpen(path: Option<string>, verb: Option<string>, matchedRule: Option<string>)
      modifies this, recorder
      ensures var records := recorder != null && hasRecordCall && path.Some? && path.value != [] && matchedRule.Some?;
        && events == old(events) + (if records then [Recorded(matchedRule.value, testName, Upper(verb.GetOr("GET")))] else []) + [Forwarded]
        && (recorder != null ==>
              recorder.calls == (if records then RecordedCalls(old(recorder.calls), matchedRule.value, testName, Upper(verb.GetOr("GET"))) else old(recorder.calls)))
    {
      if recorder != null {
        var m := Upper(verb.GetOr("GET"));
        if path.Some? && path.value != [] {
          if matchedRule.Some? && hasRecordCall {
            recorder.RecordCall(matchedRule.value, testName, m);
            events := events + [Recorded(matchedRule.value, testName, m)];
          }
        }
      }
      events := events + [Forwarded];
    }

    /**
     * The FastAPI client's `send`: records the request's upper-cased method
     * and its concrete path, then forwards. A recorder without `record_call`
     * raises before anything is forwarded.
     */
    method FastAPISend(verb: string, path: string)
      modifies this, recorder
      ensures recorder != null && !hasRecordCall ==> events == old(events) + [Escaped("AttributeError")] && recorder.calls == old(recorder.calls)
      ensures recorder == null || hasRecordCall ==>
        events == old(events) + (if recorder != null then [Recorded(path, testName, Upper(verb))] else []) + [Forwarded]
      ensures recorder != null && hasRecordCall ==> recorder.calls == RecordedCalls(old(recorder.calls), path, testName, Upper(verb))
    {
      if recorder != null {
        if !hasRecordCall {
          events := events + [Escaped("AttributeError")];
          return;
        }
        recorder.RecordCall(path, testName, Upper(verb));
        events := events + [Recorded(path, testName, Upper(verb))];
      }
      events := events + [Forwarded];
    }

    /**
     * The Django client's `request`: `REQUEST_METHOD` defaults to `GET` and
     * `PATH_INFO` to `/`; records, then forwards. A recorder without
     * `record_call` raises before anything is forwarded.
     */
    method DjangoRequest(verb: Option<string>, path: Option<string>)
      modifies this, recorder
      ensures recorder != null && !hasRecordCall ==> events == old(events) + [Escaped("AttributeError")] && recorder.calls == old(recorder.calls)
      ensures var m := Upper(verb.GetOr("GET"));
        recorder == null || hasRecordCall ==>
        && events == old(events) + (if recorder != null then [Recorded(path.GetOr("/"), testName, m)] else []) + [Forwarded]
        && (recorder != null ==> recorder.calls == RecordedCalls(old(recorder.calls), path.GetOr("/"), testName, m))
    {
      if recorder != null {
        if !hasRecordCall {
          events := events + [Escaped("AttributeError")];
          return;
        }
        var m := Upper(verb.GetOr("GET"));
        var p := path.GetOr("/");
        recorder.RecordCall(p, testName, m);
        events := events + [Recorded(p, testName, m)];
      }
      events := events + [Forwarded];
    }
  }
}
