/**
 * `parse_openapi_spec`: the `"METHOD /path"` strings of an OpenAPI
 * document's Paths Object (section 4.7.8 of the OpenAPI Specification
 * 3.0.3), keeping only the Path Item keys that name an HTTP method
 * (section 4.7.9). Reading the file and decoding YAML or JSON are not
 * modelled: a spec file is either missing or carries what decoding it in
 * each format would give.
 */
module OpenApi {
  import opened TextOps

  /** The method names a Path Item key is checked against, after upper-casing. */
  const HttpMethods: set<string> := {"GET", "POST", "PUT", "DELETE", "PATCH", "HEAD", "OPTIONS", "TRACE"}

  datatype Format = Yaml | Json

  /** A `.yaml` or `.yml` suffix, in any case, is read as YAML; every other suffix as JSON. */
  function FormatFor(suffix: string): Format
  {
    if Lower(suffix) == ".yaml" || Lower(suffix) == ".yml" then Yaml else Json
  }

  /** One entry of the Paths Object: the path and the keys of its Path Item, in document order. */
  datatype PathEntry = PathEntry(path: string, itemKeys: seq<string>)

  /** The `paths` key of a mapping: absent, a mapping of Path Items, or some other value (`null`, a list, a string). */
  datatype PathsField = NoPaths | PathsMapping(entries: seq<PathEntry>) | PathsNotAMapping

  /** The decoded top-level value: a mapping with its `paths` key, or any other value. */
  datatype Document = Mapping(paths: PathsField) | NotAMapping

  /** What decoding the file gave: a document, or an exception (unreadable file, syntax error). */
  datatype Decoded = Decoded(doc: Document) | DecodeError

  /** The spec file: absent, or present with its suffix and the result of decoding it as YAML or as JSON. */
  datatype SpecFile = Missing | Present(suffix: string, decodeAs: Format -> Decoded)

  /**
   * The function's result: the endpoint list, or the `AttributeError` that
   * escapes when the decoded top-level value is not a mapping (an empty YAML
   * file decodes to `None`) or its `paths` value has no `items` (a bare
   * `paths:` in YAML, `"paths": []` in JSON), since the path loop runs
   * outside the `try`. Path Item keys are strings here, so the
   * `AttributeError` of a non-string key is not among these cases.
   */
  datatype Parsed = Endpoints(list: seq<string>) | AttributeError

  /** `f"{key.upper()} {path}"` for each Path Item key whose upper-case form is an HTTP method. */
  function ItemEndpoints(path: string, keys: seq<string>): (r: seq<string>)
    ensures forall e :: e in r <==> exists k :: k in keys && Upper(k) in HttpMethods && e == Upper(k) + " " + path
    ensures |r| <= |keys|
  {
    if keys == [] then []
    else
      var rest := ItemEndpoints(path, keys[1..]);
      assert forall k :: k in keys <==> k == keys[0] || k in keys[1..];
      if Upper(keys[0]) in HttpMethods then [Upper(keys[0]) + " " + path] + rest else rest
  }

  /** One entry per key exactly when every key is a method name; each other key costs one entry. */
  lemma {:induction false} ItemEndpointsCount(path: string, keys: seq<string>)
    ensures |ItemEndpoints(path, keys)| == |keys| <==> forall k :: k in keys ==> Upper(k) in HttpMethods
    decreases |keys|
  {
    if keys != [] {
      ItemEndpointsCount(path, keys[1..]);
      assert forall k :: k in keys <==> k == keys[0] || k in keys[1..];
    }
  }

  /** The endpoints of the first entries, in document order (what the loop has built after them). */
  function PathsEndpoints(paths: seq<PathEntry>): seq<string>
  {
    if paths == [] then []
    else PathsEndpoints(paths[..|paths| - 1]) + ItemEndpoints(paths[|paths| - 1].path, paths[|paths| - 1].itemKeys)
  }

  /** An endpoint is listed exactly when the Path Item of some path gives it. */
  lemma {:induction false} PathsEndpointsMembership(paths: seq<PathEntry>, e: string)
    ensures e in PathsEndpoints(paths) <==>
      exists i :: 0 <= i < |paths| && e in ItemEndpoints(paths[i].path, paths[i].itemKeys)
  {
    if paths != [] {
      var n := |paths| - 1;
      var init := paths[..n];
      var last := ItemEndpoints(paths[n].path, paths[n].itemKeys);
      PathsEndpointsMembership(init, e);
      assert PathsEndpoints(paths) == PathsEndpoints(init) + last;
      if e in PathsEndpoints(paths) {
        if e in PathsEndpoints(init) {
          var i :| 0 <= i < |init| && e in ItemEndpoints(init[i].path, init[i].itemKeys);
          assert init[i] == paths[i];
        } else {
          assert e in last;
        }
      } else {
        forall i | 0 <= i < |paths| ensures e !in ItemEndpoints(paths[i].path, paths[i].itemKeys) {
          if i < n {
            assert init[i] == paths[i];
          }
        }
      }
    }
  }

  /** Spelled out: an endpoint is listed exactly when some path has a key whose upper-case form is a method giving it. */
  lemma PathsEndpointsSpec(paths: seq<PathEntry>, e: string)
    ensures e in PathsEndpoints(paths) <==>
      exists i, k :: 0 <= i < |paths| && k in paths[i].itemKeys && Upper(k) in HttpMethods && e == Upper(k) + " " + paths[i].path
  {
    PathsEndpointsMembership(paths, e);
  }

  lemma {:induction false} ItemEndpointsConcat(path: string, a: seq<string>, b: seq<string>)
    ensures ItemEndpoints(path, a + b) == ItemEndpoints(path, a) + ItemEndpoints(path, b)
    decreases |a|
  {
    if a == [] {
      assert a + b == b;
    } else {
      ItemEndpointsConcat(path, a[1..], b);
      var ab := a + b;
      assert ab[0] == a[0] && ab[1..] == a[1..] + b;
      var head := if Upper(a[0]) in HttpMethods then [Upper(a[0]) + " " + path] else [];
      assert ItemEndpoints(path, ab) == head + ItemEndpoints(path, a[1..] + b);
      assert ItemEndpoints(path, a) == head + ItemEndpoints(path, a[1..]);
    }
  }

  /** A key that is not a method name (`parameters`, `summary`, ...) contributes nothing, wherever it sits. */
  lemma OtherKeysIgnored(path: string, a: seq<string>, k: string, b: seq<string>)
    requires Upper(k) !in HttpMethods
    ensures ItemEndpoints(path, a + [k] + b) == ItemEndpoints(path, a + b)
  {
    ItemEndpointsConcat(path, a + [k], b);
    ItemEndpointsConcat(path, a, [k]);
    ItemEndpointsConcat(path, a, b);
    assert ItemEndpoints(path, [k]) == [] by { assert [k][1..] == []; }
  }

  /** Unlike the framework adapters, the spec keeps `HEAD`, `OPTIONS` and `TRACE`, whatever their case. */
  lemma HeadOptionsTraceKept(path: string, k: string)
    requires Upper(k) in {"HEAD", "OPTIONS", "TRACE"}
    ensures ItemEndpoints(path, [k]) == [Upper(k) + " " + path]
  {
    assert [k][1..] == [];
  }

  /** `parse_openapi_spec(path)`. */
  method ParseOpenApiSpec(file: SpecFile) returns (r: Parsed)
    ensures file.Missing? ==> r == Endpoints([])
    ensures file.Present? && file.decodeAs(FormatFor(file.suffix)).DecodeError? ==> r == Endpoints([])
    ensures file.Present? && file.decodeAs(FormatFor(file.suffix)) == Decoded(NotAMapping) ==> r == AttributeError
    ensures file.Present? && file.decodeAs(FormatFor(file.suffix)) == Decoded(Mapping(NoPaths)) ==> r == Endpoints([])
    ensures file.Present? && file.decodeAs(FormatFor(file.suffix)) == Decoded(Mapping(PathsNotAMapping)) ==> r == AttributeError
    ensures file.Present? && file.decodeAs(FormatFor(file.suffix)).Decoded? && file.decodeAs(FormatFor(file.suffix)).doc.Mapping?
            && file.decodeAs(FormatFor(file.suffix)).doc.paths.PathsMapping? ==>
      var paths := file.decodeAs(FormatFor(file.suffix)).doc.paths.entries;
      r.Endpoints? && Sorted(r.list) && multiset(r.list) == multiset(PathsEndpoints(paths))
  {
    if file.Missing? {
      return Endpoints([]);
    }
    var decoded := file.decodeAs(FormatFor(file.suffix));
    if decoded.DecodeError? {
      return Endpoints([]);
    }
    if decoded.doc.NotAMapping? {
      return AttributeError;
    }
    if decoded.doc.paths.PathsNotAMapping? {
      return AttributeError;
    }
    var paths := if decoded.doc.paths.PathsMapping? then decoded.doc.paths.entries else [];
    var endpoints: seq<string> := [];
    var i := 0;
    while i < |paths|
      invariant 0 <= i <= |paths|
      invariant endpoints == PathsEndpoints(paths[..i])
    {
      assert paths[..i + 1][..i] == paths[..i];
      endpoints := endpoints + ItemEndpoints(paths[i].path, paths[i].itemKeys);
      i := i + 1;
    }
    assert paths[..i] == paths;
    SortCorrect(endpoints);
    r := Endpoints(Sort(endpoints));
  }

  /** The file suffix decides the decoder: `.yaml` and `.yml` in any case give YAML, others JSON. */
  lemma FormatExamples()
    ensures FormatFor(".yaml") == Yaml && FormatFor(".YML") == Yaml
    ensures FormatFor(".json") == Json && FormatFor(".txt") == Json
  {
    assert Lower(".json")[1] == 'j' && Lower(".txt")[1] == 't';
    assert ".yaml"[1] == 'y' && ".yml"[1] == 'y';
  }
}
