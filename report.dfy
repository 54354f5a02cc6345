/**
 * Reconciling discovered endpoints with recorded calls: template matching
 * (`endpoint_to_regex`), exclusion patterns with `!` negation, the
 * covered / uncovered / excluded partition (`categorise_endpoints`), the
 * coverage figure (`compute_coverage`), per-endpoint caller detail
 * (`prepare_endpoint_detail`) and the pass/fail status and report record of
 * `generate_pytest_api_cov_report`.
 */
module Report {
  import opened TextOps
  import opened Models
  import opened Wrappers

  // ---------------------------------------------------------------------
  // Endpoint templates (`endpoint_to_regex`).
  // ---------------------------------------------------------------------

  /** One element of a compiled template: a literal character, or a placeholder `(.+)`. */
  datatype Piece = Lit(c: char) | Hole

  /**
   * Length of the placeholder `open [^close]+ close` at the start of `s`, or 0
   * when `s` does not start with one.
   */
  function PlaceholderLength(s: string, open: char, close: char): (n: nat)
    ensures n == 0 || (3 <= n <= |s| && s[0] == open && s[n - 1] == close)
    ensures n > 0 ==> forall i :: 1 <= i < n - 1 ==> s[i] != close
  {
    if s == [] || s[0] != open then 0
    else
      var j := IndexOf(s[1..], close);
      if 1 <= j < |s| - 1 then j + 2 else 0
  }

  /**
   * The template compiled left to right: every `<...>` or `{...}` (non-empty
   * inside) becomes a placeholder, every other character stays literal.
   */
  function Pieces(e: string): seq<Piece>
    decreases |e|
  {
    if e == [] then []
    else
      var angle := PlaceholderLength(e, '<', '>');
      var brace := PlaceholderLength(e, '{', '}');
      if angle > 0 then [Hole] + Pieces(e[angle..])
      else if brace > 0 then [Hole] + Pieces(e[brace..])
      else [Lit(e[0])] + Pieces(e[1..])
  }

  /** The characters Python's `re.escape` puts a backslash before. */
  const RegexSpecial: set<char> := {'(', ')', '[', ']', '{', '}', '?', '*', '+', '-', '|', '^', '$', '\\', '.', '&', '~', '#', ' ', '\t', '\n', '\r', '\U{B}', '\U{C}'}

  function RenderPieces(ps: seq<Piece>): string
  {
    if ps == [] then ""
    else
      (match ps[0]
       case Hole => "(.+)"
       case Lit(c) => if c in RegexSpecial then ['\\', c] else [c])
      + RenderPieces(ps[1..])
  }

  /** The text of the compiled pattern, as `endpoint_to_regex(e).pattern` shows it. */
  function RegexSource(e: string): string
  {
    "^" + RenderPieces(Pieces(e)) + "$"
  }

  /** Full-string match of a compiled template: a placeholder takes one or more characters other than a newline. */
  predicate PiecesMatch(ps: seq<Piece>, s: string)
    decreases |ps|
  {
    if ps == [] then s == []
    else match ps[0]
      case Lit(c) => s != [] && s[0] == c && PiecesMatch(ps[1..], s[1..])
      case Hole => exists k | 1 <= k <= |s| :: NoNewline(s[..k]) && PiecesMatch(ps[1..], s[k..])
  }

  predicate NoNewline(s: string)
  {
    '\n' !in s
  }

  /** Does the concrete key `called` match the endpoint template `e`? */
  predicate TemplateMatches(e: string, called: string)
  {
    PiecesMatch(Pieces(e), called)
  }

  function LitPieces(s: string): (r: seq<Piece>)
    ensures |r| == |s| && forall i :: 0 <= i < |s| ==> r[i] == Lit(s[i])
  {
    if s == [] then [] else [Lit(s[0])] + LitPieces(s[1..])
  }

  lemma {:induction false} LitPiecesMatch(t: string, s: string)
    ensures PiecesMatch(LitPieces(t), s) <==> s == t
  {
    if t != [] {
      if s != [] {
        LitPiecesMatch(t[1..], s[1..]);
        if s[0] == t[0] && s[1..] == t[1..] {
          assert s == [s[0]] + s[1..] && t == [t[0]] + t[1..];
        }
      }
    }
  }

  /** A template with no `<` and no `{` compiles to its own characters, all literal. */
  lemma {:induction false} StaticPieces(e: string)
    requires '<' !in e && '{' !in e
    ensures Pieces(e) == LitPieces(e)
  {
    if e != [] {
      assert e[1..] == e[1..] && '<' !in e[1..] && '{' !in e[1..] by {
        forall c | c in e[1..] ensures c in e { }
      }
      StaticPieces(e[1..]);
    }
  }

  /** A static template matches exactly itself: `.` and every other character are literal. */
  lemma StaticTemplateExact(e: string, s: string)
    requires '<' !in e && '{' !in e
    ensures TemplateMatches(e, s) <==> s == e
  {
    StaticPieces(e);
    LitPiecesMatch(e, s);
  }

  /** Every template matches itself literally only when it has no placeholder; a placeholder needs at least one character. */
  lemma HoleNeedsACharacter(rest: seq<Piece>, s: string)
    requires PiecesMatch([Hole] + rest, s)
    ensures |s| >= 1
  {
    var k :| 1 <= k <= |s| && NoNewline(s[..k]) && PiecesMatch(([Hole] + rest)[1..], s[k..]);
  }

  // ---------------------------------------------------------------------
  // Exclusion patterns.
  // ---------------------------------------------------------------------

  /** Full-string glob match: `*` takes any run of characters, `/` included; every other character is literal. */
  predicate GlobMatch(p: string, s: string)
    decreases |p| + |s|
  {
    if p == [] then s == []
    else if p[0] == '*' then GlobMatch(p[1..], s) || (s != [] && GlobMatch(p, s[1..]))
    else s != [] && s[0] == p[0] && GlobMatch(p[1..], s[1..])
  }

  /** Without `*` a pattern matches only itself: a `.` is a literal dot. */
  lemma {:induction false} GlobLiteral(p: string, s: string)
    requires '*' !in p
    ensures GlobMatch(p, s) <==> s == p
    decreases |p|
  {
    if p != [] {
      assert '*' !in p[1..] by { forall c | c in p[1..] ensures c in p { } }
      if s != [] {
        GlobLiteral(p[1..], s[1..]);
        if s[0] == p[0] && s[1..] == p[1..] {
          assert s == [s[0]] + s[1..] && p == [p[0]] + p[1..];
        }
      }
    }
  }

  lemma {:induction false} GlobStarTakesAll(q: string, m: string, s: string)
    requires GlobMatch(q, s)
    ensures GlobMatch("*" + q, m + s)
    decreases |m|
  {
    var p := "*" + q;
    assert p[0] == '*' && p[1..] == q;
    if m != [] {
      GlobStarTakesAll(q, m[1..], s);
      assert (m + s)[1..] == m[1..] + s;
      assert GlobMatch(p, (m + s)[1..]);
    } else {
      assert m + s == s;
    }
  }

  /** `*` spans `/`: `a*b` matches `a`, then anything at all, then `b`. */
  lemma {:induction false} GlobStarSpans(a: string, b: string, m: string)
    requires '*' !in a && '*' !in b
    ensures GlobMatch(a + "*" + b, a + m + b)
    decreases |a|
  {
    if a == [] {
      GlobLiteral(b, b);
      GlobStarTakesAll(b, m, b);
      assert a + "*" + b == "*" + b;
      assert a + m + b == m + b;
    } else {
      assert '*' !in a[1..] by { forall c | c in a[1..] ensures c in a { } }
      GlobStarSpans(a[1..], b, m);
      assert (a + "*" + b)[1..] == a[1..] + "*" + b;
      assert (a + m + b)[1..] == a[1..] + m + b;
    }
  }

  /** A pattern starting with `!` is a negation; the rest of it is the glob it rescues. */
  predicate IsNegation(p: string)
  {
    p != [] && p[0] == '!'
  }

  /** The part an exclusion pattern is also tried against: the path after the method, or the whole key. */
  function EndpointPath(e: string): string
  {
    if HasSpace(e) then PathOf(e) else e
  }

  /** A glob hits an endpoint when it matches the whole key or its path part. */
  predicate Hits(glob: string, e: string)
  {
    GlobMatch(glob, e) || GlobMatch(glob, EndpointPath(e))
  }

  predicate PositiveHit(patterns: seq<string>, e: string)
  {
    exists i | 0 <= i < |patterns| :: !IsNegation(patterns[i]) && Hits(patterns[i], e)
  }

  predicate NegationHit(patterns: seq<string>, e: string)
  {
    exists i | 0 <= i < |patterns| :: IsNegation(patterns[i]) && Hits(patterns[i][1..], e)
  }

  /** Excluded: some positive pattern hits the endpoint and no negation pattern does. */
  predicate IsExcluded(e: string, patterns: seq<string>)
  {
    PositiveHit(patterns, e) && !NegationHit(patterns, e)
  }

  /** Exclusion depends on which patterns are listed, not on their order or repetition. */
  lemma ExclusionIgnoresOrder(e: string, ps: seq<string>, qs: seq<string>)
    requires forall p :: p in ps <==> p in qs
    ensures IsExcluded(e, ps) <==> IsExcluded(e, qs)
  {
    if PositiveHit(ps, e) {
      var i :| 0 <= i < |ps| && !IsNegation(ps[i]) && Hits(ps[i], e);
      assert ps[i] in qs;
    }
    if PositiveHit(qs, e) {
      var i :| 0 <= i < |qs| && !IsNegation(qs[i]) && Hits(qs[i], e);
      assert qs[i] in ps;
    }
    if NegationHit(ps, e) {
      var i :| 0 <= i < |ps| && IsNegation(ps[i]) && Hits(ps[i][1..], e);
      assert ps[i] in qs;
    }
    if NegationHit(qs, e) {
      var i :| 0 <= i < |qs| && IsNegation(qs[i]) && Hits(qs[i][1..], e);
      assert qs[i] in ps;
    }
  }

  /** Adding a negation can only rescue; one whose glob does not hit the endpoint changes nothing. */
  lemma NegationOnlyRescues(e: string, ps: seq<string>, n: string)
    requires IsNegation(n)
    ensures IsExcluded(e, ps + [n]) ==> IsExcluded(e, ps)
    ensures !Hits(n[1..], e) ==> (IsExcluded(e, ps + [n]) <==> IsExcluded(e, ps))
  {
    var qs := ps + [n];
    assert forall i :: 0 <= i < |ps| ==> qs[i] == ps[i];
    if PositiveHit(qs, e) {
      var i :| 0 <= i < |qs| && !IsNegation(qs[i]) && Hits(qs[i], e);
      assert i < |ps|;
    }
    if NegationHit(qs, e) && !Hits(n[1..], e) {
      var i :| 0 <= i < |qs| && IsNegation(qs[i]) && Hits(qs[i][1..], e);
      assert i < |ps|;
    }
    if NegationHit(ps, e) {
      var i :| 0 <= i < |ps| && IsNegation(ps[i]) && Hits(ps[i][1..], e);
      assert qs[i] == ps[i];
    }
    if PositiveHit(ps, e) {
      var i :| 0 <= i < |ps| && !IsNegation(ps[i]) && Hits(ps[i], e);
      assert qs[i] == ps[i];
    }
  }

  /** A bare-path pattern excludes the `"METHOD /path"` key of every method on that path. */
  lemma BarePathExcludesEveryMethod(glob: string, verb: string, path: string)
    requires !IsNegation(glob) && GlobMatch(glob, path) && ' ' !in verb
    ensures IsExcluded(EndpointKey(verb, path), [glob])
  {
    KeySplits(verb, path);
    assert EndpointPath(EndpointKey(verb, path)) == path;
    assert [glob][0] == glob;
  }

  // ---------------------------------------------------------------------
  // `categorise_endpoints`.
  // ---------------------------------------------------------------------

  /** Some called key matches the endpoint's template. */
  predicate IsCovered(e: string, called: set<string>)
  {
    exists c | c in called :: TemplateMatches(e, c)
  }

  datatype Partition = Partition(covered: seq<string>, uncovered: seq<string>, excluded: seq<string>)

  /**
   * Each discovered endpoint, in order, goes to exactly one list: excluded
   * first (after negation), else covered when a called key matches its
   * template, else uncovered.
   */
  function Categorise(discovered: seq<string>, called: set<string>, patterns: seq<string>): Partition
    decreases |discovered|
  {
    if discovered == [] then Partition([], [], [])
    else
      var rest := Categorise(discovered[1..], called, patterns);
      var e := discovered[0];
      if IsExcluded(e, patterns) then rest.(excluded := [e] + rest.excluded)
      else if IsCovered(e, called) then rest.(covered := [e] + rest.covered)
      else rest.(uncovered := [e] + rest.uncovered)
  }

  /** The three lists together are the discovered list, element for element (a partition, repeats included). */
  lemma {:induction false} CategorisePartition(discovered: seq<string>, called: set<string>, patterns: seq<string>)
    ensures var r := Categorise(discovered, called, patterns);
      multiset(r.covered) + multiset(r.uncovered) + multiset(r.excluded) == multiset(discovered)
    decreases |discovered|
  {
    if discovered != [] {
      CategorisePartition(discovered[1..], called, patterns);
      assert discovered == [discovered[0]] + discovered[1..];
    }
  }

  /** Which list an endpoint lands in is decided by exclusion first, then by coverage. */
  lemma {:induction false} CategoriseMembership(discovered: seq<string>, called: set<string>, patterns: seq<string>, e: string)
    ensures var r := Categorise(discovered, called, patterns);
      && (e in r.excluded <==> e in discovered && IsExcluded(e, patterns))
      && (e in r.covered <==> e in discovered && !IsExcluded(e, patterns) && IsCovered(e, called))
      && (e in r.uncovered <==> e in discovered && !IsExcluded(e, patterns) && !IsCovered(e, called))
    decreases |discovered|
  {
    if discovered != [] {
      CategoriseMembership(discovered[1..], called, patterns, e);
      assert e in discovered <==> e == discovered[0] || e in discovered[1..];
    }
  }

  /** The lists are pairwise disjoint; in particular an excluded endpoint is never covered, even when called. */
  lemma CategoriseDisjoint(discovered: seq<string>, called: set<string>, patterns: seq<string>, e: string)
    ensures var r := Categorise(discovered, called, patterns);
      && !(e in r.covered && e in r.uncovered)
      && !(e in r.covered && e in r.excluded)
      && !(e in r.uncovered && e in r.excluded)
  {
    CategoriseMembership(discovered, called, patterns, e);
  }

  /** With no patterns nothing is excluded. */
  lemma {:induction false} NoPatternsNoExclusions(discovered: seq<string>, called: set<string>)
    ensures Categorise(discovered, called, []).excluded == []
    decreases |discovered|
  {
    if discovered != [] { NoPatternsNoExclusions(discovered[1..], called); }
  }

  // ---------------------------------------------------------------------
  // `compute_coverage`, in tenths of a percent.
  // ---------------------------------------------------------------------

  /** `n / d` rounded to the nearest whole number, an exact half going to the even neighbour. */
  function RoundHalfEven(n: nat, d: nat): (r: nat)
    requires d > 0
    ensures -(d as int) <= 2 * (r * d - n) <= d
    ensures 2 * (n % d) == d ==> r % 2 == 0
  {
    var q := n / d;
    var rem := n % d;
    DivMod(n, d);
    if 2 * rem > d || (2 * rem == d && q % 2 == 1) then
      assert (q + 1) * d - n == d - rem by { MulSucc(q, d); }
      assert 2 * rem == d ==> (q + 1) % 2 == 0 by { Parity(q); }
      q + 1
    else
      assert q * d - n == -rem;
      q
  }

  lemma DivMod(n: nat, d: nat)
    requires d > 0
    ensures (n / d) * d + n % d == n && 0 <= n % d < d
  {
  }

  lemma Parity(q: int)
    ensures q % 2 == 1 ==> (q + 1) % 2 == 0
  {
  }

  lemma MulSucc(q: int, d: int)
    ensures (q + 1) * d == q * d + d
  {
  }

  lemma MulLeft(a: int, b: int, t: int)
    requires a <= b && t >= 0
    ensures a * t <= b * t
  {
  }

  /**
   * `round(100 * covered / (covered + uncovered), 1)` as a whole number of
   * tenths (round half to even on the exact ratio), and 0 when both are 0.
   */
  function CoverageTenths(covered: nat, uncovered: nat): (r: nat)
    ensures covered + uncovered == 0 ==> r == 0
    ensures covered + uncovered > 0 ==>
      -((covered + uncovered) as int) <= 2 * (r * (covered + uncovered) - 1000 * covered) <= covered + uncovered
    ensures r <= 1000
    ensures covered == 0 ==> r == 0
    ensures covered > 0 && uncovered == 0 ==> r == 1000
    ensures covered + uncovered > 0 && 2 * (1000 * covered % (covered + uncovered)) == covered + uncovered ==> r % 2 == 0
  {
    var total := covered + uncovered;
    if total == 0 then 0
    else
      var r := RoundHalfEven(1000 * covered, total);
      assert r <= 1000 by {
        if r > 1000 { MulLeft(1001, r, total); MulLeft(covered, total, 1000); }
      }
      assert covered == 0 ==> r == 0 by {
        if covered == 0 && r > 0 { MulLeft(1, r, total); }
      }
      assert covered > 0 && uncovered == 0 ==> r == 1000 by {
        if covered > 0 && uncovered == 0 && r < 1000 { MulLeft(r, 999, total); }
      }
      r
  }

  /** The values the unit tests list: 100.0, 0.0, 50.0, 75.0 and 0.0 for nothing at all. */
  lemma CoverageTable()
    ensures CoverageTenths(10, 0) == 1000
    ensures CoverageTenths(0, 10) == 0
    ensures CoverageTenths(5, 5) == 500
    ensures CoverageTenths(3, 1) == 750
    ensures CoverageTenths(0, 0) == 0
  {
  }

  // ---------------------------------------------------------------------
  // `prepare_endpoint_detail` and the report.
  // ---------------------------------------------------------------------

  datatype Detail = Detail(endpoint: string, callers: seq<string>)

  /** The callers of every called key that matches the endpoint's template. */
  function MatchingCallers(e: string, calledData: Calls): set<string>
  {
    set k, c | k in calledData && c in calledData[k] && TemplateMatches(e, k) :: c
  }

  /** One detail per endpoint, in order, with the sorted union of the callers of every key its template matches. */
  function PrepareEndpointDetail(endpoints: seq<string>, calledData: Calls): (r: seq<Detail>)
    ensures |r| == |endpoints|
    ensures forall i :: 0 <= i < |r| ==> r[i].endpoint == endpoints[i] && StrictlySorted(r[i].callers)
    ensures forall i, x :: 0 <= i < |r| ==>
      (x in r[i].callers <==> exists k :: k in calledData && TemplateMatches(endpoints[i], k) && x in calledData[k])
  {
    seq(|endpoints|, i requires 0 <= i < |endpoints| => Detail(endpoints[i], SortedElements(MatchingCallers(endpoints[i], calledData))))
  }

  /** The options that decide the status and the report file (the display flags only affect console output). */
  datatype ReportConfig = ReportConfig(failUnder: Option<real>, exclusionPatterns: seq<string>, reportPath: Option<string>)

  /** The endpoints the details are for, in order. */
  function DetailEndpoints(d: seq<Detail>): seq<string>
  {
    seq(|d|, i requires 0 <= i < |d| => d[i].endpoint)
  }

  /** The JSON report: the coverage and one detail per endpoint. */
  datatype ReportFile = ReportFile(coverageTenths: nat, detail: seq<Detail>)

  datatype ReportOutcome = ReportOutcome(status: int, file: Option<ReportFile>)

  /** Fails exactly when a threshold is set and the coverage is below it. */
  function Status(coverageTenths: nat, failUnder: Option<real>): int
  {
    if failUnder.Some? && (coverageTenths as real) / 10.0 < failUnder.value then 1 else 0
  }

  /** `generate_pytest_api_cov_report(config, called_data, discovered_endpoints)`. */
  function GenerateReport(config: ReportConfig, calledData: Calls, discovered: seq<string>): (r: ReportOutcome)
    ensures r.status == 0 || r.status == 1
    ensures discovered == [] ==> r.status == 0 && r.file == None
    ensures r.file.Some? <==> discovered != [] && config.reportPath.Some?
    ensures r.file.Some? ==> |r.file.value.detail| == |discovered|
    ensures r.file.Some? ==> multiset(DetailEndpoints(r.file.value.detail)) == multiset(discovered)
  {
    if discovered == [] then ReportOutcome(0, None)
    else
      var p := Categorise(discovered, calledData.Keys, config.exclusionPatterns);
      CategorisePartition(discovered, calledData.Keys, config.exclusionPatterns);
      var cov := CoverageTenths(|p.covered|, |p.uncovered|);
      var file :=
        if config.reportPath.Some? then Some(ReportFile(cov, PrepareEndpointDetail(p.covered + p.uncovered + p.excluded, calledData)))
        else None;
      assert |p.covered + p.uncovered + p.excluded| == |multiset(discovered)|;
      assert file.Some? ==> DetailEndpoints(file.value.detail) == p.covered + p.uncovered + p.excluded;
      ReportOutcome(Status(cov, config.failUnder), file)
  }

  /** The coverage of a run: covered over covered plus uncovered; excluded endpoints count toward neither. */
  function RunCoverage(config: ReportConfig, calledData: Calls, discovered: seq<string>): nat
  {
    var p := Categorise(discovered, calledData.Keys, config.exclusionPatterns);
    CoverageTenths(|p.covered|, |p.uncovered|)
  }

  /** The status is 1 exactly when endpoints were discovered, a threshold is set and the coverage is below it. */
  lemma StatusSpec(config: ReportConfig, calledData: Calls, discovered: seq<string>)
    ensures GenerateReport(config, calledData, discovered).status == 1 <==>
      discovered != [] && config.failUnder.Some? &&
      (RunCoverage(config, calledData, discovered) as real) / 10.0 < config.failUnder.value
    ensures GenerateReport(config, calledData, discovered).file.Some? ==>
      GenerateReport(config, calledData, discovered).file.value.coverageTenths == RunCoverage(config, calledData, discovered)
  {
  }

  /**
   * The report file's detail: covered, then uncovered, then excluded
   * endpoints, each with the sorted callers of every called key its
   * template matches.
   */
  lemma ReportDetailSpec(config: ReportConfig, calledData: Calls, discovered: seq<string>)
    ensures var r := GenerateReport(config, calledData, discovered);
      var p := Categorise(discovered, calledData.Keys, config.exclusionPatterns);
      r.file.Some? ==>
        var d := r.file.value.detail;
        && DetailEndpoints(d) == p.covered + p.uncovered + p.excluded
        && (forall i :: 0 <= i < |d| ==> StrictlySorted(d[i].callers))
        && (forall i, x :: 0 <= i < |d| ==>
              (x in d[i].callers <==> exists k :: k in calledData && TemplateMatches(d[i].endpoint, k) && x in calledData[k]))
  {
  }

  // ---------------------------------------------------------------------
  // The scenarios the unit tests pin.
  // ---------------------------------------------------------------------

  /** Literal text with no `<` and no `{` in front of a template compiles to literal pieces in front. */
  lemma {:induction false} PiecesStaticPrefix(a: string, b: string)
    requires '<' !in a && '{' !in a
    ensures Pieces(a + b) == LitPieces(a) + Pieces(b)
    decreases |a|
  {
    if a != [] {
      assert '<' !in a[1..] && '{' !in a[1..] by { forall c | c in a[1..] ensures c in a { } }
      PiecesStaticPrefix(a[1..], b);
      var e := a + b;
      assert e[0] == a[0] && e[1..] == a[1..] + b;
      assert PlaceholderLength(e, '<', '>') == 0 && PlaceholderLength(e, '{', '}') == 0;
      assert Pieces(e) == [Lit(a[0])] + Pieces(a[1..] + b);
      assert LitPieces(a) == [Lit(a[0])] + LitPieces(a[1..]);
    } else {
      assert a + b == b;
    }
  }

  /** A `<name>` or `{name}` placeholder compiles to one hole. */
  lemma PiecesPlaceholder(open: char, name: string, close: char, b: string)
    requires (open == '<' && close == '>') || (open == '{' && close == '}')
    requires name != [] && close !in name
    ensures Pieces([open] + name + [close] + b) == [Hole] + Pieces(b)
  {
    var e := [open] + name + [close] + b;
    assert e[1..] == name + [close] + b;
    IndexOfAfter(name, close, b);
    assert e[|name| + 2..] == b;
    assert PlaceholderLength(e, '<', '>') == (if open == '<' then |name| + 2 else 0);
  }

  lemma {:induction false} RenderConcat(x: seq<Piece>, y: seq<Piece>)
    ensures RenderPieces(x + y) == RenderPieces(x) + RenderPieces(y)
    decreases |x|
  {
    if x != [] {
      RenderConcat(x[1..], y);
      assert (x + y)[1..] == x[1..] + y;
    } else {
      assert x + y == y;
    }
  }

  /** Text with no regex-special character renders as itself. */
  lemma {:induction false} RenderPlain(a: string)
    requires forall c :: c in a ==> c !in RegexSpecial
    ensures RenderPieces(LitPieces(a)) == a
    decreases |a|
  {
    if a != [] {
      assert forall c :: c in a[1..] ==> c !in RegexSpecial by { forall c | c in a[1..] ensures c in a { } }
      RenderPlain(a[1..]);
      var ps := LitPieces(a);
      assert ps[0] == Lit(a[0]) && ps[1..] == LitPieces(a[1..]);
      assert a[0] in a && a[0] !in RegexSpecial;
      assert RenderPieces(ps) == [a[0]] + RenderPieces(ps[1..]);
      assert a == [a[0]] + a[1..];
    }
  }

  predicate PlainText(a: string)
  {
    forall c :: c in a ==> c !in RegexSpecial && c != '<'
  }

  lemma PlainTextFacts(a: string)
    requires PlainText(a)
    ensures '<' !in a && '{' !in a
    ensures forall c :: c in a ==> c !in RegexSpecial
  {
  }

  /** Plain text compiles to literal pieces that render as the text itself. */
  lemma PlainRendersAsItself(a: string)
    requires PlainText(a)
    ensures Pieces(a) == LitPieces(a)
    ensures RenderPieces(Pieces(a)) == a
  {
    PlainTextFacts(a);
    StaticPieces(a);
    RenderPlain(a);
  }

  /** A template with no placeholder and no regex-special character compiles to itself, anchored. */
  lemma RegexSourceStatic(e: string)
    requires PlainText(e)
    ensures RegexSource(e) == "^" + e + "$"
  {
    PlainRendersAsItself(e);
  }

  lemma PlaceholderTemplatePieces(a: string, open: char, name: string, close: char, b: string)
    requires (open == '<' && close == '>') || (open == '{' && close == '}')
    requires PlainText(a) && PlainText(b) && name != [] && close !in name
    ensures Pieces(a + [open] + name + [close] + b) == LitPieces(a) + [Hole] + LitPieces(b)
  {
    var tail := [open] + name + [close] + b;
    assert a + [open] + name + [close] + b == a + tail by {
      ConcatAssoc5(a, [open], name, [close], b);
    }
    PlainTextFacts(a);
    PiecesStaticPrefix(a, tail);
    PiecesPlaceholder(open, name, close, b);
    PlainRendersAsItself(b);
    assert Pieces(tail) == [Hole] + LitPieces(b);
    assert LitPieces(a) + ([Hole] + LitPieces(b)) == LitPieces(a) + [Hole] + LitPieces(b);
  }

  lemma ConcatAssoc5(a: string, x: string, y: string, z: string, w: string)
    ensures a + x + y + z + w == a + (x + y + z + w)
  {
  }

  lemma RenderAroundHole(a: string, b: string)
    requires PlainText(a) && PlainText(b)
    ensures RenderPieces(LitPieces(a) + [Hole] + LitPieces(b)) == a + "(.+)" + b
  {
    PlainTextFacts(a);
    PlainTextFacts(b);
    RenderConcat(LitPieces(a) + [Hole], LitPieces(b));
    RenderConcat(LitPieces(a), [Hole]);
    RenderPlain(a);
    RenderPlain(b);
    assert RenderPieces([Hole]) == "(.+)";
  }

  /** A `<name>` or `{name}` placeholder between plain text becomes `(.+)`; the text around it stays literal. */
  lemma RegexSourcePlaceholder(a: string, open: char, name: string, close: char, b: string)
    requires (open == '<' && close == '>') || (open == '{' && close == '}')
    requires PlainText(a) && PlainText(b) && name != [] && close !in name
    ensures RegexSource(a + [open] + name + [close] + b) == "^" + a + "(.+)" + b + "$"
  {
    PlaceholderTemplatePieces(a, open, name, close, b);
    RenderAroundHole(a, b);
  }

  /** Matching composes: pieces that match two texts, put one after the other, match the two texts joined. */
  lemma {:induction false} PiecesMatchConcat(p: seq<Piece>, q: seq<Piece>, s: string, t: string)
    requires PiecesMatch(p, s) && PiecesMatch(q, t)
    ensures PiecesMatch(p + q, s + t)
    decreases |p|
  {
    if p == [] {
      assert p + q == q && s + t == t;
    } else {
      assert (p + q)[1..] == p[1..] + q;
      match p[0]
      case Lit(c) =>
        PiecesMatchConcat(p[1..], q, s[1..], t);
        assert (s + t)[1..] == s[1..] + t;
      case Hole =>
        var k :| 1 <= k <= |s| && NoNewline(s[..k]) && PiecesMatch(p[1..], s[k..]);
        PiecesMatchConcat(p[1..], q, s[k..], t);
        assert (s + t)[..k] == s[..k] && (s + t)[k..] == s[k..] + t;
    }
  }

  /**
   * Literal text, one placeholder and any further template match the same
   * text, any value in the placeholder's place, then any key the further
   * template matches. Applied once per placeholder, this covers templates
   * with several placeholders.
   */
  lemma PlaceholderSegmentMatches(a: string, open: char, name: string, close: char, rest: string, v: string, s: string)
    requires (open == '<' && close == '>') || (open == '{' && close == '}')
    requires '<' !in a && '{' !in a && name != [] && close !in name
    requires v != [] && NoNewline(v) && TemplateMatches(rest, s)
    ensures TemplateMatches(a + [open] + name + [close] + rest, a + v + s)
  {
    var tail := [open] + name + [close] + rest;
    assert a + [open] + name + [close] + rest == a + tail by {
      ConcatAssoc5(a, [open], name, [close], rest);
    }
    PiecesStaticPrefix(a, tail);
    PiecesPlaceholder(open, name, close, rest);
    LitPiecesMatch(a, a);
    assert PiecesMatch([Hole], v) by {
      assert v[..|v|] == v && v[|v|..] == [] && [Hole][1..] == [];
    }
    PiecesMatchConcat([Hole], Pieces(rest), v, s);
    PiecesMatchConcat(LitPieces(a), [Hole] + Pieces(rest), a, v + s);
    assert LitPieces(a) + ([Hole] + Pieces(rest)) == Pieces(a + tail);
    assert a + v + s == a + (v + s);
  }

  /**
   * Two placeholders, as in `/users/<id>/posts/<pid>`: the template matches
   * every call that keeps its literal text and puts a value in each place.
   */
  lemma TwoPlaceholdersMatch(a: string, n1: string, b: string, n2: string, v1: string, v2: string)
    requires '<' !in a && '{' !in a && '<' !in b && '{' !in b
    requires n1 != [] && '>' !in n1 && n2 != [] && '>' !in n2
    requires v1 != [] && NoNewline(v1) && v2 != [] && NoNewline(v2)
    ensures TemplateMatches(a + "<" + n1 + ">" + b + "<" + n2 + ">", a + v1 + b + v2)
  {
    var empty: string := [];
    assert TemplateMatches(empty, empty);
    PlaceholderSegmentMatches(b, '<', n2, '>', empty, v2, empty);
    var second := b + "<" + n2 + ">";
    assert b + ['<'] + n2 + ['>'] + empty == second;
    assert b + v2 + empty == b + v2;
    PlaceholderSegmentMatches(a, '<', n1, '>', second, v1, b + v2);
    assert a + ['<'] + n1 + ['>'] + second == a + "<" + n1 + ">" + b + "<" + n2 + ">";
    assert a + v1 + (b + v2) == a + v1 + b + v2;
  }

  lemma {:induction false} LitPrefixMatch(a: string, rest: seq<Piece>, s: string)
    requires PiecesMatch(rest, s)
    ensures PiecesMatch(LitPieces(a) + rest, a + s)
    decreases |a|
  {
    if a == [] {
      assert LitPieces(a) + rest == rest && a + s == s;
    } else {
      LitPrefixMatch(a[1..], rest, s);
      assert (LitPieces(a) + rest)[1..] == LitPieces(a[1..]) + rest;
      assert (a + s)[1..] == a[1..] + s;
    }
  }

  lemma HoleThenText(b: string, v: string)
    requires v != [] && NoNewline(v)
    ensures PiecesMatch([Hole] + LitPieces(b), v + b)
  {
    LitPiecesMatch(b, b);
    var rest := [Hole] + LitPieces(b);
    assert (v + b)[..|v|] == v && (v + b)[|v|..] == b && rest[1..] == LitPieces(b);
  }

  /** A placeholder template matches every concrete value in the placeholder's place (one or more characters, no newline). */
  lemma PlaceholderMatchesValue(a: string, open: char, name: string, close: char, b: string, v: string)
    requires (open == '<' && close == '>') || (open == '{' && close == '}')
    requires PlainText(a) && PlainText(b) && name != [] && close !in name
    requires v != [] && NoNewline(v)
    ensures TemplateMatches(a + [open] + name + [close] + b, a + v + b)
  {
    var rest := [Hole] + LitPieces(b);
    var ps := LitPieces(a) + rest;
    assert Pieces(a + [open] + name + [close] + b) == ps by {
      PlaceholderTemplatePieces(a, open, name, close, b);
      assert LitPieces(a) + [Hole] + LitPieces(b) == ps;
    }
    assert PiecesMatch(ps, a + (v + b)) by {
      HoleThenText(b, v);
      LitPrefixMatch(a, rest, v + b);
    }
    assert a + v + b == a + (v + b);
  }

  /**
   * A star pattern over a prefix excludes every path under it, and a negation
   * naming one of those paths rescues that one path only.
   */
  lemma NegationRescuesOnePath(base: string, x: string, y: string)
    requires '*' !in base && ' ' !in base && (base == [] || base[0] != '!')
    requires '*' !in y && ' ' !in x && ' ' !in y && x != y
    ensures IsExcluded(base + x, [base + "*", "!" + base + y])
    ensures !IsExcluded(base + y, [base + "*", "!" + base + y])
  {
    var ps := [base + "*", "!" + base + y];
    assert ps[1][1..] == base + y;
    assert !IsNegation(ps[0]) by { if base == [] { assert ps[0] == "*"; } else { assert ps[0][0] == base[0]; } }
    assert IsNegation(ps[1]);
    assert ' ' !in base + x && ' ' !in base + y;
    assert EndpointPath(base + x) == base + x && EndpointPath(base + y) == base + y;
    assert '*' !in base + y;
    GlobStarSpans(base, "", x);
    GlobStarSpans(base, "", y);
    assert base + "*" + "" == ps[0] && base + x + "" == base + x && base + y + "" == base + y;
    assert base + x != base + y by { assert (base + x)[|base|..] == x && (base + y)[|base|..] == y; }
    GlobLiteral(base + y, base + x);
    GlobLiteral(base + y, base + y);
    assert Hits(ps[0], base + x) && Hits(ps[0], base + y) && Hits(ps[1][1..], base + y);
    assert !Hits(ps[1][1..], base + x);
  }
}
