/**
 * String operations the rest of the model relies on: the ASCII part of
 * Python's `str.upper`, code-point ordering of strings (Python's `<` on
 * `str`), `sorted` on lists of strings, and the handful of `str` methods
 * (`split`, `strip`, `replace`, `in`) the source calls.
 */
module TextOps {

  /** `str.upper` on one character, for the ASCII letters HTTP method names use. */
  function UpperChar(c: char): char
  {
    if 'a' <= c <= 'z' then (c as int - 32) as char else c
  }

  /** `str.upper`, character by character. */
  function Upper(s: string): (r: string)
    ensures |r| == |s|
    ensures forall i :: 0 <= i < |s| ==> r[i] == UpperChar(s[i])
  {
    seq(|s|, i requires 0 <= i < |s| => UpperChar(s[i]))
  }

  lemma UpperIdempotent(s: string)
    ensures Upper(Upper(s)) == Upper(s)
  {
    assert forall i :: 0 <= i < |s| ==> UpperChar(UpperChar(s[i])) == UpperChar(s[i]);
  }

  /** `str.lower` on one character (ASCII). */
  function LowerChar(c: char): char
  {
    if 'A' <= c <= 'Z' then (c as int + 32) as char else c
  }

  /** `str.lower`, character by character. */
  function Lower(s: string): (r: string)
    ensures |r| == |s|
    ensures forall i :: 0 <= i < |s| ==> r[i] == LowerChar(s[i])
  {
    seq(|s|, i requires 0 <= i < |s| => LowerChar(s[i]))
  }

  // ---------------------------------------------------------------------
  // Ordering of strings by code point, the order `sorted` uses.
  // ---------------------------------------------------------------------

  /** `a <= b` on Python strings: lexicographic by code point, a prefix first. */
  predicate Below(a: string, b: string)
  {
    |a| == 0 || (|b| > 0 && (a[0] < b[0] || (a[0] == b[0] && Below(a[1..], b[1..]))))
  }

  lemma {:induction false} BelowRefl(a: string)
    ensures Below(a, a)
  {
    if |a| > 0 { BelowRefl(a[1..]); }
  }

  lemma {:induction false} BelowTotal(a: string, b: string)
    ensures Below(a, b) || Below(b, a)
  {
    if |a| > 0 && |b| > 0 && a[0] == b[0] { BelowTotal(a[1..], b[1..]); }
  }

  lemma {:induction false} BelowTrans(a: string, b: string, c: string)
    requires Below(a, b) && Below(b, c)
    ensures Below(a, c)
  {
    if |a| > 0 && a[0] == b[0] && b[0] == c[0] { BelowTrans(a[1..], b[1..], c[1..]); }
  }

  lemma {:induction false} BelowAntisym(a: string, b: string)
    requires Below(a, b) && Below(b, a)
    ensures a == b
  {
    if |a| > 0 {
      BelowAntisym(a[1..], b[1..]);
      assert a == [a[0]] + a[1..];
      assert b == [b[0]] + b[1..];
    }
  }

  /** Ascending order, repeats allowed: what `sorted` returns. */
  predicate Sorted(s: seq<string>)
  {
    forall i, j :: 0 <= i < j < |s| ==> Below(s[i], s[j])
  }

  /** Strictly ascending: sorted and without repeats. */
  predicate StrictlySorted(s: seq<string>)
  {
    Sorted(s) && forall i, j :: 0 <= i < j < |s| ==> s[i] != s[j]
  }

  function Insert(x: string, s: seq<string>): seq<string>
  {
    if s == [] then [x]
    else if Below(x, s[0]) then [x] + s
    else [s[0]] + Insert(x, s[1..])
  }

  /** `sorted(xs)` for a list of strings (an insertion sort). */
  function Sort(s: seq<string>): seq<string>
  {
    if s == [] then [] else Insert(s[0], Sort(s[1..]))
  }

  lemma {:induction false} InsertPermutes(x: string, s: seq<string>)
    ensures multiset(Insert(x, s)) == multiset(s) + multiset{x}
  {
    if s != [] && !Below(x, s[0]) {
      InsertPermutes(x, s[1..]);
      assert s == [s[0]] + s[1..];
    }
  }

  lemma {:induction false} InsertSorted(x: string, s: seq<string>)
    requires Sorted(s)
    ensures Sorted(Insert(x, s))
  {
    if s != [] && Below(x, s[0]) {
      forall j | 0 <= j < |s| ensures Below(x, s[j]) {
        if j > 0 { BelowTrans(x, s[0], s[j]); }
      }
      var r := [x] + s;
      forall i, j | 0 <= i < j < |r| ensures Below(r[i], r[j]) {
        if i > 0 { assert r[i] == s[i - 1] && r[j] == s[j - 1]; }
        else { assert r[j] == s[j - 1]; }
      }
    } else if s != [] {
      InsertSorted(x, s[1..]);
      InsertPermutes(x, s[1..]);
      BelowTotal(x, s[0]);
      var t := Insert(x, s[1..]);
      forall y | y in t ensures Below(s[0], y) {
        assert y in multiset(t);
        if y != x {
          assert y in multiset(s[1..]);
          var k :| 0 <= k < |s[1..]| && s[1..][k] == y;
          assert s[k + 1] == y;
        }
      }
      var r := [s[0]] + t;
      forall i, j | 0 <= i < j < |r| ensures Below(r[i], r[j]) {
        if i == 0 { assert r[j] == t[j - 1]; assert t[j - 1] in t; }
        else { assert r[i] == t[i - 1] && r[j] == t[j - 1]; }
      }
    }
  }

  /** What `sorted` promises: ascending order, and the same elements with the same multiplicities. */
  lemma {:induction false} SortCorrect(s: seq<string>)
    ensures Sorted(Sort(s))
    ensures multiset(Sort(s)) == multiset(s)
  {
    if s != [] {
      SortCorrect(s[1..]);
      InsertSorted(s[0], Sort(s[1..]));
      InsertPermutes(s[0], Sort(s[1..]));
      assert s == [s[0]] + s[1..];
    }
  }

  /** `sorted` keeps exactly the elements it is given. */
  lemma SortSameElements(s: seq<string>)
    ensures forall e :: e in Sort(s) <==> e in s
  {
    SortCorrect(s);
    forall e ensures e in Sort(s) <==> e in s {
      assert e in Sort(s) <==> e in multiset(Sort(s));
      assert e in s <==> e in multiset(s);
    }
  }

  lemma SortedHeadsAgree(a: seq<string>, b: seq<string>)
    requires a != [] && Sorted(a) && Sorted(b) && multiset(a) == multiset(b)
    ensures b != [] && a[0] == b[0]
  {
    assert a[0] in multiset(b);
    assert b[0] in multiset(a);
    var i :| 0 <= i < |b| && b[i] == a[0];
    var j :| 0 <= j < |a| && a[j] == b[0];
    assert Below(b[0], a[0]) by { if i == 0 { BelowRefl(b[0]); } }
    assert Below(a[0], b[0]) by { if j == 0 { BelowRefl(a[0]); } }
    BelowAntisym(a[0], b[0]);
  }

  lemma TailMultiset(a: seq<string>)
    requires a != []
    ensures multiset(a[1..]) == multiset(a) - multiset{a[0]}
  {
    assert a == [a[0]] + a[1..];
  }

  /** The result of `sorted` is determined by its elements: equal multisets give equal sorted lists. */
  lemma {:induction false} SortedUnique(a: seq<string>, b: seq<string>)
    requires Sorted(a) && Sorted(b) && multiset(a) == multiset(b)
    ensures a == b
  {
    if a != [] {
      SortedHeadsAgree(a, b);
      TailMultiset(a);
      TailMultiset(b);
      SortedUnique(a[1..], b[1..]);
      assert a == [a[0]] + a[1..];
      assert b == [b[0]] + b[1..];
    } else {
      assert |b| == |multiset(b)| == 0;
    }
  }

  // ---------------------------------------------------------------------
  // A set of strings as a sorted list (`sorted(some_set)`).
  // ---------------------------------------------------------------------

  lemma {:induction false} MinExists(S: set<string>)
    requires S != {}
    ensures exists m :: m in S && forall y :: y in S ==> Below(m, y)
  {
    var x :| x in S;
    if S == {x} {
      BelowRefl(x);
      assert forall y :: y in S ==> y == x;
    } else {
      MinExists(S - {x});
      var m :| m in S - {x} && forall y :: y in S - {x} ==> Below(m, y);
      BelowTotal(m, x);
      if Below(m, x) {
        assert forall y :: y in S ==> Below(m, y);
      } else {
        forall y | y in S ensures Below(x, y) {
          if y == x { BelowRefl(x); } else { BelowTrans(x, m, y); }
        }
      }
    }
  }

  lemma BelowAntisymAll()
    ensures forall a, b :: Below(a, b) && Below(b, a) ==> a == b
  {
    forall a, b | Below(a, b) && Below(b, a) ensures a == b { BelowAntisym(a, b); }
  }

  /** `sorted(S)` for a set of strings: each element once, ascending. */
  function SortedElements(S: set<string>): (r: seq<string>)
    ensures StrictlySorted(r)
    ensures |r| == |S|
    ensures forall x :: x in r <==> x in S
    decreases |S|
  {
    if S == {} then []
    else
      MinExists(S);
      BelowAntisymAll();
      var m :| m in S && forall y :: y in S ==> Below(m, y);
      var rest := SortedElements(S - {m});
      assert forall y :: y in rest ==> Below(m, y) && y != m;
      [m] + rest
  }

  // ---------------------------------------------------------------------
  // The `str` methods the source calls.
  // ---------------------------------------------------------------------

  /** Index of the first occurrence of `c` in `s`, or `|s|` when there is none. */
  function IndexOf(s: string, c: char): (k: nat)
    ensures k <= |s|
    ensures forall i :: 0 <= i < k ==> s[i] != c
    ensures k < |s| ==> s[k] == c
  {
    if s == [] then 0
    else if s[0] == c then 0
    else 1 + IndexOf(s[1..], c)
  }

  /** The first `c` after a stretch without one is found at the end of that stretch. */
  lemma {:induction false} IndexOfAfter(x: string, c: char, b: string)
    requires c !in x
    ensures IndexOf(x + [c] + b, c) == |x|
    decreases |x|
  {
    if x != [] {
      assert c !in x[1..] by { forall d | d in x[1..] ensures d in x { } }
      IndexOfAfter(x[1..], c, b);
      assert (x + [c] + b)[1..] == x[1..] + [c] + b;
    }
  }

  /** `s.split(sep)[0]`: the text before the first `sep` (all of `s` when there is none). */
  function FirstSegment(s: string, sep: char): (r: string)
    ensures sep !in r
    ensures r <= s
    ensures r == s <==> sep !in s
  {
    s[..IndexOf(s, sep)]
  }

  /** `needle in hay` for strings. */
  predicate ContainsText(hay: string, needle: string)
  {
    needle <= hay || (hay != [] && ContainsText(hay[1..], needle))
  }

  /** The text before the first `sep` of `x + [sep] + rest`, when `x` has none, is `x`. */
  lemma FirstSegmentOf(x: string, sep: char, rest: string)
    requires sep !in x
    ensures FirstSegment(x + [sep] + rest, sep) == x
  {
    IndexOfAfter(x, sep, rest);
    assert (x + [sep] + rest)[..|x|] == x;
  }

  /** Text without the needle's first character does not contain the needle. */
  lemma {:induction false} NotContainsText(hay: string, needle: string)
    requires needle != [] && needle[0] !in hay
    ensures !ContainsText(hay, needle)
  {
    if hay != [] {
      assert needle[0] !in hay[1..] by { forall c | c in hay[1..] ensures c in hay { } }
      NotContainsText(hay[1..], needle);
    }
  }

  /** `s.lstrip(cs)`: drops leading characters that are in `cs`. */
  function StripLeft(s: string, cs: set<char>): (r: string)
    ensures |r| <= |s| && r == s[|s| - |r|..]
    ensures r == [] || r[0] !in cs
    ensures forall i :: 0 <= i < |s| - |r| ==> s[i] in cs
  {
    if s != [] && s[0] in cs then StripLeft(s[1..], cs) else s
  }

  /** `s.rstrip(cs)`: drops trailing characters that are in `cs`. */
  function StripRight(s: string, cs: set<char>): (r: string)
    ensures |r| <= |s| && r == s[..|r|]
    ensures r == [] || r[|r| - 1] !in cs
    ensures forall i :: |r| <= i < |s| ==> s[i] in cs
  {
    if s != [] && s[|s| - 1] in cs then StripRight(s[..|s| - 1], cs) else s
  }

  /** `s.strip(cs)`. */
  function Strip(s: string, cs: set<char>): string
  {
    StripRight(StripLeft(s, cs), cs)
  }

  /**
   * `s.replace("//", "/")`: one left-to-right pass over non-overlapping
   * occurrences, so "///" becomes "//".
   */
  function CollapseDoubleSlash(s: string): (r: string)
    ensures |r| <= |s|
    ensures r == [] <==> s == []
    ensures s != [] ==> r[0] == s[0]
    decreases |s|
  {
    if |s| >= 2 && s[0] == '/' && s[1] == '/' then "/" + CollapseDoubleSlash(s[2..])
    else if s == [] then []
    else [s[0]] + CollapseDoubleSlash(s[1..])
  }

  /** No two consecutive slashes. */
  predicate NoDoubleSlash(s: string)
  {
    forall i :: 0 <= i < |s| - 1 ==> !(s[i] == '/' && s[i + 1] == '/')
  }

  /** A string without `//` is left as it is. */
  lemma {:induction false} CollapseKeepsPlain(s: string)
    requires NoDoubleSlash(s)
    ensures CollapseDoubleSlash(s) == s
    decreases |s|
  {
    if s != [] {
      assert NoDoubleSlash(s[1..]);
      CollapseKeepsPlain(s[1..]);
    }
  }

  /** One pass only: three slashes become two, not one. */
  lemma CollapseSinglePass(a: string)
    requires a == [] || a[0] != '/'
    ensures CollapseDoubleSlash("///" + a) == "//" + CollapseDoubleSlash(a)
  {
    var s := "///" + a;
    assert s[2..] == "/" + a;
    assert ("/" + a)[1..] == a;
  }

  /** No three consecutive slashes. */
  predicate NoTripleSlash(s: string)
  {
    forall i :: 0 <= i < |s| - 2 ==> !(s[i] == '/' && s[i + 1] == '/' && s[i + 2] == '/')
  }

  /** Without a run of three slashes the single pass leaves no `//`: a `//` survives only where `///` was. */
  lemma {:induction false} CollapseClearsDoubles(s: string)
    requires NoTripleSlash(s)
    ensures NoDoubleSlash(CollapseDoubleSlash(s))
    decreases |s|
  {
    if |s| >= 2 && s[0] == '/' && s[1] == '/' {
      assert NoTripleSlash(s[2..]);
      CollapseClearsDoubles(s[2..]);
      assert |s| > 2 ==> s[2] != '/';
    } else if s != [] {
      assert NoTripleSlash(s[1..]);
      CollapseClearsDoubles(s[1..]);
    }
  }
}
