/**
 * The search keywords of `MyCareersFutureSpider.__init__`: the stripped
 * lines of the keyword file that are neither empty nor comments, plus the
 * stripped `q` argument, with "quant" when nothing else is given; the
 * spider keeps them in `sorted` order.
 */
module Keywords {
  import opened Wrappers
  import opened Text
  import opened Jobs

  /** A stripped line the loop keeps: not empty and not a `#` comment. */
  predicate Kept(s: string) {
    s != "" && !StartsWith(s, "#")
  }

  /** The keywords the keyword file contributes. */
  function FileKeywords(lines: seq<string>): set<string> {
    set l | l in lines && Kept(Strip(l)) :: Strip(l)
  }

  /** Reading one more line adds its stripped text when the loop keeps it. */
  lemma FileKeywordsStep(lines: seq<string>, i: nat)
    requires i < |lines|
    ensures FileKeywords(lines[..i + 1])
         == FileKeywords(lines[..i]) + (if Kept(Strip(lines[i])) then {Strip(lines[i])} else {})
  {
    assert lines[..i + 1] == lines[..i] + [lines[i]];
  }

  /** The whole keyword set: file keywords, the stripped `q` when `q` is
      given and non-empty, and {"quant"} when that leaves nothing. */
  function KeywordSet(lines: seq<string>, q: Option<string>): set<string> {
    var kws := FileKeywords(lines) + (if q.Some? && q.value != "" then {Strip(q.value)} else {});
    if kws == {} then {"quant"} else kws
  }

  /** A `q` made only of whitespace is truthy, so its stripped form, the
      empty string, becomes a keyword; "quant" is used only when neither the
      file nor `q` gives anything. */
  lemma BlankQueryIsKeyword(lines: seq<string>, q: string)
    requires q != "" && forall i :: 0 <= i < |q| ==> q[i] in Whitespace
    ensures "" in KeywordSet(lines, Some(q))
    ensures "quant" in KeywordSet(lines, Some(q)) <==> "quant" in FileKeywords(lines)
  {
    assert Strip(q) == "";
  }

  /** Python's `<` on strings: lexicographic order of code points. */
  predicate Below(a: string, b: string) {
    if a == [] then b != []
    else if b == [] then false
    else if a[0] != b[0] then a[0] < b[0]
    else Below(a[1..], b[1..])
  }

  lemma {:induction false} BelowIrreflexive(a: string)
    ensures !Below(a, a)
  {
    if a != [] { BelowIrreflexive(a[1..]); }
  }

  lemma {:induction false} BelowTransitive(a: string, b: string, c: string)
    requires Below(a, b) && Below(b, c)
    ensures Below(a, c)
  {
    if a != [] && b != [] && c != [] && a[0] == b[0] && b[0] == c[0] {
      BelowTransitive(a[1..], b[1..], c[1..]);
    }
  }

  lemma {:induction false} BelowTotal(a: string, b: string)
    requires a != b
    ensures Below(a, b) || Below(b, a)
  {
    if a != [] && b != [] && a[0] == b[0] {
      assert a == [a[0]] + a[1..] && b == [b[0]] + b[1..];
      BelowTotal(a[1..], b[1..]);
    }
  }

  lemma {:induction false} BelowAsymmetric(a: string, b: string)
    requires Below(a, b)
    ensures !Below(b, a)
  {
    if a != [] && b != [] && a[0] == b[0] {
      BelowAsymmetric(a[1..], b[1..]);
    }
  }

  /** Ascending without repetitions, as `sorted` returns a set's elements. */
  predicate Ascending(s: seq<string>) {
    forall i, j :: 0 <= i < j < |s| ==> Below(s[i], s[j])
  }

  function Elements(s: seq<string>): set<string> {
    set x | x in s
  }

  /** The ascending list of a set is unique: `sorted(kws)` is the only list
      that is ascending and holds exactly the elements of `kws`. */
  lemma {:induction false} AscendingUnique(a: seq<string>, b: seq<string>)
    requires Ascending(a) && Ascending(b)
    requires Elements(a) == Elements(b)
    ensures a == b
  {
    assert b == [] || b[0] in Elements(b);
    if a != [] {
      assert a[0] in Elements(b);
      assert b != [];
      assert b[0] in Elements(a);
      if a[0] != b[0] {
        var i :| 0 <= i < |b| && b[i] == a[0];
        var j :| 0 <= j < |a| && a[j] == b[0];
        assert Below(b[0], a[0]) by { assert i > 0; }
        assert Below(a[0], b[0]) by { assert j > 0; }
        BelowAsymmetric(a[0], b[0]);
      }
      forall x | x in Elements(a[1..]) ensures x in Elements(b[1..]) {
        var i :| 1 <= i < |a| && a[i] == x;
        assert x in Elements(a);
        var k :| 0 <= k < |b| && b[k] == x;
        if k == 0 { BelowIrreflexive(x); }
        assert b[1..][k - 1] == x;
      }
      forall x | x in Elements(b[1..]) ensures x in Elements(a[1..]) {
        var i :| 1 <= i < |b| && b[i] == x;
        assert x in Elements(b);
        var k :| 0 <= k < |a| && a[k] == x;
        if k == 0 { BelowIrreflexive(x); }
        assert a[1..][k - 1] == x;
      }
      AscendingUnique(a[1..], b[1..]);
      assert a == [a[0]] + a[1..] && b == [b[0]] + b[1..];
    }
  }

  /** The least element of a non-empty set of strings. */
  method Least(s: set<string>) returns (m: string)
    requires s != {}
    ensures m in s
    ensures forall x :: x in s && x != m ==> Below(m, x)
  {
    m :| m in s;
    var rest := s - {m};
    while rest != {}
      invariant m in s && m !in rest && rest <= s
      invariant forall x :: x in s && x !in rest && x != m ==> Below(m, x)
      decreases rest
    {
      var x :| x in rest;
      BelowTotal(x, m);
      if Below(x, m) {
        forall y | y in s && y !in rest && y != x ensures Below(x, y) {
          if y != m { BelowTransitive(x, m, y); }
        }
        m := x;
      }
      rest := rest - {x};
    }
  }

  /** `sorted(kws)`: the elements of `kws` in ascending order. */
  method SortedList(kws: set<string>) returns (out: seq<string>)
    ensures Ascending(out)
    ensures Elements(out) == kws
  {
    out := [];
    var rest := kws;
    while rest != {}
      invariant Elements(out) + rest == kws
      invariant Elements(out) !! rest
      invariant Ascending(out)
      invariant forall x, i :: x in rest && 0 <= i < |out| ==> Below(out[i], x)
      decreases rest
    {
      var m := Least(rest);
      out := out + [m];
      rest := rest - {m};
    }
  }

  /**
   * The keyword list of `__init__`: the keyword file's lines are read one at
   * a time into a set, then `q` and the default are added, then the set is
   * sorted.
   */
  method BuildQueries(lines: seq<string>, q: Option<string>) returns (queries: seq<string>)
    ensures Ascending(queries)
    ensures Elements(queries) == KeywordSet(lines, q)
    ensures queries != []
  {
    var kws: set<string> := {};
    for i := 0 to |lines|
      invariant kws == FileKeywords(lines[..i])
    {
      FileKeywordsStep(lines, i);
      var s := Strip(lines[i]);
      if !Kept(s) {
        continue;
      }
      kws := kws + {s};
    }
    assert lines[..|lines|] == lines;
    if q.Some? && q.value != "" {
      kws := kws + {Strip(q.value)};
    }
    if kws == {} {
      kws := kws + {"quant"};
    }
    queries := SortedList(kws);
    assert queries != [] by { assert queries == [] ==> Elements(queries) == {}; }
  }

  /** `str(use_api_only).lower() in ("1", "true", "yes", "y")`. */
  predicate ApiFlag(flag: string) {
    Lower(flag) in {"1", "true", "yes", "y"}
  }

  /**
   * The spider's state after `__init__`, for arguments already converted to
   * integers; `now` is the clock reading `__init__` takes.
   */
  method NewSpider(lines: seq<string>, q: Option<string>, withinDays: int, maxPages: int,
                   useApiOnly: string, perPage: int, now: int) returns (sp: Spider)
    ensures Ascending(sp.queries) && Elements(sp.queries) == KeywordSet(lines, q)
    ensures sp.useApiOnly <==> Lower(useApiOnly) in {"1", "true", "yes", "y"}
    ensures sp.withinDays == withinDays && sp.maxPages == maxPages
    ensures sp.perPage == perPage && sp.now == now
  {
    var queries := BuildQueries(lines, q);
    sp := Spider(queries, withinDays, maxPages, ApiFlag(useApiOnly), perPage, now);
  }
}
