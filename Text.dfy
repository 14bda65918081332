/**
 * The string operations the scraper relies on, as Python 3 defines them for
 * `str`: `strip()`, `strip(chars)`, `lower()`, `in`, `startswith`, `str(int)`
 * and `int(digits)`.
 */
module Text {

  /** The characters for which Python's `str.isspace()` holds; `str.strip()`
      removes them and the regular-expression class `\s` matches them. */
  const Whitespace: set<char> := {
    ' ', '\t', '\n', '\U{B}', '\U{C}', '\r', '\U{1C}', '\U{1D}', '\U{1E}', '\U{1F}',
    '\U{85}', '\U{A0}', '\U{1680}', '\U{2000}', '\U{2001}', '\U{2002}', '\U{2003}',
    '\U{2004}', '\U{2005}', '\U{2006}', '\U{2007}', '\U{2008}', '\U{2009}', '\U{200A}',
    '\U{2028}', '\U{2029}', '\U{202F}', '\U{205F}', '\U{3000}'
  }

  /** The regular-expression class `\d`, restricted to ASCII digits. */
  predicate IsDigit(c: char) {
    '0' <= c <= '9'
  }

  predicate AllDigits(s: string) {
    forall i :: 0 <= i < |s| ==> IsDigit(s[i])
  }

  /** `s.lstrip(cs)`: drops the leading characters that belong to `cs`. */
  function TrimLeft(s: string, cs: set<char>): (r: string)
    ensures |r| <= |s| && r == s[|s| - |r|..]
    ensures forall i :: 0 <= i < |s| - |r| ==> s[i] in cs
    ensures r != [] ==> r[0] !in cs
  {
    if s != [] && s[0] in cs then TrimLeft(s[1..], cs) else s
  }

  /** `s.rstrip(cs)`: drops the trailing characters that belong to `cs`. */
  function TrimRight(s: string, cs: set<char>): (r: string)
    ensures |r| <= |s| && r == s[..|r|]
    ensures forall i :: |r| <= i < |s| ==> s[i] in cs
    ensures r != [] ==> r[|r| - 1] !in cs
  {
    if s != [] && s[|s| - 1] in cs then TrimRight(s[..|s| - 1], cs) else s
  }

  /** `s.strip(cs)`. */
  function Trim(s: string, cs: set<char>): (r: string)
    ensures |r| <= |s|
    ensures r != [] ==> r[0] !in cs && r[|r| - 1] !in cs
    ensures r == [] <==> forall i :: 0 <= i < |s| ==> s[i] in cs
  {
    var l := TrimLeft(s, cs);
    assert l == [] ==> forall i :: 0 <= i < |s| ==> s[i] in cs;
    assert l != [] ==> s[|s| - |l|] !in cs;
    TrimRight(l, cs)
  }

  /** `s == s.strip()`: neither end of `s` is whitespace. */
  predicate Stripped(s: string) {
    s != [] ==> s[0] !in Whitespace && s[|s| - 1] !in Whitespace
  }

  /** `s.strip()`: removes surrounding whitespace. */
  function Strip(s: string): (r: string)
    ensures |r| <= |s|
    ensures r != [] ==> r[0] !in Whitespace && r[|r| - 1] !in Whitespace
    ensures r == [] <==> forall i :: 0 <= i < |s| ==> s[i] in Whitespace
  {
    Trim(s, Whitespace)
  }

  lemma StripIsStripped(s: string)
    ensures Stripped(Strip(s))
  {}

  /** Trimming leaves a string alone whose two ends are outside `cs`. */
  lemma TrimKeeps(s: string, cs: set<char>)
    requires s != [] ==> s[0] !in cs && s[|s| - 1] !in cs
    ensures Trim(s, cs) == s
  {
  }

  /** Trimming removes one trailing character of `cs` after a kept string. */
  lemma TrimTrailing(s: string, c: char, cs: set<char>)
    requires s != [] && s[0] !in cs && s[|s| - 1] !in cs && c in cs
    ensures Trim(s + [c], cs) == s
  {
    var t := s + [c];
    assert t[0] !in cs;
    assert TrimLeft(t, cs) == t;
    assert t[|t| - 1] in cs;
    assert t[..|t| - 1] == s;
    assert TrimRight(t, cs) == TrimRight(s, cs);
    assert TrimRight(s, cs) == s;
  }

  /** Trimming removes one leading character of `cs` before a kept string. */
  lemma TrimLeading(c: char, s: string, cs: set<char>)
    requires s != [] && s[0] !in cs && s[|s| - 1] !in cs && c in cs
    ensures Trim([c] + s, cs) == s
  {
    var t := [c] + s;
    assert t[1..] == s;
    assert TrimLeft(s, cs) == s;
    assert TrimLeft(t, cs) == s;
    assert TrimRight(s, cs) == s;
  }

  /** `c.lower()` for ASCII letters; other characters are left as they are. */
  function LowerChar(c: char): (r: char)
    ensures 'A' <= c <= 'Z' ==> 'a' <= r <= 'z'
    ensures !('A' <= c <= 'Z') ==> r == c
    ensures r != 'Z'
  {
    if 'A' <= c <= 'Z' then (c as int + 32) as char else c
  }

  /** `s.lower()` (ASCII case mapping). */
  function Lower(s: string): (r: string)
    ensures |r| == |s|
    ensures forall i :: 0 <= i < |s| ==> r[i] == LowerChar(s[i])
  {
    seq(|s|, i requires 0 <= i < |s| => LowerChar(s[i]))
  }

  /** `t` occurs in `s` starting at index `i`. */
  predicate OccursAt(s: string, t: string, i: int) {
    0 <= i <= |s| - |t| && s[i..i + |t|] == t
  }

  /** `t in s` for strings. */
  predicate Contains(s: string, t: string) {
    exists i | 0 <= i <= |s| - |t| :: OccursAt(s, t, i)
  }

  /** `s.startswith(p)`. */
  predicate StartsWith(s: string, p: string) {
    |p| <= |s| && s[..|p|] == p
  }

  /** `s.replace(c, with)` for a single character `c`. */
  function Replace(s: string, c: char, with: string): (r: string)
    ensures c !in s ==> r == s
    ensures c !in with ==> c !in r
  {
    if s == [] then []
    else (if s[0] == c then with else [s[0]]) + Replace(s[1..], c, with)
  }

  function DigitChar(d: int): (c: char)
    requires 0 <= d < 10
    ensures IsDigit(c)
  {
    "0123456789"[d]
  }

  function DigitValue(c: char): (d: nat)
    requires IsDigit(c)
    ensures d < 10
  {
    c as int - '0' as int
  }

  /** `str(n)` for a non-negative integer. */
  function Natural(n: nat): (r: string)
    ensures r != [] && AllDigits(r)
  {
    if n < 10 then [DigitChar(n)] else Natural(n / 10) + [DigitChar(n % 10)]
  }

  /** `str(n)`: the decimal rendering of an integer. */
  function Decimal(n: int): (r: string)
    ensures r != []
    ensures n >= 0 ==> AllDigits(r)
    ensures n < 0 ==> r[0] == '-' && AllDigits(r[1..])
  {
    if n < 0 then "-" + Natural(-n) else Natural(n)
  }

  /** `int(s)` for a string of ASCII digits. */
  function DigitsValue(s: string): nat
    requires AllDigits(s)
  {
    if s == [] then 0 else DigitsValue(s[..|s| - 1]) * 10 + DigitValue(s[|s| - 1])
  }
}
