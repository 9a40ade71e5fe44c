/**
 * The few operations on Python `str` values that the modelled code uses:
 * `strip`/`lstrip`/`rstrip` with a character set, `split` on one character,
 * `join`, the `in` test for substrings, `startswith`/`endswith`, and
 * `upper`/`isupper` restricted to ASCII letters.
 */
module PyStr {

  /** The characters for which Python's `str.isspace()` holds: what `str.strip()` removes by default. */
  const Whitespace: set<char> := {
    '\t', '\n', '\U{B}', '\U{C}', '\r', '\U{1C}', '\U{1D}', '\U{1E}', '\U{1F}', ' ', '\U{85}', '\U{A0}',
    '\U{1680}', '\U{2000}', '\U{2001}', '\U{2002}', '\U{2003}', '\U{2004}', '\U{2005}', '\U{2006}',
    '\U{2007}', '\U{2008}', '\U{2009}', '\U{200A}', '\U{2028}', '\U{2029}', '\U{202F}', '\U{205F}', '\U{3000}'
  }

  /** Every character of `s` is in `cs`. */
  predicate AllIn(s: string, cs: set<char>)
  {
    forall i :: 0 <= i < |s| ==> s[i] in cs
  }

  /** `sub` occurs in `s` starting at index `i`. */
  predicate OccursAt(s: string, sub: string, i: int)
  {
    0 <= i && i + |sub| <= |s| && s[i..i + |sub|] == sub
  }

  /** Python's `sub in s` for strings. */
  predicate Contains(s: string, sub: string)
  {
    exists i | 0 <= i <= |s| - |sub| :: OccursAt(s, sub, i)
  }

  /** How many characters of `chars` lead `s`. */
  function Lead(s: string, chars: set<char>): (n: nat)
    ensures n <= |s|
    ensures n < |s| ==> s[n] !in chars
  {
    if s == [] || s[0] !in chars then 0 else 1 + Lead(s[1..], chars)
  }

  /** How many characters of `chars` end `s`. */
  function Trail(s: string, chars: set<char>): (n: nat)
    ensures n <= |s|
    ensures n < |s| ==> s[|s| - 1 - n] !in chars
  {
    if s == [] || s[|s| - 1] !in chars then 0 else 1 + Trail(s[..|s| - 1], chars)
  }

  /** `s.lstrip(chars)`. */
  function LStrip(s: string, chars: set<char>): (r: string)
  {
    s[Lead(s, chars)..]
  }

  /** `s.rstrip(chars)`. */
  function RStrip(s: string, chars: set<char>): (r: string)
  {
    s[..|s| - Trail(s, chars)]
  }

  /** `s.strip(chars)`: both ends, the same as stripping the left end and then the right. */
  function Strip(s: string, chars: set<char>): (r: string)
    ensures OccursAt(s, r, Lead(s, chars))
    ensures r != [] ==> r[0] !in chars && r[|r| - 1] !in chars
  {
    var l := LStrip(s, chars);
    var r := RStrip(l, chars);
    assert r == s[Lead(s, chars)..Lead(s, chars) + |r|];
    r
  }

  /** Python's `s.strip()` with no argument. */
  function StripSpace(s: string): string
  {
    Strip(s, Whitespace)
  }

  /** Stripping a string made only of stripped characters leaves nothing. */
  lemma {:induction false} StripAll(s: string, chars: set<char>)
    requires AllIn(s, chars)
    ensures Lead(s, chars) == |s| && Strip(s, chars) == ""
  {
    if s != [] {
      assert AllIn(s[1..], chars) by {
        forall i | 0 <= i < |s| - 1 ensures s[1..][i] in chars { assert s[1..][i] == s[i + 1]; }
      }
      StripAll(s[1..], chars);
    }
  }

  /** A string that starts and ends outside `chars` is its own strip. */
  lemma StripUntouched(s: string, chars: set<char>)
    requires s != [] && s[0] !in chars && s[|s| - 1] !in chars
    ensures Lead(s, chars) == 0 && Trail(s, chars) == 0 && Strip(s, chars) == s
  {
    assert LStrip(s, chars) == s;
  }

  /** One character of `chars` at each end of such a string is all that stripping removes. */
  lemma StripWrapped(c: char, m: string, d: char, chars: set<char>)
    requires c in chars && d in chars && m != [] && m[0] !in chars && m[|m| - 1] !in chars
    ensures Strip([c] + m + [d], chars) == m
  {
    var s := [c] + m + [d];
    var t := m + [d];
    assert s[0] == c && s[1..] == t && t[0] == m[0];
    assert Lead(t, chars) == 0;
    assert LStrip(s, chars) == t;
    assert t[|t| - 1] == d && t[..|t| - 1] == m;
    StripUntouched(m, chars);
    assert Trail(t, chars) == 1;
  }

  /** A leading character of `chars` adds one to the count `lstrip` removes. */
  lemma LeadCons(c: char, t: string, chars: set<char>)
    requires c in chars
    ensures Lead([c] + t, chars) == 1 + Lead(t, chars)
  {
    assert ([c] + t)[1..] == t;
  }

  /** No character of `chars` leads a string that starts with another one. */
  lemma LeadStops(t: string, chars: set<char>)
    requires t != [] && t[0] !in chars
    ensures Lead(t, chars) == 0
  {
  }

  /** A piece of a piece of `s` is a piece of `s`. */
  lemma OccursAtTrans(a: string, b: string, c: string, i: int, j: int)
    requires OccursAt(a, b, i) && OccursAt(b, c, j)
    ensures OccursAt(a, c, i + j)
  {
    forall x | 0 <= x < |c| ensures a[i + j..i + j + |c|][x] == c[x] {
      assert c[x] == b[j + x] == a[i + j + x];
    }
  }

  /** `strip` leaves a piece of its argument. */
  lemma StripContained(s: string, chars: set<char>)
    ensures Contains(s, Strip(s, chars))
  {
    assert OccursAt(s, Strip(s, chars), Lead(s, chars));
  }

  /** A piece of a piece is a piece. */
  lemma ContainsTrans(a: string, b: string, c: string)
    requires Contains(a, b) && Contains(b, c)
    ensures Contains(a, c)
  {
    var i :| 0 <= i <= |a| - |b| && OccursAt(a, b, i);
    var j :| 0 <= j <= |b| - |c| && OccursAt(b, c, j);
    OccursAtTrans(a, b, c, i, j);
  }

  /** The number of occurrences of `c` in `s`. */
  function Count(s: string, c: char): nat
  {
    if s == [] then 0 else (if s[0] == c then 1 else 0) + Count(s[1..], c)
  }

  /** `s.split(sep)` for a one-character separator: one piece more than there are separators. */
  function Split(s: string, sep: char): (r: seq<string>)
    ensures |r| == Count(s, sep) + 1
    ensures forall i :: 0 <= i < |r| ==> sep !in r[i]
  {
    if s == [] then [""]
    else
      var rest := Split(s[1..], sep);
      if s[0] == sep then [""] + rest
      else [[s[0]] + rest[0]] + rest[1..]
  }

  /** `sep.join(parts)`. */
  function Join(parts: seq<string>, sep: string): string
  {
    if parts == [] then ""
    else if |parts| == 1 then parts[0]
    else parts[0] + sep + Join(parts[1..], sep)
  }

  /** Joining the pieces of a split with the separator gives the string back. */
  lemma {:induction false} JoinSplit(s: string, sep: char)
    ensures Join(Split(s, sep), [sep]) == s
  {
    if s != [] {
      JoinSplit(s[1..], sep);
      var rest := Split(s[1..], sep);
      if s[0] != sep && |rest| > 1 {
        assert ([[s[0]] + rest[0]] + rest[1..])[1..] == rest[1..];
      }
    }
  }

  predicate StartsWith(s: string, prefix: string)
  {
    |prefix| <= |s| && s[..|prefix|] == prefix
  }

  predicate EndsWith(s: string, suffix: string)
  {
    |suffix| <= |s| && s[|s| - |suffix|..] == suffix
  }

  predicate IsAsciiLower(c: char) { 'a' <= c <= 'z' }

  predicate IsAsciiUpper(c: char) { 'A' <= c <= 'Z' }

  /** `s.upper()` on ASCII letters; other characters are kept. */
  function Upper(s: string): (r: string)
    ensures |r| == |s|
    ensures forall i :: 0 <= i < |s| ==> !IsAsciiLower(r[i])
    ensures forall i :: 0 <= i < |s| && !IsAsciiLower(s[i]) ==> r[i] == s[i]
  {
    if s == [] then []
    else [if IsAsciiLower(s[0]) then (s[0] as int - 32) as char else s[0]] + Upper(s[1..])
  }

  /** `s.isupper()` with ASCII letters as the only cased characters: some letter, and no lower-case one. */
  predicate IsUpper(s: string)
  {
    (exists i | 0 <= i < |s| :: IsAsciiUpper(s[i])) && forall i | 0 <= i < |s| :: !IsAsciiLower(s[i])
  }
}
