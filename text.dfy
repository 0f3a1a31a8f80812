/** The string operations the pages call: `toLowerCase`, `includes`, `trim`,
    and the `\D` character class of the digit-only inputs. Strings are
    sequences of Unicode scalar values. */
module Text {

  /** A member of the `[0-9]` class; `\D` matches every other character
      (the source's regular expressions carry no `u` flag). */
  predicate IsDigit(c: char) {
    '0' <= c <= '9'
  }

  predicate AllDigits(s: string) {
    forall i :: 0 <= i < |s| ==> IsDigit(s[i])
  }

  /** The characters `String.prototype.trim` removes: the WhiteSpace and
      LineTerminator productions of ECMAScript 2019 and later. */
  predicate IsWhitespace(c: char) {
    || c == '\t' || c == '\n' || c == '\U{000B}' || c == '\U{000C}' || c == '\r'
    || c == ' ' || c == '\U{00A0}' || c == '\U{1680}'
    || ('\U{2000}' <= c <= '\U{200A}')
    || c == '\U{2028}' || c == '\U{2029}' || c == '\U{202F}' || c == '\U{205F}'
    || c == '\U{3000}' || c == '\U{FEFF}'
  }

  /** `s` without its leading whitespace. */
  function TrimStart(s: string): (r: string)
    ensures |r| <= |s| && r == s[|s| - |r|..]
    ensures forall i :: 0 <= i < |s| - |r| ==> IsWhitespace(s[i])
    ensures r != [] ==> !IsWhitespace(r[0])
  {
    if s != [] && IsWhitespace(s[0]) then TrimStart(s[1..]) else s
  }

  /** `s` without its trailing whitespace. */
  function TrimEnd(s: string): (r: string)
    ensures |r| <= |s| && r == s[..|r|]
    ensures forall i :: |r| <= i < |s| ==> IsWhitespace(s[i])
    ensures r != [] ==> !IsWhitespace(r[|r| - 1])
  {
    if s != [] && IsWhitespace(s[|s| - 1]) then TrimEnd(s[..|s| - 1]) else s
  }

  /** `r` is the slice `s[a..b]`, and everything of `s` before `a` and from
      `b` on is whitespace. */
  predicate SliceBetweenBlanks(s: string, r: string, a: int, b: int) {
    && 0 <= a <= b <= |s| && r == s[a..b]
    && (forall i :: 0 <= i < a ==> IsWhitespace(s[i]))
    && (forall i :: b <= i < |s| ==> IsWhitespace(s[i]))
  }

  /** A prefix of a suffix of `s` is a slice of `s`. */
  lemma PrefixOfSuffix<T>(s: seq<T>, t: seq<T>, r: seq<T>, a: nat)
    requires a <= |s| && t == s[a..] && |r| <= |t| && r == t[..|r|]
    ensures r == s[a..a + |r|]
  {
  }

  /** What is whitespace in a suffix of `s` is whitespace in `s`. */
  lemma SuffixWhitespace(s: string, t: string, a: nat, from: nat)
    requires a <= |s| && t == s[a..]
    requires forall i :: from <= i < |t| ==> IsWhitespace(t[i])
    ensures forall i :: a + from <= i < |s| ==> IsWhitespace(s[i])
  {
    forall i | a + from <= i < |s| ensures IsWhitespace(s[i]) {
      assert s[i] == t[i - a];
    }
  }

  /** `s` stripped at the front and then at the back is the slice of `s`
      between a leading and a trailing run of whitespace. */
  lemma StrippedIsSlice(s: string, t: string, r: string)
    requires t == TrimStart(s) && r == TrimEnd(t)
    ensures exists a, b :: SliceBetweenBlanks(s, r, a, b)
  {
    var a := |s| - |t|;
    PrefixOfSuffix(s, t, r, a);
    SuffixWhitespace(s, t, a, |r|);
    assert SliceBetweenBlanks(s, r, a, a + |r|);
  }

  /** `s.trim()`: `s` without its leading and trailing whitespace. It is
      empty exactly when every character of `s` is whitespace. */
  function Trim(s: string): (r: string)
    ensures r == [] <==> forall i :: 0 <= i < |s| ==> IsWhitespace(s[i])
    ensures r != [] ==> !IsWhitespace(r[0]) && !IsWhitespace(r[|r| - 1])
    ensures exists a, b :: SliceBetweenBlanks(s, r, a, b)
  {
    var t := TrimStart(s);
    assert t != [] ==> s[|s| - |t|] == t[0];
    StrippedIsSlice(s, t, TrimEnd(t));
    TrimEnd(t)
  }

  /** `!s.trim()`. */
  predicate IsBlank(s: string) {
    Trim(s) == ""
  }

  /** `toLowerCase` on one character, for the ASCII letters. */
  function LowerChar(c: char): char {
    if 'A' <= c <= 'Z' then (c as int + 32) as char else c
  }

  /** `s.toLowerCase()` restricted to ASCII letters. */
  function Lower(s: string): (r: string)
    ensures |r| == |s|
    ensures forall i :: 0 <= i < |s| ==> r[i] == LowerChar(s[i])
  {
    seq(|s|, i requires 0 <= i < |s| => LowerChar(s[i]))
  }

  /** Lower-casing is idempotent, so a query that is already lower case is
      matched as typed. */
  lemma LowerIdempotent(s: string)
    ensures Lower(Lower(s)) == Lower(s)
  {
  }

  /** `needle` sits at offset `i` of `hay`. */
  ghost predicate OccursAt(hay: string, needle: string, i: int) {
    0 <= i && i + |needle| <= |hay| && hay[i..i + |needle|] == needle
  }

  /** Past a failed comparison at offset 0, the occurrences of `needle` in
      `hay` are those in its tail, one place further on. */
  lemma OccursInTail(hay: string, needle: string)
    requires hay != [] && !OccursAt(hay, needle, 0)
    ensures (exists i :: OccursAt(hay, needle, i)) <==> (exists i :: OccursAt(hay[1..], needle, i))
  {
    if i :| OccursAt(hay[1..], needle, i) {
      assert OccursAt(hay, needle, i + 1);
    }
    if i :| OccursAt(hay, needle, i) {
      assert OccursAt(hay[1..], needle, i - 1);
    }
  }

  /** `hay.includes(needle)`: some offset of `hay` holds `needle`. */
  function Includes(hay: string, needle: string): (b: bool)
    ensures b <==> exists i :: OccursAt(hay, needle, i)
    decreases |hay|
  {
    if |needle| <= |hay| && hay[..|needle|] == needle then
      assert OccursAt(hay, needle, 0);
      true
    else if hay == [] then
      false
    else
      OccursInTail(hay, needle);
      Includes(hay[1..], needle)
  }

  /** The empty query is part of every string, so an empty search box hides
      nothing. */
  lemma IncludesEmpty(hay: string)
    ensures Includes(hay, "")
  {
    assert OccursAt(hay, "", 0);
  }

  /** The case-insensitive match of the search boxes:
      `hay.toLowerCase().includes(query.toLowerCase())`. */
  predicate MatchesIgnoringCase(hay: string, query: string) {
    Includes(Lower(hay), Lower(query))
  }

  /** Queries that differ only in letter case find the same strings. */
  lemma MatchIgnoresQueryCase(hay: string, q1: string, q2: string)
    requires Lower(q1) == Lower(q2)
    ensures MatchesIgnoringCase(hay, q1) == MatchesIgnoringCase(hay, q2)
  {
  }

  /** An empty query matches every string. */
  lemma EmptyQueryMatches(hay: string)
    ensures MatchesIgnoringCase(hay, "")
  {
    IncludesEmpty(Lower(hay));
  }
}
