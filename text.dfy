/**
 * The string operations of Rust's standard library that the resolver relies on:
 * `starts_with`, `split_once`, ASCII `to_uppercase`, `lines`, `trim`, and
 * joining an iterator of lines with a separator (`Itertools::intersperse`).
 */
module Text {

  import opened Wrappers

  predicate StartsWith(s: string, prefix: string) {
    |prefix| <= |s| && s[..|prefix|] == prefix
  }

  /** The index of the first occurrence of `c` in `s`, or `|s|` when there is none. */
  function FirstIndex(s: string, c: char): (i: nat)
    ensures i <= |s|
    ensures forall j :: 0 <= j < i ==> s[j] != c
    ensures i < |s| ==> s[i] == c
    decreases |s|
  {
    if s == [] then 0
    else if s[0] == c then 0
    else 1 + FirstIndex(s[1..], c)
  }

  /** `str::split_once(c)`: the text before the first `c` and everything after it. */
  function SplitOnce(s: string, c: char): (r: Option<(string, string)>)
    ensures r.None? <==> c !in s
    ensures r.Some? ==> s == r.value.0 + [c] + r.value.1 && c !in r.value.0
  {
    var i := FirstIndex(s, c);
    if i == |s| then None
    else
      assert s == s[..i] + [c] + s[i + 1..];
      Some((s[..i], s[i + 1..]))
  }

  // ---------------------------------------------------------------------------
  // Case mapping (ASCII letters only)

  function UpperChar(c: char): char {
    if 'a' <= c <= 'z' then (c as int - 32) as char else c
  }

  function LowerChar(c: char): char {
    if 'A' <= c <= 'Z' then (c as int + 32) as char else c
  }

  function Upper(s: string): string {
    seq(|s|, i requires 0 <= i < |s| => UpperChar(s[i]))
  }

  function Lower(s: string): string {
    seq(|s|, i requires 0 <= i < |s| => LowerChar(s[i]))
  }

  /** Uppercasing twice is uppercasing once, so every uppercased key is a fixed point. */
  lemma UpperIdempotent(s: string)
    ensures Upper(Upper(s)) == Upper(s)
  {
    assert forall i :: 0 <= i < |s| ==> Upper(Upper(s))[i] == Upper(s)[i];
  }

  /** Lower-casing first does not change what uppercasing yields. */
  lemma UpperOfLower(s: string)
    ensures Upper(Lower(s)) == Upper(s)
  {
    assert forall i :: 0 <= i < |s| ==> Upper(Lower(s))[i] == Upper(s)[i];
  }

  // ---------------------------------------------------------------------------
  // Lines

  /** Drops one trailing carriage return (the `\r` of a `\r\n` line ending). */
  function StripCr(l: string): string {
    if |l| > 0 && l[|l| - 1] == '\r' then l[..|l| - 1] else l
  }

  /**
   * `str::lines`: pieces ending at each `\n` (the last piece need not end with one),
   * each without its `\n` and without a `\r` directly before that `\n`. An empty
   * string has no lines, and a final line ending does not start another line.
   */
  function Lines(s: string): (ls: seq<string>)
    ensures forall l <- ls :: '\n' !in l
    decreases |s|
  {
    if s == [] then []
    else
      var i := FirstIndex(s, '\n');
      if i == |s| then [s]
      else [StripCr(s[..i])] + Lines(s[i + 1..])
  }

  /** A line that `Lines` gives back unchanged: no line feed, no trailing carriage return. */
  predicate PlainLine(l: string) {
    '\n' !in l && (|l| == 0 || l[|l| - 1] != '\r')
  }

  /** Each line followed by a line feed. */
  function Unlines(ls: seq<string>): string {
    if ls == [] then "" else ls[0] + "\n" + Unlines(ls[1..])
  }

  /** A plain line followed by a line feed is split off as the first line. */
  lemma LinesCons(head: string, rest: string)
    requires PlainLine(head)
    ensures Lines(head + "\n" + rest) == [head] + Lines(rest)
  {
    var s := head + "\n" + rest;
    var n := |head|;
    assert s[n] == '\n';
    assert forall j :: 0 <= j < n ==> s[j] == head[j];
    var i := FirstIndex(s, '\n');
    assert i == n;
    assert s[..i] == head;
    assert s[i + 1..] == rest;
  }

  /** A plain line ended by `\r\n` is split off without either character. */
  lemma LinesConsCrlf(head: string, rest: string)
    requires PlainLine(head)
    ensures Lines(head + "\r\n" + rest) == [head] + Lines(rest)
  {
    var s := head + "\r\n" + rest;
    var n := |head|;
    assert s[n] == '\r' && s[n + 1] == '\n';
    assert forall j :: 0 <= j < n ==> s[j] == head[j];
    var i := FirstIndex(s, '\n');
    assert i == n + 1;
    assert s[..i] == head + "\r";
    assert StripCr(s[..i]) == head;
    assert s[i + 1..] == rest;
  }

  /** Splitting text written line by line gives back the lines. */
  lemma {:induction false} LinesUnlines(ls: seq<string>)
    requires forall l <- ls :: PlainLine(l)
    ensures Lines(Unlines(ls)) == ls
  {
    if ls != [] {
      assert Unlines(ls) == ls[0] + "\n" + Unlines(ls[1..]);
      LinesCons(ls[0], Unlines(ls[1..]));
      LinesUnlines(ls[1..]);
    }
  }

  /** `Itertools::intersperse(ls, sep)` collected into one string. */
  function Join(ls: seq<string>, sep: string): string {
    if |ls| == 0 then ""
    else if |ls| == 1 then ls[0]
    else ls[0] + sep + Join(ls[1..], sep)
  }

  /** A character found neither in the pieces nor in the separator is not in the join. */
  lemma {:induction false} JoinOmits(ls: seq<string>, sep: string, c: char)
    requires forall l <- ls :: c !in l
    requires c !in sep
    ensures c !in Join(ls, sep)
  {
    if |ls| > 1 {
      JoinOmits(ls[1..], sep, c);
      assert ls[0] in ls;
    }
  }

  // ---------------------------------------------------------------------------
  // Trimming

  /** Rust's `char::is_whitespace`: the Unicode White_Space property. */
  predicate IsWhitespace(c: char) {
    ('\t' <= c <= '\r') || c == ' ' || c == '\U{0085}' || c == '\U{00A0}' || c == '\U{1680}'
    || ('\U{2000}' <= c <= '\U{200A}') || c == '\U{2028}' || c == '\U{2029}'
    || c == '\U{202F}' || c == '\U{205F}' || c == '\U{3000}'
  }

  /** The index of the first non-whitespace character, or `|s|`. */
  function LeadingWhitespace(s: string): (i: nat)
    ensures i <= |s|
    ensures forall j :: 0 <= j < i ==> IsWhitespace(s[j])
    ensures i < |s| ==> !IsWhitespace(s[i])
    decreases |s|
  {
    if s == [] || !IsWhitespace(s[0]) then 0 else 1 + LeadingWhitespace(s[1..])
  }

  /** The index just after the last non-whitespace character, or 0. */
  function TrailingWhitespace(s: string): (j: nat)
    ensures j <= |s|
    ensures forall k :: j <= k < |s| ==> IsWhitespace(s[k])
    ensures j > 0 ==> !IsWhitespace(s[j - 1])
    decreases |s|
  {
    if s == [] || !IsWhitespace(s[|s| - 1]) then |s| else TrailingWhitespace(s[..|s| - 1])
  }

  /** `str::trim`: the text with surrounding whitespace removed, and nothing else. */
  function Trim(s: string): (r: string)
    ensures r == [] || (!IsWhitespace(r[0]) && !IsWhitespace(r[|r| - 1]))
    ensures exists i, j ::
              && 0 <= i <= j <= |s| && r == s[i..j]
              && (forall k :: 0 <= k < i ==> IsWhitespace(s[k]))
              && (forall k :: j <= k < |s| ==> IsWhitespace(s[k]))
  {
    var i := LeadingWhitespace(s);
    if i == |s| then
      assert s[i..i] == [];
      []
    else
      var j := TrailingWhitespace(s);
      assert i < j;
      s[i..j]
  }
}
