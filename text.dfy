/**
 * The parts of java.lang.String that the assistant's core relies on: blank tests,
 * trimming, prefix tests, searching, ASCII case folding, character replacement,
 * the natural (compareTo) order and sorting, and one-argument formatting.
 */
module JavaStrings {
  import opened Wrappers

  // ---------------------------------------------------------------- blanks and trim

  /**
   * Character.isWhitespace: the space, line and paragraph separators other than the
   * no-break spaces (U+00A0, U+2007, U+202F), and the controls U+0009-U+000D, U+001C-U+001F.
   */
  predicate IsWhitespace(c: char) {
    c == ' ' || ('\t' <= c <= '\r') || ('\U{1C}' <= c <= '\U{1F}') ||
    c == '\U{1680}' || ('\U{2000}' <= c <= '\U{2006}') || ('\U{2008}' <= c <= '\U{200A}') ||
    c == '\U{2028}' || c == '\U{2029}' || c == '\U{205F}' || c == '\U{3000}'
  }

  /** String.isBlank: empty or whitespace only. */
  predicate IsBlank(s: string) {
    forall i :: 0 <= i < |s| ==> IsWhitespace(s[i])
  }

  /** String.trim removes every leading and trailing character whose code is at most U+0020. */
  predicate Trimmable(c: char) {
    c <= ' '
  }

  /** Where trimming starts: the first position at or after i that is not trimmable. */
  function TrimFrom(s: string, i: nat): (k: nat)
    requires i <= |s|
    decreases |s| - i
    ensures i <= k <= |s|
    ensures forall j :: i <= j < k ==> Trimmable(s[j])
    ensures k == |s| || !Trimmable(s[k])
  {
    if i == |s| || !Trimmable(s[i]) then i else TrimFrom(s, i + 1)
  }

  /** Where trimming ends: hi, less the trimmable characters just before it, down to lo. */
  function TrimTo(s: string, lo: nat, hi: nat): (k: nat)
    requires lo <= hi <= |s|
    decreases hi
    ensures lo <= k <= hi
    ensures forall j :: k <= j < hi ==> Trimmable(s[j])
    ensures k == lo || !Trimmable(s[k - 1])
  {
    if hi == lo || !Trimmable(s[hi - 1]) then hi else TrimTo(s, lo, hi - 1)
  }

  /** String.trim: the slice of s that drops its trimmable ends. */
  function Trim(s: string): (r: string)
    ensures |r| <= |s|
    ensures r == [] || (!Trimmable(r[0]) && !Trimmable(r[|r| - 1]))
  {
    s[TrimFrom(s, 0)..TrimTo(s, TrimFrom(s, 0), |s|)]
  }

  /** Every character of the trimmed string comes from the string. */
  lemma TrimKeepsAbsence(s: string, c: char)
    requires c !in s
    ensures c !in Trim(s)
  {
    var lo := TrimFrom(s, 0);
    var r := Trim(s);
    forall j | 0 <= j < |r|
      ensures r[j] != c
    {
      assert r[j] == s[lo + j];
    }
  }

  /** Trimming a string whose ends are not trimmable leaves it as it is. */
  lemma TrimOfTrimmed(s: string)
    requires s == [] || (!Trimmable(s[0]) && !Trimmable(s[|s| - 1]))
    ensures Trim(s) == s
  {
  }

  // ---------------------------------------------------------------- prefixes and search

  /** String.startsWith. */
  predicate StartsWith(s: string, prefix: string) {
    |prefix| <= |s| && s[..|prefix|] == prefix
  }

  /** String.endsWith. */
  predicate EndsWith(s: string, suffix: string) {
    |suffix| <= |s| && s[|s| - |suffix|..] == suffix
  }

  /** Appending keeps the old text as a prefix and any suffix of the appended part as a suffix. */
  lemma AppendEnds(a: string, b: string, tail: string)
    requires EndsWith(b, tail)
    ensures StartsWith(a + b, a) && EndsWith(a + b, tail)
  {
    assert (a + b)[..|a|] == a;
    assert (a + b)[|a + b| - |tail|..] == b[|b| - |tail|..];
  }

  /** String.indexOf(ch, from): the first position at or after from holding c. */
  function IndexOf(s: string, c: char, from: nat): (r: Option<nat>)
    decreases |s| - from
    ensures r.Some? ==> from <= r.value < |s| && s[r.value] == c
    ensures r.Some? ==> forall k :: from <= k < r.value ==> s[k] != c
    ensures r.None? ==> forall k :: from <= k < |s| ==> s[k] != c
  {
    if from >= |s| then None
    else if s[from] == c then Some(from)
    else IndexOf(s, c, from + 1)
  }

  /** String.lastIndexOf(ch). */
  function LastIndexOfChar(s: string, c: char): (r: Option<nat>)
    ensures r.Some? ==> r.value < |s| && s[r.value] == c
    ensures r.Some? ==> forall k :: r.value < k < |s| ==> s[k] != c
    ensures r.None? ==> c !in s
  {
    if s == [] then None
    else if s[|s| - 1] == c then Some(|s| - 1)
    else LastIndexOfChar(s[..|s| - 1], c)
  }

  /** sub occurs in s at position k. */
  predicate OccursAt(s: string, sub: string, k: nat) {
    k + |sub| <= |s| && s[k..k + |sub|] == sub
  }

  /** The last occurrence of sub at or before position k. */
  function LastOccurrenceUpTo(s: string, sub: string, k: nat): (r: Option<nat>)
    ensures r.Some? ==> r.value <= k && OccursAt(s, sub, r.value)
    ensures r.Some? ==> forall j :: r.value < j <= k ==> !OccursAt(s, sub, j)
    ensures r.None? ==> forall j :: 0 <= j <= k ==> !OccursAt(s, sub, j)
  {
    if OccursAt(s, sub, k) then Some(k)
    else if k == 0 then None
    else LastOccurrenceUpTo(s, sub, k - 1)
  }

  /** String.lastIndexOf(str). */
  function LastIndexOf(s: string, sub: string): (r: Option<nat>)
    ensures r.Some? ==> OccursAt(s, sub, r.value)
    ensures r.Some? ==> forall j :: r.value < j ==> !OccursAt(s, sub, j)
    ensures r.None? ==> forall j :: 0 <= j ==> !OccursAt(s, sub, j)
  {
    if |sub| > |s| then None else LastOccurrenceUpTo(s, sub, |s| - |sub|)
  }

  // ---------------------------------------------------------------- case and replacement

  /** Character.toLowerCase on the ASCII letters. */
  function LowerChar(c: char): char {
    if 'A' <= c <= 'Z' then (c as int + 32) as char else c
  }

  /** String.toLowerCase (ASCII letters only). */
  function ToLower(s: string): (r: string)
    ensures |r| == |s|
    ensures forall i :: 0 <= i < |s| ==> r[i] == LowerChar(s[i])
  {
    seq(|s|, i requires 0 <= i < |s| => LowerChar(s[i]))
  }

  /** String.equalsIgnoreCase (ASCII letters only). */
  predicate EqualsIgnoreCase(a: string, b: string) {
    ToLower(a) == ToLower(b)
  }

  /** String.replace(char, char). */
  function ReplaceChar(s: string, from: char, to: char): (r: string)
    ensures |r| == |s|
    ensures forall i :: 0 <= i < |s| ==> r[i] == (if s[i] == from then to else s[i])
  {
    seq(|s|, i requires 0 <= i < |s| => if s[i] == from then to else s[i])
  }

  lemma ReplaceCharRemoves(s: string, from: char, to: char)
    requires from != to
    ensures from !in ReplaceChar(s, from, to)
  {
    var r := ReplaceChar(s, from, to);
    forall i | 0 <= i < |r|
      ensures r[i] != from
    {
    }
  }

  /** How Java's string concatenation renders a possibly-null String. */
  function Render(s: Option<string>): string {
    match s
    case Some(t) => t
    case None => "null"
  }

  /** String.indexOf(str, from): the first occurrence of sub at or after from. */
  function FirstOccurrenceFrom(s: string, sub: string, from: nat): (r: Option<nat>)
    decreases |s| - from
    ensures r.Some? ==> from <= r.value && OccursAt(s, sub, r.value)
    ensures r.Some? ==> forall j :: from <= j < r.value ==> !OccursAt(s, sub, j)
    ensures r.None? ==> forall j :: from <= j ==> !OccursAt(s, sub, j)
  {
    if from + |sub| > |s| then None
    else if OccursAt(s, sub, from) then Some(from)
    else FirstOccurrenceFrom(s, sub, from + 1)
  }

  /**
   * String.format(template, arg) for templates whose only conversion is %s:
   * the first %s is replaced by arg; a template without %s is returned as it is.
   */
  function FormatOne(template: string, arg: string): string {
    match FirstOccurrenceFrom(template, "%s", 0)
    case None => template
    case Some(k) => template[..k] + arg + template[k + 2..]
  }

  // ---------------------------------------------------------------- order and sorting

  /** String.compareTo(a, b) <= 0, as the lexicographic order of code points (a `char` is a Unicode scalar value). */
  predicate LessEq(a: string, b: string) {
    a == [] || (b != [] && (a[0] < b[0] || (a[0] == b[0] && LessEq(a[1..], b[1..]))))
  }

  lemma {:induction false} LessEqTotal(a: string, b: string)
    ensures LessEq(a, b) || LessEq(b, a)
  {
    if a != [] && b != [] && a[0] == b[0] {
      LessEqTotal(a[1..], b[1..]);
    }
  }

  lemma {:induction false} LessEqTransitive(a: string, b: string, c: string)
    requires LessEq(a, b) && LessEq(b, c)
    ensures LessEq(a, c)
  {
    if a != [] && a[0] == b[0] && b[0] == c[0] {
      LessEqTransitive(a[1..], b[1..], c[1..]);
    }
  }

  lemma {:induction false} LessEqAntisymmetric(a: string, b: string)
    requires LessEq(a, b) && LessEq(b, a)
    ensures a == b
  {
    if a != [] {
      LessEqAntisymmetric(a[1..], b[1..]);
      assert a == [a[0]] + a[1..] && b == [b[0]] + b[1..];
    }
  }

  predicate Sorted(s: seq<string>) {
    forall i, j :: 0 <= i < j < |s| ==> LessEq(s[i], s[j])
  }

  /** A lower bound of s and of x bounds every permutation of s with x added. */
  lemma BoundsPermutation(b: string, s: seq<string>, x: string, r: seq<string>)
    requires forall k :: 0 <= k < |s| ==> LessEq(b, s[k])
    requires LessEq(b, x) && multiset(r) == multiset(s) + multiset{x}
    ensures forall j :: 0 <= j < |r| ==> LessEq(b, r[j])
  {
    forall j | 0 <= j < |r|
      ensures LessEq(b, r[j])
    {
      assert r[j] in multiset(r);
      if r[j] != x {
        assert r[j] in multiset(s);
        var k :| 0 <= k < |s| && s[k] == r[j];
      }
    }
  }

  /** Inserts x into a sorted sequence. */
  function Insert(x: string, s: seq<string>): (r: seq<string>)
    requires Sorted(s)
    ensures Sorted(r) && multiset(r) == multiset(s) + multiset{x}
  {
    if s == [] then [x]
    else if LessEq(x, s[0]) then
      assert forall j :: 0 < j < |s| ==> LessEq(x, s[j]) by {
        forall j | 0 < j < |s| { LessEqTransitive(x, s[0], s[j]); }
      }
      [x] + s
    else
      LessEqTotal(x, s[0]);
      var rest := Insert(x, s[1..]);
      assert s == [s[0]] + s[1..];
      BoundsPermutation(s[0], s[1..], x, rest);
      [s[0]] + rest
  }

  /** Stream.sorted() on strings: an ascending permutation of its input. */
  function Sort(s: seq<string>): (r: seq<string>)
    ensures Sorted(r) && multiset(r) == multiset(s)
  {
    if s == [] then []
    else
      assert s == [s[0]] + s[1..];
      Insert(s[0], Sort(s[1..]))
  }

  lemma SortKeepsMembers(s: seq<string>, x: string)
    ensures x in Sort(s) <==> x in s
  {
    assert x in Sort(s) <==> x in multiset(Sort(s));
    assert x in s <==> x in multiset(s);
  }
}
