/**
 * The heading count of the scorer: the number of matches that the global
 * regular expression `/\n#+\s/g` finds in a string, i.e. a line break, a run
 * of one or more `#`, and one whitespace code unit, matched left to right
 * without overlap.
 */
module Headings {
  import opened Text

  /** Length of the run of `#` at the start of `s`. */
  function HashRun(s: JsString): (k: nat)
    ensures k <= |s|
    ensures forall i :: 0 <= i < k ==> s[i] == HASH
    ensures k < |s| ==> s[k] != HASH
  {
    if s == [] || s[0] != HASH then 0 else 1 + HashRun(s[1..])
  }

  /** Length of the match of `\n#+\s` that starts at the first code unit of
      `s`, or 0 when the pattern does not match there. `#+` is greedy, and
      since `#` is not whitespace, backtracking into the run cannot help. */
  function HeadingMatch(s: JsString): (len: nat)
    ensures len == 0 || 3 <= len <= |s|
    ensures len > 0 ==> s[0] == NEWLINE && IsWs(s[len - 1])
    ensures len > 0 ==> forall i :: 1 <= i < len - 1 ==> s[i] == HASH
  {
    if s == [] || s[0] != NEWLINE then 0
    else
      var k := HashRun(s[1..]);
      if 1 <= k && k + 1 < |s| && IsWs(s[k + 1]) then k + 2 else 0
  }

  /** Conversely, every way the pattern can match at the start of `s` is
      the one `HeadingMatch` reports. */
  lemma HeadingMatchComplete(s: JsString, k: nat)
    requires 1 <= k && k + 1 < |s|
    requires s[0] == NEWLINE
    requires forall i :: 1 <= i <= k ==> s[i] == HASH
    requires IsWs(s[k + 1])
    ensures HeadingMatch(s) == k + 2
  {
    assert s[1..][k] == s[k + 1];
  }

  /** Number of non-overlapping matches of `\n#+\s`, scanning from the left
      and resuming after each match. */
  function CountHeadings(s: JsString): (h: nat)
    ensures 3 * h <= |s|
    decreases |s|
  {
    if s == [] then 0
    else
      var len := HeadingMatch(s);
      if len > 0 then 1 + CountHeadings(s[len..]) else CountHeadings(s[1..])
  }

  /** Every counted heading consumes the line break that starts it, so there
      are never more headings than line breaks. */
  lemma {:induction false} HeadingsAtMostNewlines(s: JsString)
    ensures CountHeadings(s) <= CountOf(s, NEWLINE)
    decreases |s|
  {
    if s != [] {
      var len := HeadingMatch(s);
      var cut := if len > 0 then len else 1;
      assert s == s[..cut] + s[cut..];
      assert s[0] in multiset(s[..cut]);
      HeadingsAtMostNewlines(s[cut..]);
    }
  }

  /** A heading marker on the first line is never counted: matches begin with
      a line break, so any text before the first line break is skipped. */
  lemma {:induction false} FirstLineNeverCounted(line: JsString, rest: JsString)
    requires NEWLINE !in line
    ensures CountHeadings(line + rest) == CountHeadings(rest)
    decreases |line|
  {
    if line == [] {
      assert line + rest == rest;
    } else {
      var u := line + rest;
      assert u[0] == line[0];
      assert HeadingMatch(u) == 0;
      assert u[1..] == line[1..] + rest;
      FirstLineNeverCounted(line[1..], rest);
    }
  }

  /** The position of the first match at or after `from`, or `|s|` when
      there is none: the search RegExpBuiltinExec performs from `lastIndex`. */
  function NextMatch(s: JsString, from: nat): (p: nat)
    requires from <= |s|
    ensures from <= p <= |s|
    ensures p < |s| ==> HeadingMatch(s[p..]) > 0
    ensures forall q :: from <= q < p ==> HeadingMatch(s[q..]) == 0
    decreases |s| - from
  {
    if from == |s| then |s|
    else if HeadingMatch(s[from..]) > 0 then from
    else NextMatch(s, from + 1)
  }

  /** Where `lastIndex` is set after a match at `p`: just past the match. */
  function MatchEnd(s: JsString, p: nat): (e: nat)
    requires p < |s| && HeadingMatch(s[p..]) > 0
    ensures p + 3 <= e <= |s|
  {
    p + HeadingMatch(s[p..])
  }

  /** The ECMAScript global-match loop: find the next match from
      `lastIndex`, count it and set `lastIndex` to the end of the match. */
  function GlobalMatchCount(s: JsString, lastIndex: nat): (n: nat)
    requires lastIndex <= |s|
    ensures 3 * n <= |s| - lastIndex
    decreases |s| - lastIndex
  {
    var p := NextMatch(s, lastIndex);
    if p == |s| then 0
    else 1 + GlobalMatchCount(s, MatchEnd(s, p))
  }

  /** Where the pattern does not match, both counts move on by one code unit. */
  lemma {:induction false} SkipStep(s: JsString, lastIndex: nat)
    requires lastIndex < |s| && HeadingMatch(s[lastIndex..]) == 0
    ensures CountHeadings(s[lastIndex..]) == CountHeadings(s[lastIndex + 1..])
    ensures GlobalMatchCount(s, lastIndex) == GlobalMatchCount(s, lastIndex + 1)
  {
    assert s[lastIndex..][1..] == s[lastIndex + 1..];
    assert NextMatch(s, lastIndex) == NextMatch(s, lastIndex + 1);
  }

  /** Where the pattern matches, both counts take one heading and resume just
      past the match. */
  lemma {:induction false} MatchStep(s: JsString, lastIndex: nat)
    requires lastIndex < |s| && HeadingMatch(s[lastIndex..]) > 0
    ensures CountHeadings(s[lastIndex..]) == 1 + CountHeadings(s[MatchEnd(s, lastIndex)..])
    ensures GlobalMatchCount(s, lastIndex) == 1 + GlobalMatchCount(s, MatchEnd(s, lastIndex))
  {
    assert s[lastIndex..][HeadingMatch(s[lastIndex..])..] == s[MatchEnd(s, lastIndex)..];
    assert NextMatch(s, lastIndex) == lastIndex;
  }

  /** The suffix-recursive count agrees with the `lastIndex` loop of the
      ECMAScript global match, from any starting index. */
  lemma {:induction false} CountHeadingsIsGlobalMatch(s: JsString, lastIndex: nat)
    requires lastIndex <= |s|
    ensures CountHeadings(s[lastIndex..]) == GlobalMatchCount(s, lastIndex)
    decreases |s| - lastIndex
  {
    if lastIndex == |s| {
      assert s[lastIndex..] == [];
      assert NextMatch(s, lastIndex) == |s|;
    } else if HeadingMatch(s[lastIndex..]) > 0 {
      MatchStep(s, lastIndex);
      CountHeadingsIsGlobalMatch(s, MatchEnd(s, lastIndex));
    } else {
      SkipStep(s, lastIndex);
      CountHeadingsIsGlobalMatch(s, lastIndex + 1);
    }
  }

  /** In "\n#\n# x" the first match takes the second line break as its
      whitespace, so the second marker has no line break left and only one
      heading is counted. */
  lemma TrailingLineBreakIsConsumed()
    ensures CountHeadings([NEWLINE, HASH, NEWLINE, HASH, SPACE, 0x78]) == 1
  {
    var s: JsString := [NEWLINE, HASH, NEWLINE, HASH, SPACE, 0x78];
    HeadingMatchComplete(s, 1);
    assert s[3..] == [HASH, SPACE, 0x78];
    FirstLineNeverCounted(s[3..], []);
    assert s[3..] + [] == s[3..];
  }
}
