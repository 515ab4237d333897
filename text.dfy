/**
 * JavaScript string primitives the scorer relies on: strings as sequences of
 * UTF-16 code units, `String.prototype.trim`, the regular-expression class `\s`,
 * and counting the occurrences of one code unit (the `/\?/g` match count).
 */
module Text {

  /** One UTF-16 code unit; a JavaScript string is a sequence of these and its
      `length` is the number of code units. */
  newtype CodeUnit = x: int | 0 <= x < 0x1_0000

  type JsString = seq<CodeUnit>

  const NEWLINE: CodeUnit := 0x0A
  const SPACE: CodeUnit := 0x20
  const HASH: CodeUnit := 0x23
  const QUESTION: CodeUnit := 0x3F

  /** The code units that `trim` strips and that `\s` matches: the WhiteSpace
      and LineTerminator code points of ECMA-262 (sections 12.2 and 12.3). */
  predicate IsWs(c: CodeUnit)
    ensures c == SPACE || c == NEWLINE ==> IsWs(c)
    ensures IsWs(c) ==> c != HASH && c != QUESTION
  {
    // WhiteSpace: TAB, VT, FF, ZWNBSP and the Unicode "Space_Separator" (Zs) code points
    || c == 0x09 || c == 0x0B || c == 0x0C || c == 0xFEFF
    || c == 0x20 || c == 0xA0 || c == 0x1680 || (0x2000 <= c <= 0x200A)
    || c == 0x202F || c == 0x205F || c == 0x3000
    // LineTerminator: LF, CR, LS, PS
    || c == 0x0A || c == 0x0D || c == 0x2028 || c == 0x2029
  }

  predicate AllWs(s: JsString) {
    forall k :: 0 <= k < |s| ==> IsWs(s[k])
  }

  /** Number of leading whitespace code units. */
  function LeadingWs(s: JsString): (i: nat)
    ensures i <= |s|
    ensures forall k :: 0 <= k < i ==> IsWs(s[k])
    ensures i < |s| ==> !IsWs(s[i])
  {
    if s == [] || !IsWs(s[0]) then 0 else 1 + LeadingWs(s[1..])
  }

  /** Index just past the last non-whitespace code unit (0 when there is none). */
  function TrailingWsStart(s: JsString): (j: nat)
    ensures j <= |s|
    ensures forall k :: j <= k < |s| ==> IsWs(s[k])
    ensures 0 < j ==> !IsWs(s[j - 1])
  {
    if s == [] || !IsWs(s[|s| - 1]) then |s| else TrailingWsStart(s[..|s| - 1])
  }

  /** `String.prototype.trim`: drops leading and trailing whitespace. */
  function Trim(s: JsString): (r: JsString)
    ensures r == [] <==> AllWs(s)
    ensures r != [] ==> !IsWs(r[0]) && !IsWs(r[|r| - 1])
    ensures |r| <= |s|
  {
    var i := LeadingWs(s);
    if i == |s| then [] else s[i..TrailingWsStart(s)]
  }

  /** Trim is characterised by its cut points: whatever splits `s` into a
      whitespace prefix, a core that is empty or starts and ends with
      non-whitespace, and a whitespace suffix yields exactly `Trim(s)`. */
  lemma TrimUnique(s: JsString, i: nat, j: nat)
    requires i <= j <= |s|
    requires forall k :: 0 <= k < i ==> IsWs(s[k])
    requires forall k :: j <= k < |s| ==> IsWs(s[k])
    requires i < j ==> !IsWs(s[i]) && !IsWs(s[j - 1])
    ensures Trim(s) == s[i..j]
  {
    if i == j {
      assert AllWs(s);
    }
  }

  /** Trimming twice is trimming once. */
  lemma TrimIdempotent(s: JsString)
    ensures Trim(Trim(s)) == Trim(s)
  {
    var t := Trim(s);
    TrimUnique(t, 0, |t|);
  }

  /** Whitespace put in front of a string is removed again by `trim`. */
  lemma TrimIgnoresLeading(pre: JsString, s: JsString)
    requires AllWs(pre)
    ensures Trim(pre + s) == Trim(s)
  {
    var u := pre + s;
    if AllWs(s) {
      forall k | 0 <= k < |u| ensures IsWs(u[k]) {
        if k < |pre| { assert u[k] == pre[k]; } else { assert u[k] == s[k - |pre|]; }
      }
      assert AllWs(u);
    } else {
      var i, j := LeadingWs(s), TrailingWsStart(s);
      var i', j' := |pre| + i, |pre| + j;
      forall k | 0 <= k < i' ensures IsWs(u[k]) {
        if k < |pre| { assert u[k] == pre[k]; } else { assert u[k] == s[k - |pre|]; }
      }
      forall k | j' <= k < |u| ensures IsWs(u[k]) {
        assert u[k] == s[k - |pre|];
      }
      assert u[i'] == s[i] && u[j' - 1] == s[j - 1];
      assert u[i'..j'] == s[i..j];
      TrimUnique(u, i', j');
    }
  }

  /** Whitespace put after a string is removed again by `trim`. */
  lemma TrimIgnoresTrailing(s: JsString, post: JsString)
    requires AllWs(post)
    ensures Trim(s + post) == Trim(s)
  {
    var u := s + post;
    if AllWs(s) {
      forall k | 0 <= k < |u| ensures IsWs(u[k]) {
        if k < |s| { assert u[k] == s[k]; } else { assert u[k] == post[k - |s|]; }
      }
      assert AllWs(u);
    } else {
      var i, j := LeadingWs(s), TrailingWsStart(s);
      forall k | j <= k < |u| ensures IsWs(u[k]) {
        if k < |s| { assert u[k] == s[k]; } else { assert u[k] == post[k - |s|]; }
      }
      assert u[i..j] == s[i..j];
      TrimUnique(u, i, j);
    }
  }

  /** Whitespace added around a string is removed again by `trim`. */
  lemma TrimIgnoresPadding(pre: JsString, s: JsString, post: JsString)
    requires AllWs(pre) && AllWs(post)
    ensures Trim(pre + s + post) == Trim(s)
  {
    TrimIgnoresTrailing(pre + s, post);
    TrimIgnoresLeading(pre, s);
  }

  /** Number of occurrences of `c` in `s`: the length of the array that
      `s.match(/c/g)` returns (or 0 when it returns null). */
  function CountOf(s: JsString, c: CodeUnit): (n: nat)
    ensures n == multiset(s)[c]
  {
    if s == [] then 0
    else
      assert s == [s[0]] + s[1..];
      (if s[0] == c then 1 else 0) + CountOf(s[1..], c)
  }
}
