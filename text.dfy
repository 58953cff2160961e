/**
  String helpers the book form relies on: JavaScript's `String.prototype.trim`
  and the "blank title" test `!title.trim()` of `addBook`.

  Strings are sequences of Unicode scalar values. Every character that
  `trim` strips lies in the Basic Multilingual Plane, so working on scalar
  values instead of UTF-16 code units changes nothing for trimming.
 */
module Text {

  /** The ECMAScript WhiteSpace and LineTerminator characters: exactly
      what `trim` strips from both ends of a string. */
  predicate IsJsWhitespace(c: char) {
    || c == '\t' || c == '\n' || c == '\U{000B}' || c == '\U{000C}' || c == '\r'
    || c == ' ' || c == '\U{00A0}' || c == '\U{1680}'
    || ('\U{2000}' <= c <= '\U{200A}')
    || c == '\U{2028}' || c == '\U{2029}' || c == '\U{202F}' || c == '\U{205F}'
    || c == '\U{3000}' || c == '\U{FEFF}'
  }

  /** Scans forward from `i` past whitespace: the result is the first
      position at or after `i` that is not whitespace (or the end). */
  function SkipLeading(s: string, i: nat): (k: nat)
    requires i <= |s|
    ensures i <= k <= |s|
    ensures forall n :: i <= n < k ==> IsJsWhitespace(s[n])
    ensures k < |s| ==> !IsJsWhitespace(s[k])
    decreases |s| - i
  {
    if i < |s| && IsJsWhitespace(s[i]) then SkipLeading(s, i + 1) else i
  }

  /** Scans backward from `j`, not below `lo`, past whitespace: the result
      is the end of the slice once the trailing run is dropped. */
  function SkipTrailing(s: string, lo: nat, j: nat): (e: nat)
    requires lo <= j <= |s|
    ensures lo <= e <= j
    ensures forall n :: e <= n < j ==> IsJsWhitespace(s[n])
    ensures lo < e ==> !IsJsWhitespace(s[e - 1])
  {
    if lo < j && IsJsWhitespace(s[j - 1]) then SkipTrailing(s, lo, j - 1) else j
  }

  /** `String.prototype.trim`: the slice of `s` left after removing the
      whitespace at both ends. The slice starts at `k`, the length of the
      leading whitespace run; every character outside it is whitespace, and
      a non-empty result starts and ends with a non-whitespace character. */
  function Trim(s: string): (r: string)
    ensures var k := SkipLeading(s, 0);
      && k + |r| <= |s|
      && r == s[k..k + |r|]
      && (forall i :: 0 <= i < k ==> IsJsWhitespace(s[i]))
      && (forall i :: k + |r| <= i < |s| ==> IsJsWhitespace(s[i]))
    ensures r == [] || (!IsJsWhitespace(r[0]) && !IsJsWhitespace(r[|r| - 1]))
  {
    var k := SkipLeading(s, 0);
    var e := SkipTrailing(s, k, |s|);
    assert k < e ==> s[k..e][0] == s[k] && s[k..e][e - k - 1] == s[e - 1];
    s[k..e]
  }

  /** The guard `!title.trim()`: a string is blank when trimming leaves
      nothing, which is exactly when every character is whitespace
      (the empty string included). */
  predicate IsBlank(s: string): (b: bool)
    ensures b <==> forall i :: 0 <= i < |s| ==> IsJsWhitespace(s[i])
  {
    var r := Trim(s);
    assert r != [] ==> r[0] == s[SkipLeading(s, 0)];
    r == []
  }
}
