/**
 * The few JavaScript built-ins the front end relies on: `String.prototype.trim`,
 * `toLowerCase`, `includes`, `substring`, and `Array.prototype.slice`. Strings
 * are sequences of Unicode code points here, where JavaScript indexes UTF-16
 * code units; the two agree on strings without astral characters.
 */
module JsBuiltins {

  function Min(a: int, b: int): int { if a <= b then a else b }
  function Max(a: int, b: int): int { if a <= b then b else a }

  /** ECMAScript WhiteSpace and LineTerminator code points, the set `trim` strips. */
  predicate IsWhiteSpace(c: char) {
    || c == '\t' || c == '\n' || c == '\U{000B}' || c == '\U{000C}' || c == '\r'
    || c == ' ' || c == '\U{00A0}' || c == '\U{1680}'
    || ('\U{2000}' <= c <= '\U{200A}')
    || c == '\U{2028}' || c == '\U{2029}' || c == '\U{202F}' || c == '\U{205F}'
    || c == '\U{3000}' || c == '\U{FEFF}'
  }

  predicate AllWhiteSpace(s: string) {
    forall k | 0 <= k < |s| :: IsWhiteSpace(s[k])
  }

  /** `s.trimStart()`: the suffix left after dropping leading white space. */
  function TrimStart(s: string): (r: string)
    ensures |r| <= |s| && r == s[|s| - |r|..]
    ensures AllWhiteSpace(s[..|s| - |r|])
    ensures r == [] || !IsWhiteSpace(r[0])
  {
    if s != [] && IsWhiteSpace(s[0]) then TrimStart(s[1..]) else s
  }

  /** `s.trimEnd()`: the prefix left after dropping trailing white space. */
  function TrimEnd(s: string): (r: string)
    ensures |r| <= |s| && r == s[..|r|]
    ensures AllWhiteSpace(s[|r|..])
    ensures r == [] || !IsWhiteSpace(r[|r| - 1])
  {
    if s != [] && IsWhiteSpace(s[|s| - 1]) then TrimEnd(s[..|s| - 1]) else s
  }

  /** `r` is `s` with the white space before index `i` and after `r` removed. */
  predicate TrimmedAt(s: string, r: string, i: int) {
    && 0 <= i <= |s| - |r|
    && s[i..i + |r|] == r
    && AllWhiteSpace(s[..i])
    && AllWhiteSpace(s[i + |r|..])
  }

  /** `s.trim()`: `s` without its leading and trailing white space. */
  function Trim(s: string): (r: string)
    ensures exists i | 0 <= i <= |s| - |r| :: TrimmedAt(s, r, i)
    ensures r == [] <==> AllWhiteSpace(s)
    ensures r != [] ==> !IsWhiteSpace(r[0]) && !IsWhiteSpace(r[|r| - 1])
  {
    var t := TrimStart(s);
    var r := TrimEnd(t);
    TrimmedAtBothEnds(s, t, r);
    r
  }

  /** Dropping a white-space prefix and then a white-space suffix leaves an infix trimmed at the seam. */
  lemma TrimmedAtBothEnds(s: string, t: string, r: string)
    requires |t| <= |s| && t == s[|s| - |t|..] && AllWhiteSpace(s[..|s| - |t|])
    requires |r| <= |t| && r == t[..|r|] && AllWhiteSpace(t[|r|..])
    requires r == [] || !IsWhiteSpace(r[0])
    ensures TrimmedAt(s, r, |s| - |t|)
    ensures r == [] <==> AllWhiteSpace(s)
  {
    var i := |s| - |t|;
    assert s[i..i + |r|] == r;
    assert s[i + |r|..] == t[|r|..];
    if r == [] {
      forall k | 0 <= k < |s|
        ensures IsWhiteSpace(s[k])
      {
        if k < i { assert s[k] == s[..i][k]; }
        else { assert s[k] == t[|r|..][k - i]; }
      }
    } else {
      assert s[i] == r[0];
    }
  }

  /** `c.toLowerCase()` for the letters of Basic Latin and Latin-1. */
  function LowerChar(c: char): (d: char)
  {
    if 'A' <= c <= 'Z' || ('\U{00C0}' <= c <= '\U{00DE}' && c != '\U{00D7}')
    then (c as int + 32) as char
    else c
  }

  /** `s.toLowerCase()`, character by character. */
  function ToLowerCase(s: string): (r: string)
    ensures |r| == |s|
  {
    seq(|s|, i requires 0 <= i < |s| => LowerChar(s[i]))
  }

  /** `sub` occurs in `s` starting at index `i`. */
  predicate OccursAt(s: string, sub: string, i: int) {
    0 <= i <= |s| - |sub| && s[i..i + |sub|] == sub
  }

  /** `s.includes(sub)`: `sub` occurs in `s` at some position. */
  predicate Includes(s: string, sub: string) {
    exists i | 0 <= i <= |s| - |sub| :: OccursAt(s, sub, i)
  }

  /** `s.substring(start, end)`: both ends clamped to `0..|s|`, swapped when reversed. */
  function Substring(s: string, start: int, end: int): (r: string)
    ensures |r| <= |s|
    ensures 0 <= start <= end ==> r == s[Min(start, |s|)..Min(end, |s|)]
  {
    var from := Min(Max(start, 0), |s|);
    var to := Min(Max(end, 0), |s|);
    s[Min(from, to)..Max(from, to)]
  }

  /** The index `Array.prototype.slice` derives from a relative position. */
  function RelativeIndex(rel: int, len: nat): (k: nat)
    ensures k <= len
  {
    if rel < 0 then Max(len + rel, 0) else Min(rel, len)
  }

  /** `s.slice(start, end)`: negative positions count from the end, both are clamped. */
  function Slice<T>(s: seq<T>, start: int, end: int): (r: seq<T>)
    ensures 0 <= start <= end ==> |r| == Max(0, Min(end, |s|) - start)
    ensures 0 <= start ==> forall i | 0 <= i < |r| :: start + i < |s| && r[i] == s[start + i]
  {
    var from := RelativeIndex(start, |s|);
    var to := RelativeIndex(end, |s|);
    if from < to then s[from..to] else []
  }
}
