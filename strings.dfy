/** Character classes and the handful of Python `str` operations that the
    survey pipeline relies on. A string is a sequence of Unicode scalar
    values, as a Python 3 `str` is. */
module Strings {

  /** The characters for which Python's `str.isspace()` holds. The `\s` class
      of a regular expression over `str` and the argument-less `strip()` use
      the same set. */
  predicate IsSpace(c: char) {
    || ('\U{0009}' <= c <= '\U{000D}')
    || ('\U{001C}' <= c <= '\U{001F}')
    || c == ' '
    || c == '\U{0085}'
    || c == '\U{00A0}'
    || c == '\U{1680}'
    || ('\U{2000}' <= c <= '\U{200A}')
    || c == '\U{2028}'
    || c == '\U{2029}'
    || c == '\U{202F}'
    || c == '\U{205F}'
    || c == '\U{3000}'
  }

  /** The regular-expression class `\d`, restricted to the ASCII digits. */
  predicate IsDigit(c: char) {
    '0' <= c <= '9'
  }

  /** The no-break space that form exports put into headers. */
  const Nbsp: char := '\U{00A0}'

  /** The en dash of answers such as "6–7 hours". */
  const EnDash: char := '\U{2013}'

  predicate AllSpace(s: string) {
    forall i :: 0 <= i < |s| ==> IsSpace(s[i])
  }

  predicate NoSpace(s: string) {
    forall i :: 0 <= i < |s| ==> !IsSpace(s[i])
  }

  predicate NoDigits(s: string) {
    forall i :: 0 <= i < |s| ==> !IsDigit(s[i])
  }

  /** `s.lstrip()` */
  function TrimLeft(s: string): (r: string)
    ensures |r| <= |s| && r == s[|s| - |r|..]
    ensures AllSpace(s[..|s| - |r|])
    ensures r != [] ==> !IsSpace(r[0])
    ensures s != [] && IsSpace(s[0]) ==> |r| < |s|
  {
    if s != [] && IsSpace(s[0]) then TrimLeft(s[1..]) else s
  }

  /** `s.rstrip()` */
  function TrimRight(s: string): (r: string)
    ensures |r| <= |s| && r == s[..|r|]
    ensures AllSpace(s[|r|..])
    ensures r != [] ==> !IsSpace(r[|r| - 1])
  {
    if s != [] && IsSpace(s[|s| - 1]) then
      var r := TrimRight(s[..|s| - 1]);
      assert s[|r|..] == s[..|s| - 1][|r|..] + [s[|s| - 1]];
      r
    else
      s
  }

  /** `s.strip()`: the longest middle part of `s` that neither starts nor
      ends with whitespace; only whitespace is cut off on either side. */
  function Strip(s: string): (r: string)
    ensures exists i, j :: 0 <= i <= j <= |s| && r == s[i..j] && AllSpace(s[..i]) && AllSpace(s[j..])
    ensures r != [] ==> !IsSpace(r[0]) && !IsSpace(r[|r| - 1])
  {
    var t := TrimLeft(s);
    var r := TrimRight(t);
    var i := |s| - |t|;
    assert t == s[i..];
    assert r == s[i..i + |r|];
    assert s[i + |r|..] == t[|r|..];
    r
  }

  /** Stripping leaves a string that has no whitespace at either end as it is. */
  lemma StripKeeps(s: string)
    requires s != [] ==> !IsSpace(s[0]) && !IsSpace(s[|s| - 1])
    ensures Strip(s) == s
  {
  }

  /** `str.lower()` on one character; only ASCII letters change. */
  function LowerChar(c: char): char {
    if 'A' <= c <= 'Z' then (c as int + 32) as char else c
  }

  /** `s.lower()` */
  function Lower(s: string): (r: string)
    ensures |r| == |s|
    ensures forall i :: 0 <= i < |s| ==> r[i] == LowerChar(s[i])
  {
    seq(|s|, i requires 0 <= i < |s| => LowerChar(s[i]))
  }

  /** `s.replace(a, b)` for a one-character pattern. */
  function ReplaceChar(s: string, a: char, b: char): (r: string)
    ensures |r| == |s|
    ensures forall i :: 0 <= i < |s| ==> r[i] == if s[i] == a then b else s[i]
  {
    seq(|s|, i requires 0 <= i < |s| => if s[i] == a then b else s[i])
  }

  /** `p` occurs in `s` at position `i`. */
  predicate OccursAt(s: string, p: string, i: int) {
    0 <= i && i + |p| <= |s| && s[i..i + |p|] == p
  }

  /** `p in s`: case-sensitive substring containment. */
  predicate Contains(s: string, p: string) {
    exists i | 0 <= i <= |s| - |p| :: OccursAt(s, p, i)
  }

  /** A witness position is enough to show containment. */
  lemma ContainsAt(s: string, p: string, i: nat)
    requires OccursAt(s, p, i)
    ensures Contains(s, p)
  {
  }

  /** Containment survives putting text on either side. */
  lemma ContainsExtend(a: string, s: string, b: string, p: string)
    requires Contains(s, p)
    ensures Contains(a + s + b, p)
  {
    var i :| 0 <= i <= |s| - |p| && OccursAt(s, p, i);
    assert (a + s + b)[|a| + i..|a| + i + |p|] == s[i..i + |p|];
    assert OccursAt(a + s + b, p, |a| + i);
  }

  /** A string that lacks one of the characters of a pattern does not
      contain the pattern. */
  lemma NotContainsChar(s: string, p: string, j: nat)
    requires j < |p| && Lacks(s, p[j])
    ensures !Contains(s, p)
  {
    forall i | 0 <= i <= |s| - |p|
      ensures !OccursAt(s, p, i)
    {
      assert s[i..i + |p|][j] != p[j];
    }
  }

  /** Replacing a character the pattern does not contain keeps each
      occurrence of the pattern. */
  lemma ReplaceKeepsOccurrence(s: string, a: char, b: char, p: string, i: nat)
    requires OccursAt(s, p, i) && a !in p
    ensures OccursAt(ReplaceChar(s, a, b), p, i)
  {
    var r := ReplaceChar(s, a, b);
    forall k | 0 <= k < |p|
      ensures r[i + k] == p[k]
    {
      assert s[i..i + |p|][k] == p[k];
    }
    assert r[i..i + |p|] == p;
  }

  /** `c` does not occur in `s`. */
  predicate Lacks(s: string, c: char) {
    forall i :: 0 <= i < |s| ==> s[i] != c
  }

  /** Lower-casing yields a small letter only from that letter or its
      capital. */
  lemma LowerCharIs(c: char, x: char)
    requires 'a' <= x <= 'z'
    ensures LowerChar(c) == x ==> c == x || c as int == x as int - 32
  {
    if 'A' <= c <= 'Z' && LowerChar(c) == x {
      assert (c as int + 32) as char == x;
      assert c as int + 32 == x as int;
    }
  }

  /** A text with neither case of a letter has no such letter once
      lower-cased. */
  lemma LowerLacks(s: string, x: char)
    requires 'a' <= x <= 'z' && Lacks(s, x) && Lacks(s, (x as int - 32) as char)
    ensures Lacks(Lower(s), x)
  {
    forall i | 0 <= i < |s|
      ensures Lower(s)[i] != x
    {
      LowerCharIs(s[i], x);
    }
  }

  /** Replacing one character by another that is not `x` brings in no `x`. */
  lemma ReplaceLacks(s: string, a: char, b: char, x: char)
    requires Lacks(s, x) && b != x
    ensures Lacks(ReplaceChar(s, a, b), x)
  {
  }
}
