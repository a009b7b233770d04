/**
 * Character classes and string operations that the application borrows from
 * JavaScript: `String.prototype.replace` with a global one-character pattern,
 * `startsWith`, `trim`, and the ordering that the sorts use.
 */
module Strings {

  /** The class `\d` of a JavaScript regular expression without the `u` flag. */
  predicate IsDigit(c: char) {
    '0' <= c <= '9'
  }

  /** The line terminators that `.` in a JavaScript regular expression does not match. */
  predicate IsLineTerminator(c: char) {
    c == '\n' || c == '\r' || c == '\U{2028}' || c == '\U{2029}'
  }

  /** The characters that `String.prototype.trim` removes: white space and line terminators. */
  predicate IsTrimmable(c: char) {
    || c == '\t' || c == '\U{000B}' || c == '\U{000C}' || c == ' ' || c == '\U{00A0}' || c == '\U{FEFF}'
    || c == '\U{1680}' || ('\U{2000}' <= c <= '\U{200A}') || c == '\U{202F}' || c == '\U{205F}' || c == '\U{3000}'
    || IsLineTerminator(c)
  }

  predicate StartsWith(s: string, prefix: string) {
    |prefix| <= |s| && s[..|prefix|] == prefix
  }

  /** `s.replace(/x/g, y)` for single characters `x` and `y`. */
  function ReplaceChar(s: string, x: char, y: char): (r: string)
    ensures |r| == |s|
  {
    if s == [] then [] else [if s[0] == x then y else s[0]] + ReplaceChar(s[1..], x, y)
  }

  lemma {:induction false} ReplaceCharAt(s: string, x: char, y: char, i: int)
    requires 0 <= i < |s|
    ensures ReplaceChar(s, x, y)[i] == if s[i] == x then y else s[i]
  {
    if i > 0 {
      ReplaceCharAt(s[1..], x, y, i - 1);
    }
  }

  /** After the replacement no `x` is left, as long as `x` is not its own replacement. */
  lemma ReplaceCharRemoves(s: string, x: char, y: char)
    requires x != y
    ensures x !in ReplaceChar(s, x, y)
  {
    var r := ReplaceChar(s, x, y);
    forall i | 0 <= i < |r| ensures r[i] != x {
      ReplaceCharAt(s, x, y, i);
    }
  }

  /** Replacing `x` by `y` and then `y` by `z` is the same as replacing both by `z`. */
  lemma {:induction false} ReplaceCharTwice(s: string, x: char, y: char, z: char)
    ensures ReplaceChar(ReplaceChar(s, x, y), y, z)
         == ReplaceChar(ReplaceChar(s, x, z), y, z)
  {
    if s != [] {
      ReplaceCharTwice(s[1..], x, y, z);
      assert ReplaceChar(s, x, y)[1..] == ReplaceChar(s[1..], x, y);
      assert ReplaceChar(s, x, z)[1..] == ReplaceChar(s[1..], x, z);
    }
  }

  /** A string without `x` is left as it is. */
  lemma {:induction false} ReplaceCharAbsent(s: string, x: char, y: char)
    requires x !in s
    ensures ReplaceChar(s, x, y) == s
  {
    if s != [] {
      ReplaceCharAbsent(s[1..], x, y);
    }
  }

  /** Replacing a character by itself changes nothing. */
  lemma ReplaceCharSame(s: string, x: char)
    ensures ReplaceChar(s, x, x) == s
  {
    forall i | 0 <= i < |s| ensures ReplaceChar(s, x, x)[i] == s[i] {
      ReplaceCharAt(s, x, x, i);
    }
  }

  lemma {:induction false} ReplaceCharAppend(a: string, b: string, x: char, y: char)
    ensures ReplaceChar(a + b, x, y) == ReplaceChar(a, x, y) + ReplaceChar(b, x, y)
  {
    if a != [] {
      assert (a + b)[0] == a[0] && (a + b)[1..] == a[1..] + b;
      ReplaceCharAppend(a[1..], b, x, y);
      assert ReplaceChar(a, x, y) == [if a[0] == x then y else a[0]] + ReplaceChar(a[1..], x, y);
    } else {
      assert a + b == b;
    }
  }

  /** `s.trimStart()` */
  function TrimStart(s: string): (r: string)
    ensures |r| <= |s|
  {
    if s != [] && IsTrimmable(s[0]) then TrimStart(s[1..]) else s
  }

  /** `s.trimEnd()` */
  function TrimEnd(s: string): (r: string)
    ensures |r| <= |s|
  {
    if s != [] && IsTrimmable(s[|s| - 1]) then TrimEnd(s[..|s| - 1]) else s
  }

  /** `s.trim()` */
  function Trim(s: string): string {
    TrimEnd(TrimStart(s))
  }

  /** A string is blank when every one of its characters is removed by `trim`. */
  predicate IsBlank(s: string) {
    forall i :: 0 <= i < |s| ==> IsTrimmable(s[i])
  }

  lemma {:induction false} TrimStartEmpty(s: string)
    ensures TrimStart(s) == [] <==> IsBlank(s)
  {
    if s != [] {
      TrimStartEmpty(s[1..]);
      if IsTrimmable(s[0]) {
        assert IsBlank(s) <==> IsBlank(s[1..]) by {
          if IsBlank(s[1..]) {
            forall i | 0 <= i < |s| ensures IsTrimmable(s[i]) {
              if i > 0 { assert s[i] == s[1..][i - 1]; }
            }
          }
        }
      }
    }
  }

  lemma {:induction false} TrimEndOfTrimmed(s: string)
    requires s == [] || !IsTrimmable(s[0])
    ensures TrimEnd(s) == [] <==> s == []
  {
    if s != [] && IsTrimmable(s[|s| - 1]) {
      assert |s| > 1;
      TrimEndOfTrimmed(s[..|s| - 1]);
    }
  }

  lemma TrimStartResult(s: string)
    ensures TrimStart(s) == [] || !IsTrimmable(TrimStart(s)[0])
  {
  }

  /** `!s.trim()` and `s.trim() === ""` hold exactly of the blank strings. */
  lemma TrimEmptyIffBlank(s: string)
    ensures Trim(s) == [] <==> IsBlank(s)
  {
    TrimStartEmpty(s);
    TrimStartResult(s);
    TrimEndOfTrimmed(TrimStart(s));
  }

  /** Lexicographic order on characters: the order that the sorts of dates and times rely on. */
  predicate LexLessEq(a: string, b: string)
    decreases |a|
  {
    a == [] || (b != [] && (a[0] < b[0] || (a[0] == b[0] && LexLessEq(a[1..], b[1..]))))
  }

  lemma {:induction false} LexReflexive(a: string)
    ensures LexLessEq(a, a)
  {
    if a != [] {
      LexReflexive(a[1..]);
    }
  }

  lemma {:induction false} LexTotal(a: string, b: string)
    ensures LexLessEq(a, b) || LexLessEq(b, a)
  {
    if a != [] && b != [] && a[0] == b[0] {
      LexTotal(a[1..], b[1..]);
    }
  }

  lemma {:induction false} LexTransitive(a: string, b: string, c: string)
    requires LexLessEq(a, b) && LexLessEq(b, c)
    ensures LexLessEq(a, c)
  {
    if a != [] && a[0] == b[0] && b[0] == c[0] {
      LexTransitive(a[1..], b[1..], c[1..]);
    }
  }

  lemma {:induction false} LexAntisymmetric(a: string, b: string)
    requires LexLessEq(a, b) && LexLessEq(b, a)
    ensures a == b
  {
    if a != [] && b != [] {
      LexAntisymmetric(a[1..], b[1..]);
      assert a == [a[0]] + a[1..] && b == [b[0]] + b[1..];
    }
  }
}
