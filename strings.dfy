/**
 * The few JavaScript string operations the core relies on:
 * `startsWith`, `includes`, `split('.').pop()`, `toLowerCase` and `trim`.
 */
module Strings {

  /** `s.startsWith(p)`. */
  predicate StartsWith(s: string, p: string) {
    |p| <= |s| && s[..|p|] == p
  }

  /** `s.includes(sub)`: `sub` occurs somewhere in `s`. */
  predicate Contains(s: string, sub: string)
    decreases |s|
  {
    StartsWith(s, sub) || (s != [] && Contains(s[1..], sub))
  }

  lemma {:induction false} ContainsInMiddle(a: string, sub: string, b: string)
    ensures Contains(a + sub + b, sub)
    decreases |a|
  {
    if a == [] {
      assert (a + sub + b)[..|sub|] == sub;
    } else {
      assert (a + sub + b)[1..] == a[1..] + sub + b;
      ContainsInMiddle(a[1..], sub, b);
    }
  }

  /** A string without the character `c` contains no string that has `c` in it. */
  lemma {:induction false} NotContainsMissingChar(s: string, sub: string, c: char)
    requires c !in s && c in sub
    ensures !Contains(s, sub)
    decreases |s|
  {
    var i :| 0 <= i < |sub| && sub[i] == c;
    assert |sub| <= |s| ==> s[..|sub|][i] == s[i];
    if s != [] {
      assert forall k :: 0 <= k < |s[1..]| ==> s[1..][k] == s[k + 1];
      NotContainsMissingChar(s[1..], sub, c);
    }
  }

  /** Position of the first `c` in `s`. */
  function IndexOf(s: string, c: char): (i: nat)
    requires c in s
    ensures i < |s| && s[i] == c && c !in s[..i]
  {
    if s[0] == c then 0 else 1 + IndexOf(s[1..], c)
  }

  lemma IndexOfAfterPrefix(p: string, c: char, rest: string)
    requires c !in p
    ensures c in p + [c] + rest && IndexOf(p + [c] + rest, c) == |p|
  {
    var s := p + [c] + rest;
    assert s[|p|] == c;
    var i := IndexOf(s, c);
    assert forall k :: 0 <= k < |p| ==> s[k] == p[k];
    assert forall k :: 0 <= k < i ==> s[..i][k] == s[k];
  }

  /**
   * `s.split('.').pop()`: the text after the last '.', or the whole string when
   * it has no '.'. The three postconditions say that the result is the longest
   * suffix of `s` without a '.'.
   */
  function AfterLastDot(s: string): (r: string)
    ensures '.' !in r
    ensures |r| <= |s| && r == s[|s| - |r|..]
    ensures |r| < |s| ==> s[|s| - |r| - 1] == '.'
    decreases |s|
  {
    if s == [] then []
    else if s[|s| - 1] == '.' then []
    else
      var p := s[..|s| - 1];
      var t := AfterLastDot(p);
      assert s[|s| - |t| - 1..] == p[|p| - |t|..] + [s[|s| - 1]];
      t + [s[|s| - 1]]
  }

  /** The suffix that AfterLastDot's postconditions describe is unique. */
  lemma {:induction false} AfterLastDotUnique(s: string, r: string)
    requires '.' !in r && |r| <= |s| && r == s[|s| - |r|..]
    requires |r| < |s| ==> s[|s| - |r| - 1] == '.'
    ensures AfterLastDot(s) == r
    decreases |s|, 1
  {
    if r != [] {
      AfterLastDotUniqueStep(s, r);
    }
  }

  /** The inductive step of AfterLastDotUnique: both drop the last character. */
  lemma {:induction false} AfterLastDotUniqueStep(s: string, r: string)
    requires r != [] && '.' !in r && |r| <= |s| && r == s[|s| - |r|..]
    requires |r| < |s| ==> s[|s| - |r| - 1] == '.'
    ensures AfterLastDot(s) == r
    decreases |s|, 0
  {
    var p, r' := s[..|s| - 1], r[..|r| - 1];
    SuffixWithoutLast(s, r);
    assert '.' !in r' by {
      assert forall k :: 0 <= k < |r'| ==> r'[k] == r[k];
    }
    AfterLastDotUnique(p, r');
    assert s[|s| - 1] != '.';
  }

  /** Dropping the last character of a string and of a non-empty suffix of it. */
  lemma SuffixWithoutLast(s: string, r: string)
    requires r != [] && |r| <= |s| && r == s[|s| - |r|..]
    ensures r[|r| - 1] == s[|s| - 1]
    ensures r == r[..|r| - 1] + [s[|s| - 1]]
    ensures r[..|r| - 1] == s[..|s| - 1][|s| - |r|..]
    ensures |r| < |s| ==> s[..|s| - 1][|s| - |r| - 1] == s[|s| - |r| - 1]
  {
    var n, m := |s|, |r|;
    assert forall k :: 0 <= k < m ==> r[k] == s[n - m + k];
    var t := s[..n - 1][n - m..];
    assert forall k :: 0 <= k < m - 1 ==> t[k] == s[n - m + k];
  }

  lemma AfterLastDotOfName(base: string, ext: string)
    requires '.' !in ext
    ensures AfterLastDot(base + "." + ext) == ext
  {
    var s := base + "." + ext;
    assert s[|s| - |ext|..] == ext;
    assert s[|s| - |ext| - 1] == '.';
    AfterLastDotUnique(s, ext);
  }

  lemma AfterLastDotWithoutDot(s: string)
    requires '.' !in s
    ensures AfterLastDot(s) == s
  {
    assert s[|s| - |s|..] == s;
    AfterLastDotUnique(s, s);
  }

  /** `toLowerCase` on one character, for the letters A to Z. */
  function LowerChar(c: char): (d: char)
    ensures d == '.' <==> c == '.'
  {
    if 'A' <= c <= 'Z' then (c as int + 32) as char else c
  }

  function ToLower(s: string): (r: string)
    ensures |r| == |s|
    ensures forall i :: 0 <= i < |s| ==> r[i] == LowerChar(s[i])
  {
    seq(|s|, i requires 0 <= i < |s| => LowerChar(s[i]))
  }

  /** Lower-casing and taking the last '.'-separated part commute. */
  lemma {:induction false} AfterLastDotToLower(s: string)
    ensures AfterLastDot(ToLower(s)) == ToLower(AfterLastDot(s))
    decreases |s|
  {
    var ls := ToLower(s);
    if s != [] {
      var c := s[|s| - 1];
      assert ls[|ls| - 1] == LowerChar(c);
      if c != '.' {
        var p := s[..|s| - 1];
        assert ls[..|ls| - 1] == ToLower(p);
        AfterLastDotToLower(p);
        var t := AfterLastDot(p);
        assert AfterLastDot(s) == t + [c];
        assert AfterLastDot(ls) == ToLower(t) + [LowerChar(c)];
        ToLowerAppend(t, c);
      }
    }
  }

  lemma ToLowerAppend(s: string, c: char)
    ensures ToLower(s + [c]) == ToLower(s) + [LowerChar(c)]
  {
    var l, r := ToLower(s + [c]), ToLower(s) + [LowerChar(c)];
    assert forall i :: 0 <= i < |s| ==> l[i] == LowerChar(s[i]) == r[i];
  }

  lemma ToLowerIdempotent(s: string)
    ensures ToLower(ToLower(s)) == ToLower(s)
  {
  }

  /**
   * The characters `String.prototype.trim` removes: the ECMAScript WhiteSpace
   * and LineTerminator code points.
   */
  predicate IsJsWhitespace(c: char) {
    var n := c as int;
    n == 0x09 || n == 0x0A || n == 0x0B || n == 0x0C || n == 0x0D || n == 0x20
    || n == 0xA0 || n == 0x1680 || (0x2000 <= n <= 0x200A)
    || n == 0x2028 || n == 0x2029 || n == 0x202F || n == 0x205F || n == 0x3000 || n == 0xFEFF
  }

  predicate Blank(s: string) {
    forall i :: 0 <= i < |s| ==> IsJsWhitespace(s[i])
  }

  function TrimStart(s: string): (r: string)
    ensures |r| <= |s| && r == s[|s| - |r|..]
    ensures r != [] ==> !IsJsWhitespace(r[0])
    ensures Blank(s[..|s| - |r|])
  {
    if s != [] && IsJsWhitespace(s[0]) then TrimStart(s[1..]) else s
  }

  function TrimEnd(s: string): (r: string)
    ensures |r| <= |s| && r == s[..|r|]
    ensures r != [] ==> !IsJsWhitespace(r[|r| - 1])
    ensures Blank(s[|r|..])
  {
    if s != [] && IsJsWhitespace(s[|s| - 1]) then TrimEnd(s[..|s| - 1]) else s
  }

  /** `s.trim()`. */
  function Trim(s: string): string {
    TrimEnd(TrimStart(s))
  }

  /** `!s.trim()` holds exactly when every character of `s` is whitespace. */
  lemma TrimEmptyIffBlank(s: string)
    ensures Trim(s) == [] <==> Blank(s)
  {
    if Blank(s) {
      BlankTrimsEmpty(s);
    } else {
      TrimStartKeepsNonBlank(s);
      TrimEndKeepsNonBlank(TrimStart(s));
    }
  }

  lemma {:induction false} BlankTrimsEmpty(s: string)
    requires Blank(s)
    ensures TrimStart(s) == []
    decreases |s|
  {
    if s != [] {
      assert forall j :: 0 <= j < |s| - 1 ==> s[1..][j] == s[j + 1];
      BlankTrimsEmpty(s[1..]);
    }
  }

  lemma {:induction false} TrimStartKeepsNonBlank(s: string)
    requires !Blank(s)
    ensures !Blank(TrimStart(s))
    decreases |s|
  {
    var i :| 0 <= i < |s| && !IsJsWhitespace(s[i]);
    if IsJsWhitespace(s[0]) {
      assert s[1..][i - 1] == s[i];
      TrimStartKeepsNonBlank(s[1..]);
    }
  }

  lemma TrimEndKeepsNonBlank(s: string)
    requires !Blank(s)
    ensures TrimEnd(s) != []
  {
    var u := TrimEnd(s);
    assert s[0..] == s;
  }
}
