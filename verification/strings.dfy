/**
 * Text primitives the converter and the player rely on: white-space
 * stripping (Python's `str.strip` and JavaScript's `String.prototype.trim`
 * strip different character sets), ASCII lower-casing, code-point
 * ordering of strings, the decimal form of integers and prefix/suffix tests.
 */
module Strings {
  import opened Wrappers

  /** Whose notion of white space a strip uses. */
  datatype Flavor = Python | JavaScript

  /** Python's `str.isspace` and the ECMAScript WhiteSpace/LineTerminator set. */
  predicate IsSpace(lang: Flavor, c: char) {
    match lang
    case Python =>
      ('\t' <= c <= '\r') || ('\U{1C}' <= c <= '\U{1F}') || c == ' ' || c == '\U{85}'
      || c == '\U{A0}' || c == '\U{1680}' || ('\U{2000}' <= c <= '\U{200A}')
      || c == '\U{2028}' || c == '\U{2029}' || c == '\U{202F}' || c == '\U{205F}' || c == '\U{3000}'
    case JavaScript =>
      ('\t' <= c <= '\r') || c == ' ' || c == '\U{A0}' || c == '\U{1680}'
      || ('\U{2000}' <= c <= '\U{200A}') || c == '\U{2028}' || c == '\U{2029}'
      || c == '\U{202F}' || c == '\U{205F}' || c == '\U{3000}' || c == '\U{FEFF}'
  }

  predicate AllSpace(lang: Flavor, s: string) {
    forall i :: 0 <= i < |s| ==> IsSpace(lang, s[i])
  }

  function StripLeft(lang: Flavor, s: string): (r: string)
    ensures |r| <= |s| && r == s[|s| - |r|..]
    ensures r == [] || !IsSpace(lang, r[0])
    ensures AllSpace(lang, s[..|s| - |r|])
  {
    if |s| > 0 && IsSpace(lang, s[0]) then StripLeft(lang, s[1..]) else s
  }

  function StripRight(lang: Flavor, s: string): (r: string)
    ensures |r| <= |s| && r == s[..|r|]
    ensures r == [] || !IsSpace(lang, r[|r| - 1])
    ensures AllSpace(lang, s[|r|..])
  {
    if |s| > 0 && IsSpace(lang, s[|s| - 1]) then
      var r := StripRight(lang, s[..|s| - 1]);
      assert s[|r|..] == s[..|s| - 1][|r|..] + [s[|s| - 1]];
      r
    else
      s
  }

  /**
   * Removes leading and trailing white space: the result is a slice of `s`
   * with no white space at either end, and everything cut off is white space.
   */
  function Strip(lang: Flavor, s: string): (r: string)
    ensures r == [] || (!IsSpace(lang, r[0]) && !IsSpace(lang, r[|r| - 1]))
    ensures r == [] <==> AllSpace(lang, s)
    ensures |r| <= |s|
  {
    var left := StripLeft(lang, s);
    var r := StripRight(lang, left);
    assert r == [] ==> AllSpace(lang, s) by {
      if r == [] {
        assert left == [];
        assert s[..|s| - |left|] == s;
      }
    }
    r
  }

  lemma {:induction false} StripLeftPadded(lang: Flavor, pre: string, t: string)
    requires AllSpace(lang, pre)
    ensures StripLeft(lang, pre + t) == StripLeft(lang, t)
    decreases |pre|
  {
    if pre != [] {
      assert (pre + t)[0] == pre[0] && IsSpace(lang, pre[0]);
      assert (pre + t)[1..] == pre[1..] + t;
      StripLeftPadded(lang, pre[1..], t);
    } else {
      assert pre + t == t;
    }
  }

  lemma {:induction false} StripRightPadded(lang: Flavor, t: string, post: string)
    requires AllSpace(lang, post)
    ensures StripRight(lang, t + post) == StripRight(lang, t)
    decreases |post|
  {
    if post != [] {
      assert (t + post)[|t + post| - 1] == post[|post| - 1] && IsSpace(lang, post[|post| - 1]);
      assert (t + post)[..|t + post| - 1] == t + post[..|post| - 1];
      StripRightPadded(lang, t, post[..|post| - 1]);
    } else {
      assert t + post == t;
    }
  }

  /** A string with no white space at either end strips to itself. */
  lemma StripFixed(lang: Flavor, s: string)
    requires s == [] || (!IsSpace(lang, s[0]) && !IsSpace(lang, s[|s| - 1]))
    ensures Strip(lang, s) == s
  {
  }

  /** Stripping twice is stripping once. */
  lemma StripIdempotent(lang: Flavor, s: string)
    ensures Strip(lang, Strip(lang, s)) == Strip(lang, s)
  {
    StripFixed(lang, Strip(lang, s));
  }

  /** White space added at either end of a stripped word is removed again. */
  lemma StripPadded(lang: Flavor, pre: string, k: string, post: string)
    requires AllSpace(lang, pre) && AllSpace(lang, post)
    requires k != [] && !IsSpace(lang, k[0]) && !IsSpace(lang, k[|k| - 1])
    ensures Strip(lang, pre + k + post) == k
  {
    StripLeftPadded(lang, pre, k + post);
    assert pre + k + post == pre + (k + post);
    assert StripLeft(lang, k + post) == k + post;
    StripRightPadded(lang, k, post);
  }

  function LowerChar(c: char): char {
    if 'A' <= c <= 'Z' then (c as int + 32) as char else c
  }

  /** Lower-casing; only the ASCII letters are mapped. */
  function Lower(s: string): (r: string)
    ensures |r| == |s|
  {
    seq(|s|, i requires 0 <= i < |s| => LowerChar(s[i]))
  }

  /**
   * What lower-casing does to each character: no capital is left, each
   * capital becomes its small letter, and every other character is kept.
   */
  lemma LowerSpec(s: string)
    ensures forall i | 0 <= i < |s| :: !('A' <= Lower(s)[i] <= 'Z')
    ensures forall i | 0 <= i < |s| && 'A' <= s[i] <= 'Z' :: Lower(s)[i] as int == s[i] as int + 32
    ensures forall i | 0 <= i < |s| && !('A' <= s[i] <= 'Z') :: Lower(s)[i] == s[i]
  {
  }

  /** Lower-casing a lower-cased string changes nothing. */
  lemma LowerIdempotent(s: string)
    ensures Lower(Lower(s)) == Lower(s)
  {
    var l := Lower(s);
    assert forall i | 0 <= i < |l| :: Lower(l)[i] == l[i];
  }

  /** Python's `<` on `str`: lexicographic by code point. */
  predicate StrLess(a: string, b: string) {
    if a == [] then b != []
    else if b == [] then false
    else if a[0] != b[0] then a[0] < b[0]
    else StrLess(a[1..], b[1..])
  }

  lemma {:induction false} StrLessIrreflexive(a: string)
    ensures !StrLess(a, a)
  {
    if a != [] {
      StrLessIrreflexive(a[1..]);
    }
  }

  lemma {:induction false} StrLessTransitive(a: string, b: string, c: string)
    requires StrLess(a, b) && StrLess(b, c)
    ensures StrLess(a, c)
  {
    if a != [] && a[0] == b[0] && b[0] == c[0] {
      StrLessTransitive(a[1..], b[1..], c[1..]);
    }
  }

  lemma {:induction false} StrLessTotal(a: string, b: string)
    ensures a == b || StrLess(a, b) || StrLess(b, a)
  {
    if a != [] && b != [] && a[0] == b[0] {
      StrLessTotal(a[1..], b[1..]);
      if a[1..] == b[1..] {
        assert a == [a[0]] + a[1..] && b == [b[0]] + b[1..];
      }
    }
  }

  predicate IsDigit(c: char) {
    '0' <= c <= '9'
  }

  predicate AllDigits(s: string) {
    forall i :: 0 <= i < |s| ==> IsDigit(s[i])
  }

  function DigitChar(d: nat): (c: char)
    requires d < 10
    ensures IsDigit(c)
  {
    ('0' as int + d) as char
  }

  function DigitsOf(n: nat): (r: string)
    ensures r != [] && AllDigits(r)
    decreases n
  {
    if n < 10 then [DigitChar(n)] else DigitsOf(n / 10) + [DigitChar(n % 10)]
  }

  /** The number a string of decimal digits denotes. */
  function ValueOf(s: string): nat
    requires AllDigits(s)
  {
    if s == [] then 0 else ValueOf(s[..|s| - 1]) * 10 + (s[|s| - 1] as int - '0' as int)
  }

  /** Python's `str(n)` for an integer. */
  function IntToString(n: int): string {
    if n < 0 then "-" + DigitsOf(-n) else DigitsOf(n)
  }

  /** An optionally signed decimal integer, surrounded by optional white space. */
  function ParseInt(s: string): Option<int> {
    var t := Strip(Python, s);
    if |t| > 1 && (t[0] == '-' || t[0] == '+') && AllDigits(t[1..]) then
      var v: int := ValueOf(t[1..]);
      Some(if t[0] == '-' then -v else v)
    else if t != [] && AllDigits(t) then
      Some(ValueOf(t))
    else
      None
  }

  lemma {:induction false} ValueOfDigits(n: nat)
    ensures ValueOf(DigitsOf(n)) == n
    decreases n
  {
    if n >= 10 {
      var d := DigitsOf(n / 10);
      assert (d + [DigitChar(n % 10)])[..|d|] == d;
      ValueOfDigits(n / 10);
    }
  }

  /** The decimal form of an integer reads back as that integer. */
  lemma ParseIntToString(n: int)
    ensures ParseInt(IntToString(n)) == Some(n)
  {
    var s := IntToString(n);
    var d := if n < 0 then DigitsOf(-n) else DigitsOf(n);
    assert !IsSpace(Python, d[|d| - 1]) by { assert IsDigit(d[|d| - 1]); }
    assert !IsSpace(Python, s[0]) by { assert s[0] == '-' || IsDigit(s[0]); }
    assert s[|s| - 1] == d[|d| - 1];
    StripFixed(Python, s);
    if n < 0 {
      assert s[1..] == d;
      ValueOfDigits(-n);
    } else {
      assert !(s[0] == '-' || s[0] == '+') by { assert IsDigit(s[0]); }
      ValueOfDigits(n);
    }
  }

  /** JavaScript's `s.startsWith(p)`, one character at a time. */
  predicate StartsWith(s: string, p: string) {
    p == [] || (s != [] && s[0] == p[0] && StartsWith(s[1..], p[1..]))
  }

  /** JavaScript's `s.endsWith(p)`, one character at a time from the end. */
  predicate EndsWith(s: string, p: string) {
    p == [] || (s != [] && s[|s| - 1] == p[|p| - 1] && EndsWith(s[..|s| - 1], p[..|p| - 1]))
  }

  lemma {:induction false} StartsWithSlice(s: string, p: string)
    ensures StartsWith(s, p) <==> |p| <= |s| && s[..|p|] == p
  {
    if p != [] && s != [] {
      StartsWithSlice(s[1..], p[1..]);
      if |p| <= |s| && s[..|p|] == p {
        assert s[1..][..|p| - 1] == p[1..];
      }
      if s[0] == p[0] && |p| <= |s| && s[1..][..|p| - 1] == p[1..] {
        assert s[..|p|] == [s[0]] + s[1..][..|p| - 1];
        assert p == [p[0]] + p[1..];
      }
    }
  }

  lemma {:induction false} EndsWithSlice(s: string, p: string)
    ensures EndsWith(s, p) <==> |p| <= |s| && s[|s| - |p|..] == p
  {
    if p != [] && s != [] {
      var s', p' := s[..|s| - 1], p[..|p| - 1];
      EndsWithSlice(s', p');
      if |p| <= |s| && s[|s| - |p|..] == p {
        assert s'[|s'| - |p'|..] == s[|s| - |p|..][..|p'|];
      }
      if s[|s| - 1] == p[|p| - 1] && |p'| <= |s'| && s'[|s'| - |p'|..] == p' {
        assert s[|s| - |p|..] == s'[|s'| - |p'|..] + [s[|s| - 1]];
        assert p == p' + [p[|p| - 1]];
      }
    }
  }
}
