/** The handful of Python string operations the core relies on:
    `str.strip()`, `str.split('\n')[0]` and `str(int)`. */
module Text {

  /** `c.isspace()` in Python: the characters `str.strip()` removes. */
  predicate IsSpace(c: char) {
    || c == ' '
    || ('\t' <= c <= '\r')
    || ('\U{1c}' <= c <= '\U{1f}')
    || c == '\U{85}' || c == '\U{a0}' || c == '\U{1680}'
    || ('\U{2000}' <= c <= '\U{200a}')
    || c == '\U{2028}' || c == '\U{2029}' || c == '\U{202f}'
    || c == '\U{205f}' || c == '\U{3000}'
  }

  predicate AllSpace(s: string) {
    forall k :: 0 <= k < |s| ==> IsSpace(s[k])
  }

  predicate StartsWith(s: string, prefix: string) {
    |prefix| <= |s| && s[..|prefix|] == prefix
  }

  /** `s` occurs somewhere inside `t`. */
  predicate Contains(t: string, s: string) {
    exists i {:trigger t[i..]} :: 0 <= i <= |t| - |s| && StartsWith(t[i..], s)
  }

  lemma SliceOfSlice(s: string, a: nat, b: nat, c: nat, d: nat)
    requires a <= b <= |s| && c <= d <= b - a
    ensures s[a..b][c..d] == s[a + c..a + d]
  {
    assert forall k :: 0 <= k < d - c ==> s[a..b][c..d][k] == s[a + c..a + d][k];
  }

  lemma PrefixOfSlice(s: string, a: nat, b: nat, d: nat)
    requires a <= b <= |s| && d <= b - a
    ensures s[a..b][..d] == s[a..a + d]
  {
    assert forall k :: 0 <= k < d ==> s[a..b][..d][k] == s[a..a + d][k];
  }

  lemma ContainsSlice(t: string, i: int, s: string)
    requires 0 <= i <= |t| - |s| && t[i..i + |s|] == s
    ensures Contains(t, s)
  {
    assert StartsWith(t[i..], s);
  }

  /** A text contains itself. */
  lemma ContainsWhole(s: string)
    ensures Contains(s, s)
  {
    ContainsSlice(s, 0, s);
  }

  /** A text contains each piece it is concatenated from. */
  lemma ContainsAt(pre: string, s: string, post: string)
    ensures Contains(pre + s + post, s)
  {
    var t := pre + s + post;
    assert t[|pre|..|pre| + |s|] == s;
    ContainsSlice(t, |pre|, s);
  }

  /** An occurrence inside an occurrence is an occurrence. */
  lemma ContainsTransitive(t: string, u: string, v: string)
    requires Contains(t, u) && Contains(u, v)
    ensures Contains(t, v)
  {
    var i :| 0 <= i <= |t| - |u| && StartsWith(t[i..], u);
    var j :| 0 <= j <= |u| - |v| && StartsWith(u[j..], v);
    forall k | 0 <= k < |v|
      ensures t[i + j + k] == v[k]
    {
      assert u[j..][..|v|][k] == u[j + k];
      assert t[i..][..|u|][j + k] == t[i + j + k];
    }
    assert t[i + j..][..|v|] == v;
    assert StartsWith(t[i + j..], v);
  }

  /** `s.lstrip()`: the suffix left after dropping leading white space. */
  function TrimStart(s: string): (r: string)
    ensures |r| <= |s| && r == s[|s| - |r|..]
    ensures AllSpace(s[..|s| - |r|])
    ensures r == [] || !IsSpace(r[0])
  {
    if |s| > 0 && IsSpace(s[0]) then
      var r := TrimStart(s[1..]);
      assert s[1..][..|s| - 1 - |r|] == s[1..|s| - |r|];
      r
    else s
  }

  /** `s.rstrip()`: the prefix left after dropping trailing white space. */
  function TrimEnd(s: string): (r: string)
    ensures |r| <= |s| && r == s[..|r|]
    ensures AllSpace(s[|r|..])
    ensures r == [] || !IsSpace(r[|r| - 1])
  {
    if |s| > 0 && IsSpace(s[|s| - 1]) then
      var r := TrimEnd(s[..|s| - 1]);
      assert s[|r|..] == s[..|s| - 1][|r|..] + [s[|s| - 1]];
      r
    else s
  }

  /** `r` is the slice of `s` starting at `i`, with only white space around it. */
  predicate Padded(s: string, i: int, r: string) {
    0 <= i <= |s| - |r| && r == s[i..i + |r|] && AllSpace(s[..i]) && AllSpace(s[i + |r|..])
  }

  /** `s.strip()`. The result is the unique slice of `s` that is surrounded
      by white space only and neither begins nor ends with white space. */
  function Strip(s: string): (r: string)
    ensures r == [] || (!IsSpace(r[0]) && !IsSpace(r[|r| - 1]))
    ensures exists i :: Padded(s, i, r)
  {
    var t := TrimStart(s);
    var r := TrimEnd(t);
    TrimmedPadded(s, t, r);
    r
  }

  /** A prefix of a suffix, with white space only on either side, is padded. */
  lemma TrimmedPadded(s: string, t: string, r: string)
    requires |t| <= |s| && t == s[|s| - |t|..] && AllSpace(s[..|s| - |t|])
    requires |r| <= |t| && r == t[..|r|] && AllSpace(t[|r|..])
    ensures Padded(s, |s| - |t|, r)
  {
    var i := |s| - |t|;
    assert r == s[i..i + |r|];
    assert s[i + |r|..] == t[|r|..];
  }

  /** `s.split('\n')[0]`: everything before the first line break. */
  function FirstLine(s: string): (r: string)
    ensures |r| <= |s| && r == s[..|r|]
    ensures '\n' !in r
    ensures |r| == |s| || s[|r|] == '\n'
  {
    if s == [] || s[0] == '\n' then []
    else
      var r := [s[0]] + FirstLine(s[1..]);
      assert '\n' !in r by {
        assert forall k :: 1 <= k < |r| ==> r[k] == FirstLine(s[1..])[k - 1];
      }
      r
  }

  /** Text without surrounding white space is left as it is. */
  lemma StripTrimmed(s: string)
    requires s == [] || (!IsSpace(s[0]) && !IsSpace(s[|s| - 1]))
    ensures Strip(s) == s
  {
    assert TrimStart(s) == s;
  }

  /** A prefix of the padded slice occurs in the text. */
  lemma PrefixOfPadded(s: string, i: int, t: string, r: string)
    requires Padded(s, i, t) && |r| <= |t| && r == t[..|r|]
    ensures Contains(s, r)
  {
    PrefixOfSlice(s, i, i + |t|, |r|);
    ContainsSlice(s, i, r);
  }

  /** The first line of the stripped text is a piece of the text that
      does not start with white space. */
  lemma StripFirstLine(s: string)
    ensures Contains(s, FirstLine(Strip(s)))
    ensures FirstLine(Strip(s)) == [] || !IsSpace(FirstLine(Strip(s))[0])
  {
    var t := Strip(s);
    var r := FirstLine(t);
    var i :| Padded(s, i, t);
    PrefixOfPadded(s, i, t, r);
    if r != [] {
      assert r[0] == t[0];
    }
  }

  lemma FirstLineWhole(s: string)
    requires '\n' !in s
    ensures FirstLine(s) == s
  {
  }

  predicate IsDigit(c: char) {
    '0' <= c <= '9'
  }

  predicate AllDigits(s: string) {
    forall k :: 0 <= k < |s| ==> IsDigit(s[k])
  }

  function DigitChar(d: nat): (c: char)
    requires d < 10
    ensures IsDigit(c) && c as int - '0' as int == d
  {
    ('0' as int + d) as char
  }

  function DigitValue(c: char): (d: nat)
    requires IsDigit(c)
    ensures d < 10 && DigitChar(d) == c
  {
    c as int - '0' as int
  }

  /** The decimal digits of `n`, most significant first, without leading zeros. */
  function Digits(n: nat): (r: string)
    ensures |r| >= 1 && AllDigits(r)
    ensures r[0] == '0' ==> n == 0 && r == "0"
  {
    if n < 10 then [DigitChar(n)]
    else
      var r := Digits(n / 10) + [DigitChar(n % 10)];
      assert r[0] == Digits(n / 10)[0];
      r
  }

  /** The number a string of decimal digits denotes (leading zeros allowed). */
  function DigitsValue(s: string): nat
    requires AllDigits(s)
  {
    if s == [] then 0
    else DigitsValue(s[..|s| - 1]) * 10 + DigitValue(s[|s| - 1])
  }

  lemma {:induction false} DigitsRoundTrip(n: nat)
    ensures DigitsValue(Digits(n)) == n
  {
    if n >= 10 {
      var r := Digits(n);
      assert r[..|r| - 1] == Digits(n / 10);
      DigitsRoundTrip(n / 10);
    }
  }

  /** A number is written with no more digits than any digit string that
      denotes it. */
  lemma {:induction false} DigitsOfValue(w: string)
    requires AllDigits(w) && w != []
    ensures |Digits(DigitsValue(w))| <= |w|
    decreases |w|
  {
    var v := DigitsValue(w);
    if v >= 10 {
      var init := w[..|w| - 1];
      assert v / 10 == DigitsValue(init);
      DigitsOfValue(init);
    }
  }

  /** Python's `str(i)` for an integer. */
  function IntToString(i: int): string {
    if i < 0 then "-" + Digits(-i) else Digits(i)
  }
}
