/**
 * The few JavaScript string built-ins the chat front end relies on:
 * `String.prototype.trim`, the regular-expression classes `\s` and `\d`,
 * decimal rendering of a number and the digit scan of `parseInt`.
 * Strings are sequences of Unicode scalar values.
 */
module JsText {

  import opened Wrappers

  /** ECMAScript white space and line terminators: what `trim` strips and what `\s` matches. */
  const Whitespace: set<char> := {
    ' ', '\t', '\n', '\r', '\U{B}', '\U{C}', '\U{A0}', '\U{1680}',
    '\U{2000}', '\U{2001}', '\U{2002}', '\U{2003}', '\U{2004}', '\U{2005}',
    '\U{2006}', '\U{2007}', '\U{2008}', '\U{2009}', '\U{200A}',
    '\U{2028}', '\U{2029}', '\U{202F}', '\U{205F}', '\U{3000}', '\U{FEFF}'
  }

  predicate IsWhitespace(c: char) {
    c in Whitespace
  }

  /** A string that `trim` turns into the empty string (JavaScript: `!s.trim()`). */
  predicate IsBlank(s: string) {
    forall i :: 0 <= i < |s| ==> IsWhitespace(s[i])
  }

  /** Neither end of `s` is white space. */
  predicate IsTrimmed(s: string) {
    s == [] || (!IsWhitespace(s[0]) && !IsWhitespace(s[|s| - 1]))
  }

  /** `s` with its leading white space removed. */
  function TrimStart(s: string): string {
    if s != [] && IsWhitespace(s[0]) then TrimStart(s[1..]) else s
  }

  /** `TrimStart` removes a blank prefix and stops at the first other character. */
  lemma {:induction false} TrimStartCuts(s: string)
    ensures var r := TrimStart(s);
      |r| <= |s| && r == s[|s| - |r|..] && IsBlank(s[..|s| - |r|]) && (r == [] || !IsWhitespace(r[0]))
  {
    if s != [] && IsWhitespace(s[0]) {
      TrimStartCuts(s[1..]);
      var r := TrimStart(s);
      assert s[..|s| - |r|] == [s[0]] + s[1..][..|s| - 1 - |r|];
    }
  }

  /** `s` with its trailing white space removed. */
  function TrimEnd(s: string): string {
    if s != [] && IsWhitespace(s[|s| - 1]) then TrimEnd(s[..|s| - 1]) else s
  }

  /** `TrimEnd` removes a blank suffix and stops at the last other character. */
  lemma {:induction false} TrimEndCuts(s: string)
    ensures var r := TrimEnd(s);
      |r| <= |s| && r == s[..|r|] && IsBlank(s[|r|..]) && (r == [] || !IsWhitespace(r[|r| - 1]))
  {
    if s != [] && IsWhitespace(s[|s| - 1]) {
      TrimEndCuts(s[..|s| - 1]);
      var r := TrimEnd(s);
      assert s[|r|..] == s[..|s| - 1][|r|..] + [s[|s| - 1]];
    }
  }

  /** A concatenation is blank exactly when both halves are. */
  lemma BlankConcat(a: string, b: string)
    ensures IsBlank(a + b) <==> IsBlank(a) && IsBlank(b)
  {
    if IsBlank(a + b) {
      forall i | 0 <= i < |a| ensures IsWhitespace(a[i]) {
        assert a[i] == (a + b)[i];
      }
      forall i | 0 <= i < |b| ensures IsWhitespace(b[i]) {
        assert b[i] == (a + b)[|a| + i];
      }
    }
    if IsBlank(a) && IsBlank(b) {
      forall i | 0 <= i < |a + b| ensures IsWhitespace((a + b)[i]) {
        if i < |a| { assert (a + b)[i] == a[i]; } else { assert (a + b)[i] == b[i - |a|]; }
      }
    }
  }

  /** `String.prototype.trim`: the middle of `s` between its leading and trailing white space. */
  function Trim(s: string): (r: string)
    ensures IsTrimmed(r)
    ensures r == [] <==> IsBlank(s)
  {
    var t := TrimStart(s);
    var r := TrimEnd(t);
    TrimStartCuts(s);
    TrimEndCuts(t);
    TrimSplits(s, s[..|s| - |t|], t, r, t[|r|..]);
    r
  }

  /** The pieces `trim` cuts `s` into: blank `lead`, the result `r`, blank `trail`. */
  lemma TrimSplits(s: string, lead: string, t: string, r: string, trail: string)
    requires |t| <= |s| && t == s[|s| - |t|..] && lead == s[..|s| - |t|]
    requires |r| <= |t| && r == t[..|r|] && trail == t[|r|..]
    requires IsBlank(lead) && IsBlank(trail)
    requires r == [] || (!IsWhitespace(t[0]) && !IsWhitespace(r[|r| - 1]))
    ensures IsTrimmed(r)
    ensures r == [] <==> IsBlank(s)
    ensures s == lead + r + trail
  {
    assert t == r + trail;
    assert s == lead + t;
    BlankConcat(lead, t);
    BlankConcat(r, trail);
    if r != [] {
      assert r[0] == t[0];
    }
  }

  /** `trim` keeps the middle of `s` intact: `s` is a blank prefix, the result, and a blank suffix. */
  lemma TrimKeepsMiddle(s: string)
    ensures exists lead, trail :: s == lead + Trim(s) + trail && IsBlank(lead) && IsBlank(trail)
  {
    var t := TrimStart(s);
    var r := TrimEnd(t);
    TrimStartCuts(s);
    TrimEndCuts(t);
    TrimSplits(s, s[..|s| - |t|], t, r, t[|r|..]);
  }

  /** Trimming is idempotent. */
  lemma TrimIdempotent(s: string)
    ensures Trim(Trim(s)) == Trim(s)
  {
    var r := Trim(s);
    assert TrimStart(r) == r;
    assert TrimEnd(r) == r;
  }

  predicate IsDigit(c: char) {
    '0' <= c <= '9'
  }

  predicate AllDigits(s: string) {
    forall i :: 0 <= i < |s| ==> IsDigit(s[i])
  }

  function DigitValue(c: char): (d: nat)
    requires IsDigit(c)
    ensures d < 10
  {
    c as int - '0' as int
  }

  function DigitChar(d: nat): (c: char)
    requires d < 10
    ensures IsDigit(c) && DigitValue(c) == d
  {
    ('0' as int + d) as char
  }

  /** The value of a string of decimal digits, most significant first. */
  function DecimalValue(ds: string): nat
    requires AllDigits(ds)
    decreases |ds|
  {
    if ds == [] then 0 else DecimalValue(ds[..|ds| - 1]) * 10 + DigitValue(ds[|ds| - 1])
  }

  /** The canonical decimal rendering of `n`, as JavaScript prints a safe integer. */
  function NatToDecimal(n: nat): (ds: string)
    ensures ds != [] && AllDigits(ds)
    ensures ds[0] == '0' ==> ds == "0"
    ensures DecimalValue(ds) == n
  {
    if n < 10 then [DigitChar(n)]
    else
      var front := NatToDecimal(n / 10);
      var ds := front + [DigitChar(n % 10)];
      assert ds[..|ds| - 1] == front;
      ds
  }

  /** The longest prefix of `s` made of decimal digits. */
  function LeadingDigits(s: string): (ds: string)
    ensures AllDigits(ds)
    ensures ds <= s && (|ds| == |s| || !IsDigit(s[|ds|]))
  {
    if s != [] && IsDigit(s[0]) then [s[0]] + LeadingDigits(s[1..]) else []
  }

  /**
   * `parseInt(s)` for strings over digits, commas and white space (the only
   * strings it is given here): leading white space is skipped, then the run
   * of digits is read; with no digit the result is NaN, here `None`.
   */
  function ParseInt(s: string): (v: Option<nat>)
    ensures var t := TrimStart(s);
      v.None? <==> t == [] || !IsDigit(t[0])
    ensures v.Some? ==> v.value == DecimalValue(LeadingDigits(TrimStart(s)))
  {
    var ds := LeadingDigits(TrimStart(s));
    if ds == [] then None else Some(DecimalValue(ds))
  }

  /** The index of the first occurrence of `c` in `s`, if any. */
  function IndexOf(s: string, c: char): (r: Option<nat>)
    ensures r.Some? ==> r.value < |s| && s[r.value] == c && c !in s[..r.value]
    ensures r.None? ==> c !in s
  {
    if s == [] then None
    else if s[0] == c then Some(0)
    else
      match IndexOf(s[1..], c)
      case Some(i) => assert s[..i + 1] == [s[0]] + s[1..][..i]; Some(i + 1)
      case None => None
  }
}
