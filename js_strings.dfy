/**
 * The JavaScript string operations the quotation form relies on:
 * `String(n)` of a non-negative integer, `padStart`, and `trim`.
 */
module JsStrings {

  function Pow10(k: nat): (p: nat)
    ensures p >= 1
  {
    if k == 0 then 1 else 10 * Pow10(k - 1)
  }

  predicate IsDigit(c: char)
  {
    '0' <= c <= '9'
  }

  predicate IsDigits(s: string)
  {
    forall i :: 0 <= i < |s| ==> IsDigit(s[i])
  }

  function DigitChar(d: nat): (c: char)
    requires d < 10
    ensures IsDigit(c) && c as int - '0' as int == d
  {
    ('0' as int + d) as char
  }

  /** Reads a string of decimal digits as a number (the inverse of `DecimalString`). */
  function DecimalValue(s: string): nat
    requires IsDigits(s)
    decreases |s|
  {
    if |s| == 0 then 0
    else DecimalValue(s[..|s| - 1]) * 10 + (s[|s| - 1] as int - '0' as int)
  }

  /** `String(n)` for a non-negative integer: its decimal digits, no leading zero. */
  function DecimalString(n: nat): (s: string)
    ensures IsDigits(s) && DecimalValue(s) == n
    ensures 1 <= |s| && n < Pow10(|s|)
    ensures |s| > 1 ==> Pow10(|s| - 1) <= n && s[0] != '0'
    decreases n
  {
    if n < 10 then [DigitChar(n)]
    else
      var prefix := DecimalString(n / 10);
      var s := prefix + [DigitChar(n % 10)];
      assert s[..|s| - 1] == prefix;
      s
  }

  function Repeat(c: char, k: nat): (r: string)
    ensures |r| == k && forall i :: 0 <= i < k ==> r[i] == c
  {
    if k == 0 then [] else [c] + Repeat(c, k - 1)
  }

  /** `s.padStart(n, c)`: left-pads with `c` up to length `n`; longer strings are unchanged. */
  function PadStart(s: string, n: nat, c: char): (r: string)
    ensures |r| == if |s| >= n then |s| else n
    ensures r[|r| - |s|..] == s
    ensures forall i :: 0 <= i < |r| - |s| ==> r[i] == c
  {
    if |s| >= n then s else Repeat(c, n - |s|) + s
  }

  /** A leading zero does not change a decimal value. */
  lemma {:induction false} LeadingZero(s: string)
    requires IsDigits(s)
    ensures IsDigits(['0'] + s) && DecimalValue(['0'] + s) == DecimalValue(s)
    decreases |s|
  {
    var t := ['0'] + s;
    if |s| > 0 {
      assert t[..|t| - 1] == ['0'] + s[..|s| - 1];
      LeadingZero(s[..|s| - 1]);
    }
  }

  /** Zero padding does not change a decimal value. */
  lemma {:induction false} ZeroPadding(s: string, k: nat)
    requires IsDigits(s)
    ensures IsDigits(Repeat('0', k) + s) && DecimalValue(Repeat('0', k) + s) == DecimalValue(s)
    decreases k
  {
    if k == 0 {
      assert Repeat('0', k) + s == s;
    } else {
      ZeroPadding(s, k - 1);
      assert Repeat('0', k) + s == ['0'] + (Repeat('0', k - 1) + s);
      LeadingZero(Repeat('0', k - 1) + s);
    }
  }

  /** Zero-padding a number's decimal string reads back as the number. */
  lemma PaddedDecimalValue(n: nat, width: nat)
    ensures IsDigits(PadStart(DecimalString(n), width, '0'))
    ensures DecimalValue(PadStart(DecimalString(n), width, '0')) == n
  {
    var s := DecimalString(n);
    if |s| < width {
      ZeroPadding(s, width - |s|);
    }
  }

  /**
   * The characters `String.prototype.trim` strips: the ECMAScript WhiteSpace
   * and LineTerminator code points.
   */
  predicate IsJsWhitespace(c: char)
  {
    || c == '\t' || c == '\n' || c == '\U{B}' || c == '\U{C}' || c == '\r' || c == ' '
    || c == '\U{A0}' || c == '\U{1680}' || ('\U{2000}' <= c <= '\U{200A}')
    || c == '\U{2028}' || c == '\U{2029}' || c == '\U{202F}' || c == '\U{205F}'
    || c == '\U{3000}' || c == '\U{FEFF}'
  }

  predicate IsBlank(s: string)
  {
    forall i :: 0 <= i < |s| ==> IsJsWhitespace(s[i])
  }

  /** Drops leading whitespace. */
  function TrimStart(s: string): (r: string)
    ensures |r| <= |s| && r == s[|s| - |r|..]
    ensures IsBlank(s[..|s| - |r|])
    ensures r == [] || !IsJsWhitespace(r[0])
    decreases |s|
  {
    if |s| > 0 && IsJsWhitespace(s[0]) then
      var r := TrimStart(s[1..]);
      assert s[..|s| - |r|] == [s[0]] + s[1..][..|s[1..]| - |r|];
      r
    else s
  }

  /** Drops trailing whitespace. */
  function TrimEnd(s: string): (r: string)
    ensures |r| <= |s| && r == s[..|r|]
    ensures IsBlank(s[|r|..])
    ensures r == [] || !IsJsWhitespace(r[|r| - 1])
    decreases |s|
  {
    if |s| > 0 && IsJsWhitespace(s[|s| - 1]) then
      var r := TrimEnd(s[..|s| - 1]);
      assert s[|r|..] == s[..|s| - 1][|r|..] + [s[|s| - 1]];
      r
    else s
  }

  /** `r` is the slice of `s` starting at index `i`. */
  predicate OccursAt(r: string, s: string, i: nat)
  {
    i + |r| <= |s| && r == s[i..i + |r|]
  }

  /** `s.trim()`: a slice of `s` that neither starts nor ends with whitespace. */
  function Trim(s: string): (r: string)
    ensures exists i :: 0 <= i <= |s| - |r| && OccursAt(r, s, i) && IsBlank(s[..i]) && IsBlank(s[i + |r|..])
    ensures r == [] || (!IsJsWhitespace(r[0]) && !IsJsWhitespace(r[|r| - 1]))
    ensures r == [] <==> IsBlank(s)
  {
    TrimSplits(s);
    TrimEnd(TrimStart(s))
  }

  /** Leading and trailing whitespace are cut off, and a blank string trims to "". */
  lemma TrimSplits(s: string)
    ensures var t := TrimStart(s);
      var r := TrimEnd(t);
      var i := |s| - |t|;
      && OccursAt(r, s, i) && IsBlank(s[..i]) && IsBlank(s[i + |r|..])
      && (r == [] <==> IsBlank(s))
  {
    var t := TrimStart(s);
    var r := TrimEnd(t);
    var i := |s| - |t|;
    assert s[i + |r|..] == t[|r|..];
    if r == [] {
      assert IsBlank(t) by { assert t[|r|..] == t; }
      assert t == [];
      assert s == s[..i];
    } else {
      assert s[i] == r[0];
    }
  }
}
