/** Which strings Python's `int(s, 16)` and `float(s)` accept: each returns a
    number for the strings described here and raises ValueError for every
    other string. Only acceptance is modelled, not the number produced. */
module PyNumbers {
  import opened PyText

  /** The numeral without one leading `+` or `-`. */
  function DropSign(t: string): (u: string)
    ensures |u| <= |t|
  {
    if |t| > 0 && (t[0] == '+' || t[0] == '-') then t[1..] else t
  }

  predicate HasHexPrefix(u: string) {
    |u| >= 2 && u[0] == '0' && (u[1] == 'x' || u[1] == 'X')
  }

  /** Base-16 digits, where one `_` may stand between two digits: `1f_ff`. */
  predicate HexDigitRun(s: string) {
    && |s| > 0
    && IsHexDigit(s[0])
    && forall i :: 0 <= i < |s| ==> IsHexDigit(s[i]) || (s[i] == '_' && i + 1 < |s| && IsHexDigit(s[i + 1]))
  }

  /** `int(s, 16)` returns a number (rather than raising ValueError): after
      the surrounding white space, an optional sign and an optional `0x`
      prefix (which one `_` may follow) there is a run of hex digits. */
  predicate ParsesAsHexInt(s: string) {
    var u := DropSign(Strip(s));
    if HasHexPrefix(u) then
      var w := u[2..];
      HexDigitRun(if |w| > 0 && w[0] == '_' then w[1..] else w)
    else
      HexDigitRun(u)
  }

  /** Plain hex: one or more hex digits and nothing else. */
  predicate IsPlainHex(s: string) {
    |s| > 0 && forall i :: 0 <= i < |s| ==> IsHexDigit(s[i])
  }

  lemma PlainHexParses(s: string)
    requires IsPlainHex(s)
    ensures ParsesAsHexInt(s)
  {
    assert IsHexDigit(s[0]) && IsHexDigit(s[|s| - 1]);
    assert !IsNumeralSpace(s[0]) && !IsNumeralSpace(s[|s| - 1]);
    assert Strip(s) == s;
    assert DropSign(s) == s;
    assert !HasHexPrefix(s) by {
      if |s| >= 2 {
        assert IsHexDigit(s[1]);
      }
    }
  }

  /** `int("0x" + s, 16)` succeeds for plain hex `s`. */
  lemma PrefixedHexParses(s: string)
    requires IsPlainHex(s)
    ensures ParsesAsHexInt("0x" + s)
  {
    var t := "0x" + s;
    assert t[2..] == s;
    assert IsHexDigit(t[|t| - 1]);
    assert !IsNumeralSpace(t[0]) && !IsNumeralSpace(t[|t| - 1]);
    assert Strip(t) == t;
    assert DropSign(t) == t;
    assert IsHexDigit(s[0]);
  }

  /** The first index at or after `i` that does not hold a decimal digit. */
  function SkipDigits(s: string, i: nat): (j: nat)
    requires i <= |s|
    ensures i <= j <= |s|
    ensures forall k :: i <= k < j ==> IsAsciiDigit(s[k])
    ensures j < |s| ==> !IsAsciiDigit(s[j])
    decreases |s| - i
  {
    if i < |s| && IsAsciiDigit(s[i]) then SkipDigits(s, i + 1) else i
  }

  /** An exponent `e5`, `E-07`, or nothing. */
  predicate ExponentPart(w: string) {
    || w == []
    || (&& |w| >= 2
        && (w[0] == 'e' || w[0] == 'E')
        && var k := if w[1] == '+' || w[1] == '-' then 2 else 1;
           k < |w| && SkipDigits(w, k) == |w|)
  }

  /** `12`, `1.5`, `.5`, `5.`, each with an optional exponent. */
  predicate DecimalNumeral(v: string) {
    var a := SkipDigits(v, 0);
    if a < |v| && v[a] == '.' then
      var b := SkipDigits(v, a + 1);
      (a > 0 || b > a + 1) && ExponentPart(v[b..])
    else
      a > 0 && ExponentPart(v[a..])
  }

  function AsciiLower(c: char): char {
    if 'A' <= c <= 'Z' then (c as int + 32) as char else c
  }

  function Lowered(s: string): (r: string)
    ensures |r| == |s|
  {
    if s == [] then [] else [AsciiLower(s[0])] + Lowered(s[1..])
  }

  /** `inf`, `infinity` and `nan` in any mix of cases. */
  predicate SpecialNumeral(v: string) {
    Lowered(v) in {"inf", "infinity", "nan"}
  }

  /** Every `_` stands between two decimal digits. */
  predicate UnderscoresBetweenDigits(t: string) {
    forall i :: 0 <= i < |t| && t[i] == '_' ==> 0 < i < |t| - 1 && IsAsciiDigit(t[i - 1]) && IsAsciiDigit(t[i + 1])
  }

  function WithoutUnderscores(t: string): (r: string)
    ensures |r| <= |t|
  {
    if t == [] then [] else (if t[0] == '_' then [] else [t[0]]) + WithoutUnderscores(t[1..])
  }

  /** `float(s)` for a string `s` returns a number (rather than raising ValueError). */
  predicate ParsesAsFloat(s: string) {
    var t := Strip(s);
    && UnderscoresBetweenDigits(t)
    && var u := DropSign(WithoutUnderscores(t));
       DecimalNumeral(u) || SpecialNumeral(u)
  }

  /** The largest magnitude an `int` may have for `float(i)` to succeed:
      integers of magnitude 2^1024 - 2^970 or more round past the largest
      double and raise OverflowError. */
  const FloatIntLimit: int := 0xFFFF_FFFF_FFFF_FC00_0000_0000_0000_0000_0000_0000_0000_0000_0000_0000_0000_0000_0000_0000_0000_0000_0000_0000_0000_0000_0000_0000_0000_0000_0000_0000_0000_0000_0000_0000_0000_0000_0000_0000_0000_0000_0000_0000_0000_0000_0000_0000_0000_0000_0000_0000_0000_0000_0000_0000_0000_0000_0000_0000_0000_0000_0000_0000_0000_0000

  predicate IntFitsFloat(i: int) {
    -FloatIntLimit < i < FloatIntLimit
  }
}
