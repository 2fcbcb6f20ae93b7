/** How `CustomSourceGenerator` of `xian_py/decompiler.py` writes a string
    constant back as source text, and what a Python short string literal
    means, so that the two can be compared. */
module SourceGenerator {
  import opened Outcomes
  import opened PyText

  /* ------------------------------------------- Python string literals */

  /** The character a one-letter escape such as `\n` stands for. */
  function SimpleEscape(c: char): Option<char> {
    match c
    case '\\' => Some('\\')
    case '\'' => Some('\'')
    case '"' => Some('"')
    case 'n' => Some('\n')
    case 'r' => Some('\r')
    case 't' => Some('\t')
    case 'a' => Some('\U{0007}')
    case 'b' => Some('\U{0008}')
    case 'f' => Some('\U{000C}')
    case 'v' => Some('\U{000B}')
    case _ => None
  }

  function HexDigitValue(c: char): (d: nat)
    requires IsHexDigit(c)
    ensures d < 16
  {
    if '0' <= c <= '9' then c as int - '0' as int
    else if 'a' <= c <= 'f' then c as int - 'a' as int + 10
    else c as int - 'A' as int + 10
  }

  predicate AllHex(s: string) {
    forall i :: 0 <= i < |s| ==> IsHexDigit(s[i])
  }

  /** The number the hex digits `s` denote. */
  function HexValue(s: string): nat
    requires AllHex(s)
  {
    if s == [] then 0 else HexValue(s[..|s| - 1]) * 16 + HexDigitValue(s[|s| - 1])
  }

  predicate IsOctalDigit(c: char) {
    '0' <= c <= '7'
  }

  /** The number of octal digits (one to three) of an escape starting at `i`. */
  function OctalRun(b: string, i: nat): (n: nat)
    requires i < |b| && IsOctalDigit(b[i])
    ensures 1 <= n <= 3 && i + n <= |b|
    ensures forall k :: i <= k < i + n ==> IsOctalDigit(b[k])
  {
    if i + 1 < |b| && IsOctalDigit(b[i + 1]) then
      if i + 2 < |b| && IsOctalDigit(b[i + 2]) then 3 else 2
    else 1
  }

  function OctalValue(s: string): nat
    requires forall i :: 0 <= i < |s| ==> IsOctalDigit(s[i])
  {
    if s == [] then 0
    else
      assert IsOctalDigit(s[|s| - 1]);
      OctalValue(s[..|s| - 1]) * 8 + (s[|s| - 1] as int - '0' as int)
  }

  /** The character with code point `v`; None for a surrogate or a value
      beyond U+10FFFF, which a Dafny character cannot hold. */
  function CodePoint(v: nat): Option<char> {
    if v < 0xD800 || 0xE000 <= v < 0x11_0000 then Some(v as char) else None
  }

  /** A hex escape `\x..`, `\u....` or `\U........` with `n` digits at
      `b[2..]`: the character and the rest of the body. */
  function HexEscape(b: string, n: nat): Option<(char, string)>
    requires |b| >= 2
  {
    if |b| >= 2 + n && AllHex(b[2..2 + n]) then
      match CodePoint(HexValue(b[2..2 + n]))
      case Some(c) => Some((c, b[2 + n..]))
      case None => None
    else None
  }

  /** The text between the quotes of a short string literal delimited by
      `q`, decoded; None where Python would reject the literal: an
      unescaped delimiter, a raw line break or NUL, a backslash at the very
      end (it escapes the closing quote), a malformed hex escape. The escapes
      `\N{...}` and those denoting a surrogate are outside this model and
      give None as well. An unknown escape keeps the backslash. */
  function DecodeBody(b: string, q: char): Option<string>
    decreases |b|
  {
    if b == [] then Some([])
    else if b[0] == '\\' then
      if |b| == 1 then None
      else
        var c := b[1];
        if c == '\n' then DecodeBody(b[2..], q)
        else if SimpleEscape(c).Some? then
          match DecodeBody(b[2..], q)
          case Some(rest) => Some([SimpleEscape(c).value] + rest)
          case None => None
        else if c == 'x' || c == 'u' || c == 'U' then
          match HexEscape(b, if c == 'x' then 2 else if c == 'u' then 4 else 8)
          case None => None
          case Some(p) =>
            match DecodeBody(p.1, q)
            case Some(rest) => Some([p.0] + rest)
            case None => None
        else if IsOctalDigit(c) then
          var n := OctalRun(b, 1);
          match CodePoint(OctalValue(b[1..1 + n]))
          case None => None
          case Some(ch) =>
            match DecodeBody(b[1 + n..], q)
            case Some(rest) => Some([ch] + rest)
            case None => None
        else if c == 'N' then None
        else
          match DecodeBody(b[2..], q)
          case Some(rest) => Some(['\\', c] + rest)
          case None => None
    else if b[0] == q || b[0] == '\n' || b[0] == '\r' || b[0] == '\U{0000}' then None
    else
      match DecodeBody(b[1..], q)
      case Some(rest) => Some([b[0]] + rest)
      case None => None
  }

  /** The string a short literal `'...'` or `"..."` denotes. */
  function DecodeLiteral(lit: string): Option<string> {
    if |lit| >= 2 && (lit[0] == '\'' || lit[0] == '"') && lit[|lit| - 1] == lit[0] then
      DecodeBody(lit[1..|lit| - 1], lit[0])
    else None
  }

  /* ------------------------------------------------ `visit_Str` as written */

  /** `val.replace('"', '\\"')` */
  function EscapeDoubleQuotes(s: string): (r: string)
    ensures '"' !in s ==> r == s
    ensures |r| >= |s|
  {
    if s == [] then []
    else (if s[0] == '"' then "\\\"" else [s[0]]) + EscapeDoubleQuotes(s[1..])
  }

  /** The text `visit_Str` writes for the string constant `val`: single
      quotes when `val` contains a double quote and no single quote, double
      quotes with every double quote escaped otherwise. */
  function QuoteStr(val: string): (r: string)
    ensures |r| >= |val| + 2 && r[0] == r[|r| - 1] && (r[0] == '\'' || r[0] == '"')
    ensures r[0] == '\'' <==> '"' in val && '\'' !in val
    ensures r[0] == '\'' ==> r[1..|r| - 1] == val
    ensures '"' !in val ==> r == "\"" + val + "\""
  {
    if '"' in val && '\'' !in val then "'" + val + "'"
    else "\"" + EscapeDoubleQuotes(val) + "\""
  }

  /** A string that needs no escape other than for its quotes. */
  predicate PlainText(val: string) {
    forall i :: 0 <= i < |val| ==> val[i] != '\\' && val[i] != '\n' && val[i] != '\r' && val[i] != '\U{0000}'
  }

  lemma {:induction false} PlainBodyDecodes(val: string, q: char)
    requires PlainText(val) && q !in val
    ensures DecodeBody(val, q) == Some(val)
  {
    if val != [] {
      assert val[0] != q;
      assert PlainText(val[1..]);
      PlainBodyDecodes(val[1..], q);
      assert [val[0]] + val[1..] == val;
    }
  }

  lemma {:induction false} EscapedQuotesDecode(val: string)
    requires PlainText(val)
    ensures DecodeBody(EscapeDoubleQuotes(val), '"') == Some(val)
  {
    if val != [] {
      var head := if val[0] == '"' then "\\\"" else [val[0]];
      var rest := EscapeDoubleQuotes(val[1..]);
      assert PlainText(val[1..]);
      EscapedQuotesDecode(val[1..]);
      var b := head + rest;
      if val[0] == '"' {
        assert b[0] == '\\' && b[1] == '"' && b[2..] == rest;
      } else {
        assert b[0] == val[0] && b[1..] == rest;
      }
      assert [val[0]] + val[1..] == val;
    }
  }

  /** The text written for a string without backslashes, line breaks and
      NUL characters is a literal denoting that string. */
  lemma QuoteStrRoundTrip(val: string)
    requires PlainText(val)
    ensures DecodeLiteral(QuoteStr(val)) == Some(val)
  {
    var lit := QuoteStr(val);
    if '"' in val && '\'' !in val {
      assert lit[1..|lit| - 1] == val;
      PlainBodyDecodes(val, '\'');
    } else {
      assert lit[1..|lit| - 1] == EscapeDoubleQuotes(val);
      EscapedQuotesDecode(val);
    }
  }

  /** A lone backslash is written as `"\"`, which is not a literal at all:
      the backslash escapes the closing quote. */
  lemma QuoteStrBreaksOnBackslash()
    ensures QuoteStr("\\") == "\"\\\""
    ensures DecodeLiteral(QuoteStr("\\")) == None
  {
    assert '"' !in "\\";
    assert "\"\\\""[1..2] == "\\";
  }

  /** A line break inside the string is written raw, which ends the line
      inside the literal. */
  lemma QuoteStrBreaksOnNewline()
    ensures QuoteStr("a\nb") == "\"a\nb\""
    ensures DecodeLiteral(QuoteStr("a\nb")) == None
  {
    var val := "a\nb";
    assert '"' !in val;
    var lit := "\"" + val + "\"";
    assert lit[1..|lit| - 1] == val;
    assert val[1..] == "\nb";
  }

  /** A backslash followed by `n` is written unchanged and read back as a
      line break. */
  lemma QuoteStrChangesEscapes()
    ensures QuoteStr("\\n") == "\"\\n\""
    ensures DecodeLiteral(QuoteStr("\\n")) == Some("\n")
  {
    assert '"' !in "\\n";
    var lit := "\"\\n\"";
    assert lit[0] == '"' && lit[3] == '"' && lit[1..3] == "\\n";
    var b := "\\n";
    assert b[0] == '\\' && b[1] == 'n' && b[2..] == [];
    assert SimpleEscape('n') == Some('\n') && DecodeBody(b[2..], '"') == Some([]);
    assert ['\n'] + [] == "\n";
  }

  /* ------------------------------------------------- `visit_Str` corrected */

  /** The escape for one character inside a literal delimited by `q`. */
  function EscapeChar(c: char, q: char): string {
    if c == '\\' then "\\\\"
    else if c == q then ['\\', q]
    else if c == '\n' then "\\n"
    else if c == '\r' then "\\r"
    else if c == '\U{0000}' then "\\x00"
    else [c]
  }

  function Escape(s: string, q: char): string {
    if s == [] then [] else EscapeChar(s[0], q) + Escape(s[1..], q)
  }

  /** `visit_Str` with the escapes a literal needs: the same choice of
      quotes, and backslashes, the delimiter, line breaks and NUL escaped. */
  function QuoteStrFixed(val: string): string {
    if '"' in val && '\'' !in val then "'" + Escape(val, '\'') + "'"
    else "\"" + Escape(val, '"') + "\""
  }

  lemma EscapeCharDecodes(c: char, q: char, rest: string)
    requires q == '\'' || q == '"'
    ensures DecodeBody(EscapeChar(c, q) + rest, q) ==
      match DecodeBody(rest, q)
      case Some(t) => Some([c] + t)
      case None => None
  {
    var b := EscapeChar(c, q) + rest;
    if c == '\\' || c == q || c == '\n' || c == '\r' {
      assert b[0] == '\\' && b[2..] == rest;
    } else if c == '\U{0000}' {
      assert b[0] == '\\' && b[1] == 'x' && b[2..4] == "00" && b[4..] == rest;
      assert HexValue("00") == 0 by {
        assert "00"[..1] == "0" && "0"[..0] == [];
      }
    } else {
      assert b[0] == c && b[1..] == rest;
    }
  }

  lemma {:induction false} EscapeDecodes(val: string, q: char)
    requires q == '\'' || q == '"'
    ensures DecodeBody(Escape(val, q), q) == Some(val)
  {
    if val != [] {
      EscapeDecodes(val[1..], q);
      EscapeCharDecodes(val[0], q, Escape(val[1..], q));
      assert [val[0]] + val[1..] == val;
    }
  }

  /** Every string is written as a literal denoting it. */
  lemma QuoteStrFixedRoundTrip(val: string)
    ensures DecodeLiteral(QuoteStrFixed(val)) == Some(val)
  {
    var lit := QuoteStrFixed(val);
    if '"' in val && '\'' !in val {
      assert lit[1..|lit| - 1] == Escape(val, '\'');
      EscapeDecodes(val, '\'');
    } else {
      assert lit[1..|lit| - 1] == Escape(val, '"');
      EscapeDecodes(val, '"');
    }
  }

  lemma {:induction false} EscapePlain(val: string, q: char)
    requires PlainText(val)
    ensures q == '"' ==> Escape(val, q) == EscapeDoubleQuotes(val)
    ensures q !in val ==> Escape(val, q) == val
  {
    if val != [] {
      assert PlainText(val[1..]);
      EscapePlain(val[1..], q);
      assert [val[0]] + val[1..] == val;
    }
  }

  /** Where the source's quoting is right, the corrected one writes the
      same text. */
  lemma QuoteStrFixedAgrees(val: string)
    requires PlainText(val)
    ensures QuoteStrFixed(val) == QuoteStr(val)
  {
    EscapePlain(val, '"');
    EscapePlain(val, '\'');
  }
}
