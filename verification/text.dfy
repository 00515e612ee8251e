/**
 * The JavaScript string built-ins the core relies on: `String.prototype.split`
 * with a one-character separator, `parseInt` with its default base, and `Number.prototype.toString`
 * on non-negative integers.
 */
module Text {
  import opened Wrappers

  /** `s.split(sep)`: the pieces between separators, an empty piece for each doubled separator. */
  function Split(s: string, sep: char): (r: seq<string>)
    ensures |r| >= 1
    ensures forall i :: 0 <= i < |r| ==> sep !in r[i]
  {
    if |s| == 0 then [""]
    else
      var rest := Split(s[1..], sep);
      if s[0] == sep then [""] + rest
      else [[s[0]] + rest[0]] + rest[1..]
  }

  /** `pieces.join(sep)`. */
  function Join(pieces: seq<string>, sep: char): string
    requires |pieces| >= 1
  {
    if |pieces| == 1 then pieces[0] else pieces[0] + [sep] + Join(pieces[1..], sep)
  }

  /** Splitting and joining again gives back the string: no character is lost or invented. */
  lemma {:induction false} SplitJoin(s: string, sep: char)
    ensures Join(Split(s, sep), sep) == s
  {
    if |s| > 0 {
      SplitJoin(s[1..], sep);
      var rest := Split(s[1..], sep);
      if s[0] != sep && |rest| > 1 {
        assert Join(rest, sep) == rest[0] + [sep] + Join(rest[1..], sep);
        assert ([s[0]] + rest[0]) + [sep] + Join(rest[1..], sep) == [s[0]] + Join(rest, sep);
      }
    }
  }

  predicate IsDigit(c: char) { '0' <= c <= '9' }

  /** A digit in base `radix`: a decimal digit, or in base 16 also a letter a-f in either case. */
  predicate IsDigitIn(c: char, radix: nat) {
    IsDigit(c) || (radix == 16 && ('a' <= c <= 'f' || 'A' <= c <= 'F'))
  }

  /** The value of a digit of either base. */
  function DigitValue(c: char): (d: nat)
    ensures IsDigitIn(c, 16) ==> d < 16
    ensures IsDigit(c) ==> d < 10
  {
    if IsDigit(c) then c as int - '0' as int
    else if 'a' <= c <= 'f' then c as int - 'a' as int + 10
    else if 'A' <= c <= 'F' then c as int - 'A' as int + 10
    else 0
  }

  /**
   * Whitespace that `parseInt` skips before the number: the ECMAScript
   * white space characters (tab, vertical tab, form feed, the byte order
   * mark and the Unicode space separators) and line terminators.
   */
  predicate IsSpace(c: char) {
    c == '\t' || c == '\n' || c == '\U{000B}' || c == '\U{000C}' || c == '\r' || c == ' ' ||
    c == '\U{00A0}' || c == '\U{1680}' || '\U{2000}' <= c <= '\U{200A}' ||
    c == '\U{2028}' || c == '\U{2029}' || c == '\U{202F}' || c == '\U{205F}' || c == '\U{3000}' || c == '\U{FEFF}'
  }

  /** Length of the longest prefix of `s` made of digits of base `radix`. */
  function DigitRun(s: string, radix: nat): (n: nat)
    ensures n <= |s|
    ensures forall i :: 0 <= i < n ==> IsDigitIn(s[i], radix)
    ensures n < |s| ==> !IsDigitIn(s[n], radix)
  {
    if |s| > 0 && IsDigitIn(s[0], radix) then 1 + DigitRun(s[1..], radix) else 0
  }

  /** Value of a string of digits of base `radix`, 10 or 16. */
  function DigitsValue(s: string, radix: nat): (v: nat)
    requires radix == 10 || radix == 16
    requires forall i :: 0 <= i < |s| ==> IsDigitIn(s[i], radix)
  {
    if |s| == 0 then 0
    else
      assert IsDigitIn(s[|s| - 1], radix);
      var high := DigitsValue(s[..|s| - 1], radix);
      (if radix == 16 then high * 16 else high * 10) + DigitValue(s[|s| - 1])
  }

  /** `t` without a leading sign. */
  function Unsigned(t: string): string {
    if |t| > 0 && (t[0] == '-' || t[0] == '+') then t[1..] else t
  }

  /** What `parseInt(s)` reads the number from: `s` without leading whitespace and sign. */
  function NumberBody(s: string): string {
    Unsigned(TrimStart(s))
  }

  predicate IsNegative(s: string) {
    var t := TrimStart(s);
    |t| > 0 && t[0] == '-'
  }

  /** A number body that starts with `0x` or `0X`, which makes `parseInt` read base 16. */
  predicate HexPrefixed(body: string) {
    |body| >= 2 && body[0] == '0' && (body[1] == 'x' || body[1] == 'X')
  }

  /** The base a number body is read in: 16 after a `0x` prefix, else 10. */
  function RadixOf(body: string): (radix: nat)
    ensures radix == 10 || radix == 16
  {
    if HexPrefixed(body) then 16 else 10
  }

  /** The digits of a number body: the body without its `0x` prefix. */
  function DigitsOf(body: string): (d: string)
    ensures HexPrefixed(body) ==> body == body[..2] + d
    ensures !HexPrefixed(body) ==> d == body
  {
    if HexPrefixed(body) then body[2..] else body
  }

  /**
   * `parseInt` after the leading whitespace is gone: an optional sign,
   * then a `0x` or `0X` prefix that switches to base 16, and the longest
   * run of digits of the base after it; whatever follows is ignored.
   */
  function ReadInteger(t: string): Option<int> {
    var body := Unsigned(t);
    var digits := DigitsOf(body);
    var radix := RadixOf(body);
    var n := DigitRun(digits, radix);
    if n == 0 then None
    else
      var v: int := DigitsValue(digits[..n], radix);
      Some(if |t| > 0 && t[0] == '-' then -v else v)
  }

  /**
   * `parseInt(s)`: skip leading whitespace and read the integer after it.
   * `None` stands for NaN (no digit where the digits should start).
   */
  function ParseInt(s: string): (r: Option<int>)
    ensures r.None? <==> DigitRun(DigitsOf(NumberBody(s)), RadixOf(NumberBody(s))) == 0
    ensures r.Some? && !IsNegative(s) ==> r.value >= 0
    ensures r.Some? && IsNegative(s) ==> r.value <= 0
  {
    ReadInteger(TrimStart(s))
  }

  /** `s` without its leading whitespace. */
  function TrimStart(s: string): (t: string)
    ensures |t| <= |s| && t == s[|s| - |t|..]
    ensures |t| > 0 ==> !IsSpace(t[0])
  {
    if |s| > 0 && IsSpace(s[0]) then TrimStart(s[1..]) else s
  }

  /** Decimal representation of a non-negative integer, as `n.toString()` writes it. */
  function NatToString(n: nat): (s: string)
    ensures |s| >= 1
    ensures forall i :: 0 <= i < |s| ==> IsDigit(s[i])
  {
    if n < 10 then [('0' as int + n) as char]
    else NatToString(n / 10) + [('0' as int + n % 10) as char]
  }

  lemma {:induction false} NatToStringValue(n: nat)
    ensures DigitsValue(NatToString(n), 10) == n
  {
    if n >= 10 {
      NatToStringValue(n / 10);
      var s := NatToString(n);
      assert s[..|s| - 1] == NatToString(n / 10);
    }
  }

  /** `parseInt(String(n)) == n`: a number's text reads back as the same number. */
  lemma ParseIntOfNatToString(n: nat)
    ensures ParseInt(NatToString(n)) == Some(n)
  {
    NatToStringValue(n);
    ParseIntOfDigits(NatToString(n));
  }

  /** A non-empty run of decimal digits reads back as its value. */
  lemma ParseIntOfDigits(s: string)
    requires |s| > 0 && forall i :: 0 <= i < |s| ==> IsDigit(s[i])
    ensures ParseInt(s) == Some(DigitsValue(s, 10))
  {
    NumberBodyOfDigits(s);
    assert !HexPrefixed(s) by { if |s| >= 2 { assert IsDigit(s[1]); } }
    DigitRunAll(s, 10);
    assert s[..|s|] == s;
  }

  /** `parseInt("0x" + h)` reads `h` in base 16; `parseInt("0x")` is NaN. */
  lemma ParseIntHex(h: string)
    requires forall i :: 0 <= i < |h| ==> IsDigitIn(h[i], 16)
    ensures ParseInt("0x" + h) == if h == [] then None else Some(DigitsValue(h, 16))
  {
    var s := "0x" + h;
    NumberBodyOfDigits(s);
    assert s[2..] == h;
    DigitRunAll(h, 16);
    assert h[..|h|] == h;
  }

  /** A string that starts with a digit is its own number body, and not negative. */
  lemma NumberBodyOfDigits(s: string)
    requires |s| > 0 && IsDigit(s[0])
    ensures NumberBody(s) == s && !IsNegative(s)
  {
    assert !IsSpace(s[0]) && s[0] != '-' && s[0] != '+';
    assert TrimStart(s) == s;
  }

  lemma {:induction false} DigitRunAll(s: string, radix: nat)
    requires forall i :: 0 <= i < |s| ==> IsDigitIn(s[i], radix)
    ensures DigitRun(s, radix) == |s|
  {
    if |s| > 0 { DigitRunAll(s[1..], radix); }
  }

  /** Whitespace in front changes nothing: `parseInt(ws + s) == parseInt(s)`. */
  lemma ParseIntSkipsSpace(ws: string, s: string)
    requires forall i :: 0 <= i < |ws| ==> IsSpace(ws[i])
    ensures ParseInt(ws + s) == ParseInt(s)
  {
    TrimStartSkips(ws, s);
  }

  lemma {:induction false} TrimStartSkips(ws: string, s: string)
    requires forall i :: 0 <= i < |ws| ==> IsSpace(ws[i])
    ensures TrimStart(ws + s) == TrimStart(s)
  {
    if |ws| > 0 {
      assert (ws + s)[0] == ws[0] && (ws + s)[1..] == ws[1..] + s;
      assert TrimStart(ws + s) == TrimStart(ws[1..] + s);
      TrimStartSkips(ws[1..], s);
    } else {
      assert ws + s == s;
    }
  }
}
