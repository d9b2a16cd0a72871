/** Whole numbers written in decimal, as a template literal prints them, and read back, as
    `Number` reads a string of ASCII digits. */
module Digits {
  import opened Types

  predicate IsDigit(c: char) {
    '0' <= c <= '9'
  }

  /** Every character of s is an ASCII digit. */
  predicate AllDigits(s: string)
    decreases |s|
  {
    |s| == 0 || (AllDigits(s[..|s| - 1]) && IsDigit(s[|s| - 1]))
  }

  function DigitChar(d: nat): (c: char)
    requires d < 10
    ensures IsDigit(c)
  {
    ('0' as int + d) as char
  }

  function DigitValue(c: char): (d: nat)
    requires IsDigit(c)
    ensures d < 10
  {
    c as int - '0' as int
  }

  /** `${n}` for a whole number n: its decimal digits, most significant first, with no
      leading zero. */
  function Decimal(n: nat): (s: string)
    ensures |s| >= 1 && AllDigits(s)
    decreases n
  {
    if n < 10 then
      var s := [DigitChar(n)];
      assert s[..|s| - 1] == [];
      s
    else
      var s := Decimal(n / 10) + [DigitChar(n % 10)];
      assert s[..|s| - 1] == Decimal(n / 10);
      s
  }

  /** The value of a string of decimal digits; the empty string is 0. */
  function DigitsValue(s: string): nat
    requires AllDigits(s)
    decreases |s|
  {
    if |s| == 0 then 0
    else DigitsValue(s[..|s| - 1]) * 10 + DigitValue(s[|s| - 1])
  }

  /** `Number(s)` where s is empty or made of ASCII digits only. For any other string the
      value is not modelled (Number would give NaN, a fraction, or accept spaces, a sign or
      an exponent), and the result is None. */
  function NumberOf(s: string): (r: Option<nat>)
    ensures r.Some? <==> AllDigits(s)
  {
    if AllDigits(s) then Some(DigitsValue(s)) else None
  }

  /** A character that can occur in a string `Number` reads as a number: white space and
      line terminators, decimal digits, a sign, the decimal point, the exponent mark, the
      letters of hexadecimal digits and of the 0x, 0o and 0b prefixes, and the letters of
      `Infinity` (the string numeric literal grammar of section 7.1.4.1 of ECMA-262). */
  predicate MayBeInNumber(c: char) {
    || IsDigit(c) || c == '+' || c == '-' || c == '.'
    || 'a' <= c <= 'f' || 'A' <= c <= 'F' || c == 'x' || c == 'X' || c == 'o' || c == 'O'
    || c == 'I' || c == 'i' || c == 'n' || c == 't' || c == 'y'
    || c == ' ' || '\t' <= c <= '\r' || c == '\U{00A0}' || c == '\U{1680}'
    || '\U{2000}' <= c <= '\U{200A}' || c == '\U{2028}' || c == '\U{2029}' || c == '\U{202F}'
    || c == '\U{205F}' || c == '\U{3000}' || c == '\U{FEFF}'
  }

  /** s holds a character no string numeric literal contains, so `Number(s)` is NaN. */
  predicate NotANumber(s: string)
    decreases |s|
  {
    |s| > 0 && (!MayBeInNumber(s[|s| - 1]) || NotANumber(s[..|s| - 1]))
  }

  /** A string Number reads as NaN is not a digit string, so NumberOf gives None for it. */
  lemma {:induction false} NotANumberNotDigits(s: string)
    requires NotANumber(s)
    ensures !AllDigits(s) && NumberOf(s) == None
    decreases |s|
  {
    if MayBeInNumber(s[|s| - 1]) {
      NotANumberNotDigits(s[..|s| - 1]);
    }
  }

  /** Reading back a printed number gives the number. */
  lemma {:induction false} DecimalRoundTrip(n: nat)
    ensures NumberOf(Decimal(n)) == Some(n)
    decreases n
  {
    var s := Decimal(n);
    if n < 10 {
      assert s[..|s| - 1] == [];
      assert DigitValue(s[0]) == n;
      assert DigitsValue(s) == DigitsValue([]) * 10 + n;
    } else {
      DecimalRoundTrip(n / 10);
      assert s[..|s| - 1] == Decimal(n / 10);
      assert DigitValue(s[|s| - 1]) == n % 10;
      assert DigitsValue(s) == (n / 10) * 10 + n % 10;
    }
  }

  /** Different numbers print differently. */
  lemma DecimalInjective(a: nat, b: nat)
    requires Decimal(a) == Decimal(b)
    ensures a == b
  {
    DecimalRoundTrip(a);
    DecimalRoundTrip(b);
  }
}
