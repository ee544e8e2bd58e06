/**
 * The string handling the engine relies on: rendering integers and cent
 * amounts into message text, Python's `str.strip()`, and the digit test
 * and `int()` conversion that guard the savings-goal form.
 */
module Text {
  import opened Tables

  predicate IsAsciiDigit(c: char) {
    '0' <= c <= '9'
  }

  function DigitChar(d: nat): (c: char)
    requires d < 10
    ensures IsAsciiDigit(c) && c as int - '0' as int == d
  {
    ('0' as int + d) as char
  }

  /** Decimal rendering of a natural number, as Python's `str(n)` or an f-string gives it. */
  function NatToString(n: nat): (s: string)
    ensures |s| > 0 && forall i :: 0 <= i < |s| ==> IsAsciiDigit(s[i])
    ensures n > 0 ==> s[0] != '0'
  {
    if n < 10 then [DigitChar(n)] else NatToString(n / 10) + [DigitChar(n % 10)]
  }

  /** Decimal rendering of an integer, with a leading '-' when it is negative. */
  function IntToString(n: int): (s: string)
    ensures |s| > 0
    ensures (s[0] == '-') <==> n < 0
    ensures n >= 0 ==> DecimalValue(s) == Some(n)
    ensures n < 0 ==> DecimalValue(s[1..]) == Some(-n)
  {
    if n < 0 then
      NatToStringRoundTrip(-n);
      assert ("-" + NatToString(-n))[1..] == NatToString(-n);
      "-" + NatToString(-n)
    else
      NatToStringRoundTrip(n);
      NatToString(n)
  }

  /**
   * An amount of cents rendered as dollars with two decimals, as the
   * format `{x:.2f}` renders it.
   */
  function FormatCents(cents: int): (s: string)
    ensures |s| >= 4 && s[|s| - 3] == '.'
    ensures (s[0] == '-') <==> cents < 0
  {
    var a := if cents < 0 then -cents else cents;
    (if cents < 0 then "-" else "") + NatToString(a / 100) + "." + [DigitChar(a % 100 / 10), DigitChar(a % 10)]
  }

  /**
   * The digits of `FormatCents` encode the amount: after the optional sign,
   * the whole dollars, then exactly two digits of cents, which together make
   * up the absolute amount.
   */
  lemma FormatCentsValue(cents: int)
    ensures var s := FormatCents(cents);
            var sign := if cents < 0 then 1 else 0;
            var a := if cents < 0 then -cents else cents;
            && sign <= |s| - 3
            && DecimalValue(s[sign..|s| - 3]) == Some(a / 100)
            && DecimalValue(s[|s| - 2..]) == Some(a % 100)
  {
    var s := FormatCents(cents);
    var sign := if cents < 0 then 1 else 0;
    var a := if cents < 0 then -cents else cents;
    var whole := NatToString(a / 100);
    var frac := [DigitChar(a % 100 / 10), DigitChar(a % 10)];
    assert s == (if cents < 0 then "-" else "") + whole + "." + frac;
    assert s[sign..|s| - 3] == whole;
    assert s[|s| - 2..] == frac;
    NatToStringRoundTrip(a / 100);
    assert frac[..|frac| - 1] == [frac[0]] && [frac[0]][..0] == [];
    assert DigitsValue([frac[0]]) == a % 100 / 10;
    assert DigitsValue(frac) == DigitsValue([frac[0]]) * 10 + a % 10;
  }

  // ---------------------------------------------------------------------
  // Parsing digit strings: the partner of NatToString.

  /** Non-empty and made of ASCII digits only (`str.isdecimal()` on ASCII text). */
  predicate IsDecimal(s: string) {
    |s| > 0 && forall i :: 0 <= i < |s| ==> IsAsciiDigit(s[i])
  }

  function DigitsValue(s: string): nat
    requires forall i :: 0 <= i < |s| ==> IsAsciiDigit(s[i])
  {
    if s == [] then 0
    else
      var c := s[|s| - 1];
      assert IsAsciiDigit(c);
      DigitsValue(s[..|s| - 1]) * 10 + (c as int - '0' as int)
  }

  /**
   * Python's `int(s)` on a string of digit characters: the value when every
   * character is an ASCII digit, and None where `int` raises ValueError.
   */
  function DecimalValue(s: string): (r: Option<nat>)
    ensures r.Some? <==> IsDecimal(s)
  {
    if IsDecimal(s) then Some(DigitsValue(s)) else None
  }

  /** Reading back a rendered number gives the number. */
  lemma {:induction false} DigitsOfNatToString(n: nat)
    ensures DigitsValue(NatToString(n)) == n
  {
    var s := NatToString(n);
    if n >= 10 {
      DigitsOfNatToString(n / 10);
      assert s[..|s| - 1] == NatToString(n / 10);
    }
  }

  lemma NatToStringRoundTrip(n: nat)
    ensures DecimalValue(NatToString(n)) == Some(n)
  {
    DigitsOfNatToString(n);
  }

  /** NatToString is one-to-one: different numbers never render alike. */
  lemma NatToStringInjective(m: nat, n: nat)
    requires NatToString(m) == NatToString(n)
    ensures m == n
  {
    DigitsOfNatToString(m);
    DigitsOfNatToString(n);
  }

  // ---------------------------------------------------------------------
  // Python's str.isdigit(), as the savings-goal form uses it.

  /**
   * The characters `str.isdigit()` accepts: the ASCII digits and, among
   * others, the superscript and subscript digits, which carry a digit value
   * but are not decimal digits.
   */
  predicate PyDigitChar(c: char) {
    || IsAsciiDigit(c)
    || c == '\U{00B2}' || c == '\U{00B3}' || c == '\U{00B9}'
    || c == '\U{2070}' || '\U{2074}' <= c <= '\U{2079}'
    || '\U{2080}' <= c <= '\U{2089}'
  }

  /** `s.isdigit()`: non-empty, every character a digit character. */
  predicate PyIsDigit(s: string)
    ensures IsDecimal(s) ==> PyIsDigit(s)
    ensures PyIsDigit(s) ==> |s| > 0
  {
    |s| > 0 && forall i :: 0 <= i < |s| ==> PyDigitChar(s[i])
  }

  /** The digit guard admits a string that `int()` then rejects: "²". */
  lemma IsDigitAdmitsUnparsable()
    ensures PyIsDigit("\U{00B2}") && DecimalValue("\U{00B2}").None?
  {
  }

  /** The corrected guard: everything it admits converts. */
  lemma DecimalGuardConverts(s: string)
    requires IsDecimal(s)
    ensures DecimalValue(s).Some? && PyIsDigit(s)
  {
  }

  // ---------------------------------------------------------------------
  // Python's str.strip().

  /**
   * The ASCII characters `str.strip()` removes: space, tab, the line and
   * page breaks, and the four separators U+001C to U+001F.
   */
  predicate IsSpace(c: char) {
    c == ' ' || '\t' <= c <= '\r' || '\U{001C}' <= c <= '\U{001F}'
  }

  function LeadingSpaces(s: string): (n: nat)
    ensures n <= |s|
    ensures forall k :: 0 <= k < n ==> IsSpace(s[k])
    ensures n < |s| ==> !IsSpace(s[n])
  {
    if s == [] || !IsSpace(s[0]) then 0 else 1 + LeadingSpaces(s[1..])
  }

  function TrailingSpaces(s: string): (n: nat)
    ensures n <= |s|
    ensures forall k :: |s| - n <= k < |s| ==> IsSpace(s[k])
    ensures n < |s| ==> !IsSpace(s[|s| - 1 - n])
  {
    if s == [] || !IsSpace(s[|s| - 1]) then 0 else 1 + TrailingSpaces(s[..|s| - 1])
  }

  /**
   * `s.strip()`: the middle of `s` left after removing leading and trailing
   * whitespace; it neither starts nor ends with whitespace.
   */
  function Strip(s: string): (r: string)
    ensures StripStart(s) + |r| <= |s|
    ensures r != [] ==> !IsSpace(r[0]) && !IsSpace(r[|r| - 1])
    ensures r == s[StripStart(s)..StripStart(s) + |r|]
    ensures forall k :: 0 <= k < StripStart(s) ==> IsSpace(s[k])
    ensures forall k :: StripStart(s) + |r| <= k < |s| ==> IsSpace(s[k])
  {
    var t := s[LeadingSpaces(s)..];
    t[..|t| - TrailingSpaces(t)]
  }

  /** Where the stripped text begins in `s`. */
  function StripStart(s: string): (i: nat)
    ensures i <= |s|
  {
    LeadingSpaces(s)
  }

  /** Stripping twice is stripping once. */
  lemma StripIdempotent(s: string)
    ensures Strip(Strip(s)) == Strip(s)
  {
  }
}
