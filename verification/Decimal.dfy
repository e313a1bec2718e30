/** Decimal printing and reading of integers, as `std::to_string` and `std::atoi` do them.
    Task keys, notification labels, mode lists and resource map keys all go through here. */
module Decimal {

  const INT32_MIN: int := -0x8000_0000
  const INT32_MAX: int := 0x7FFF_FFFF

  predicate IsDigit(c: char) {
    '0' <= c <= '9'
  }

  function DigitChar(d: nat): (c: char)
    requires d < 10
    ensures IsDigit(c)
  {
    '0' + d as char
  }

  function DigitValue(c: char): (d: nat)
    requires IsDigit(c)
    ensures d < 10 && DigitChar(d) == c
  {
    c as int - '0' as int
  }

  function Digits(n: nat): (s: string)
    ensures s != "" && forall c <- s :: IsDigit(c)
  {
    if n < 10 then [DigitChar(n)] else Digits(n / 10) + [DigitChar(n % 10)]
  }

  /** std::to_string. */
  function ToString(n: int): (s: string)
    ensures s != ""
    ensures forall c <- s :: IsDigit(c) || c == '-'
  {
    if n < 0 then "-" + Digits(-n) else Digits(n)
  }

  /** The value of a string of digits. */
  function DigitsValue(s: string): nat
    requires forall c <- s :: IsDigit(c)
  {
    if s == "" then 0 else 10 * DigitsValue(s[..|s| - 1]) + DigitValue(s[|s| - 1])
  }

  /** The longest prefix that consists of digits. */
  function LeadingDigits(s: string): (p: string)
    ensures p <= s && forall c <- p :: IsDigit(c)
    ensures |p| < |s| ==> !IsDigit(s[|p|])
  {
    if s == "" || !IsDigit(s[0]) then "" else [s[0]] + LeadingDigits(s[1..])
  }

  function Clamp(n: int): (r: int)
    ensures INT32_MIN <= r <= INT32_MAX
    ensures INT32_MIN <= n <= INT32_MAX ==> r == n
  {
    if n < INT32_MIN then INT32_MIN else if n > INT32_MAX then INT32_MAX else n
  }

  /** std::atoi on a string without leading blanks. C leaves numbers outside 32 bits undefined;
      here they are clamped, and no result depends on that choice. */
  function Atoi(s: string): int {
    if s != "" && s[0] == '-' then Clamp(0 - DigitsValue(LeadingDigits(s[1..])))
    else Clamp(DigitsValue(LeadingDigits(s)))
  }

  lemma {:induction false} DigitsRoundTrip(n: nat)
    ensures DigitsValue(Digits(n)) == n
  {
    if n >= 10 {
      DigitsRoundTrip(n / 10);
      assert Digits(n)[..|Digits(n)| - 1] == Digits(n / 10);
    } else {
      assert Digits(n)[..0] == "";
    }
  }

  lemma {:induction false} AllDigitsLead(s: string)
    requires forall c <- s :: IsDigit(c)
    ensures LeadingDigits(s) == s
  {
    if s != "" {
      AllDigitsLead(s[1..]);
    }
  }

  lemma AtoiOfDigits(n: nat)
    ensures Atoi(Digits(n)) == Clamp(n)
    ensures Atoi("-" + Digits(n)) == Clamp(0 - n)
  {
    var s := Digits(n);
    AllDigitsLead(s);
    DigitsRoundTrip(n);
    assert IsDigit(s[0]);
    assert ("-" + s)[1..] == s;
  }

  /** Reading back a printed 32-bit integer gives that integer, negative ones included. */
  lemma AtoiOfToString(n: int)
    requires INT32_MIN <= n <= INT32_MAX
    ensures Atoi(ToString(n)) == n
  {
    AtoiOfDigits(if n < 0 then -n else n);
  }

  lemma SignChar(n: int)
    ensures ToString(n)[0] == '-' <==> n < 0
  {
    if n >= 0 {
      assert IsDigit(Digits(n)[0]);
    }
  }

  /** Different integers print differently. */
  lemma ToStringInjective(m: int, n: int)
    requires ToString(m) == ToString(n)
    ensures m == n
  {
    SignChar(m);
    SignChar(n);
    if m < 0 {
      assert Digits(-m) == ToString(m)[1..] == ToString(n)[1..] == Digits(-n);
      DigitsRoundTrip(-m);
      DigitsRoundTrip(-n);
    } else {
      DigitsRoundTrip(m);
      DigitsRoundTrip(n);
    }
  }
}
