/** Decimal text: what strconv.Itoa writes and strconv.ParseInt (base 10) reads back. */
module Decimal {
  import opened Basics

  predicate IsDigit(c: char) { '0' <= c <= '9' }

  function DigitChar(d: nat): (c: char)
    requires d < 10
    ensures IsDigit(c) && c as int - '0' as int == d
  {
    '0' + d as char
  }

  /** The decimal digits of a natural number, without leading zeros. */
  function Digits(n: nat): (s: string)
    ensures |s| > 0 && forall i | 0 <= i < |s| :: IsDigit(s[i])
  {
    if n < 10 then [DigitChar(n)] else Digits(n / 10) + [DigitChar(n % 10)]
  }

  function Itoa(n: int): (s: string)
    ensures |s| > 0
    ensures forall i | 0 <= i < |s| :: IsDigit(s[i]) || (i == 0 && s[0] == '-')
  {
    if n < 0 then "-" + Digits(-n) else Digits(n)
  }

  function DigitOf(c: char): nat
    requires IsDigit(c)
  {
    c as int - '0' as int
  }

  /** The number a string of digits denotes. */
  function DigitsValue(s: string): nat
    requires forall i | 0 <= i < |s| :: IsDigit(s[i])
  {
    if s == [] then 0
    else 10 * DigitsValue(s[..|s| - 1]) + DigitOf(s[|s| - 1])
  }

  /** An optional sign and at least one digit; anything else is a syntax error. */
  function ParseInt(s: string): Option<int> {
    var digits := Unsigned(s);
    if digits == [] || exists i | 0 <= i < |digits| :: !IsDigit(digits[i]) then None
    else if s[0] == '-' then Some(-(DigitsValue(digits) as int))
    else Some(DigitsValue(digits))
  }

  function Unsigned(s: string): string { if s != [] && (s[0] == '-' || s[0] == '+') then s[1..] else s }

  /** One sign may precede the digits, of which there is at least one. */
  lemma SignsRead(n: nat)
    ensures ParseInt("+" + Digits(n)) == Some(n) && ParseInt("-" + Digits(n)) == Some(-(n as int))
    ensures ParseInt("+") == None && ParseInt("-") == None && ParseInt("") == None
  {
    DigitsRoundTrip(n);
    var plus, minus := "+" + Digits(n), "-" + Digits(n);
    assert plus[0] == '+' && plus[1..] == Digits(n);
    assert minus[0] == '-' && minus[1..] == Digits(n);
  }

  lemma SecondSign(s: string)
    requires |s| > 1 && !IsDigit(s[1])
    ensures ParseInt(s) == None
  {
    var digits := Unsigned(s);
    assert !IsDigit(digits[if |digits| < |s| then 0 else 1]);
  }

  lemma {:induction false} DigitsRoundTrip(n: nat)
    ensures DigitsValue(Digits(n)) == n
  {
    if n < 10 {
      assert Digits(n)[..0] == [];
    } else {
      DigitsRoundTrip(n / 10);
      assert Digits(n)[..|Digits(n)| - 1] == Digits(n / 10);
    }
  }

  lemma ItoaRoundTrip(n: int)
    ensures ParseInt(Itoa(n)) == Some(n)
  {
    if n < 0 {
      DigitsRoundTrip(-n);
      assert Itoa(n)[1..] == Digits(-n);
    } else {
      DigitsRoundTrip(n);
      assert IsDigit(Itoa(n)[0]);
    }
  }

  /** Different numbers are written differently. */
  lemma ItoaInjective(m: int, n: int)
    requires Itoa(m) == Itoa(n)
    ensures m == n
  {
    ItoaRoundTrip(m);
    ItoaRoundTrip(n);
  }
}
