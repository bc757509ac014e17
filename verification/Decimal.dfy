/** How JavaScript writes a natural number, and reads it back. */
module Decimal {
  const DIGITS: string := "0123456789"

  function Decimal(n: nat): string
  {
    if n < 10 then [DIGITS[n]] else Decimal(n / 10) + [DIGITS[n % 10]]
  }

  predicate IsDigit(c: char) { '0' <= c <= '9' }

  function DigitValue(c: char): nat
    requires IsDigit(c)
  {
    c as int - '0' as int
  }

  predicate AllDigits(s: string) { forall i :: 0 <= i < |s| ==> IsDigit(s[i]) }

  function Value(s: string): nat
    requires AllDigits(s)
  {
    if s == "" then 0 else 10 * Value(s[..|s| - 1]) + DigitValue(s[|s| - 1])
  }

  lemma DigitFacts(d: nat)
    requires d < 10
    ensures IsDigit(DIGITS[d]) && DigitValue(DIGITS[d]) == d
  {
  }

  lemma {:induction false} RoundTrip(n: nat)
    ensures AllDigits(Decimal(n)) && Value(Decimal(n)) == n && |Decimal(n)| >= 1
  {
    DigitFacts(n % 10);
    if n < 10 {
      assert Decimal(n)[..0] == "";
    } else {
      RoundTrip(n / 10);
      assert Decimal(n)[..|Decimal(n)| - 1] == Decimal(n / 10);
    }
  }

  /** A numeral has no needless zero at its front. */
  lemma {:induction false} NoLeadingZero(n: nat)
    ensures Decimal(n) == "0" || (|Decimal(n)| >= 1 && Decimal(n)[0] != '0')
  {
    if n >= 10 {
      NoLeadingZero(n / 10);
    }
  }

  lemma Injective(m: nat, n: nat)
    ensures Decimal(m) == Decimal(n) ==> m == n
  {
    RoundTrip(m);
    RoundTrip(n);
  }
}
