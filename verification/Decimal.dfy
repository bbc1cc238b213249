/** Decimal numerals of natural numbers, as template strings and f-strings print them. */
module Decimal {

  function Digit(d: nat): char
    requires d < 10
  {
    '0' + d as char
  }

  function DigitValue(c: char): nat {
    if '0' <= c <= '9' then c as int - '0' as int else 0
  }

  function Numeral(n: nat): string {
    if n < 10 then [Digit(n)] else Numeral(n / 10) + [Digit(n % 10)]
  }

  function NumeralValue(s: string): nat {
    if s == [] then 0 else NumeralValue(s[..|s| - 1]) * 10 + DigitValue(s[|s| - 1])
  }

  lemma {:induction false} NumeralValueOf(n: nat)
    ensures NumeralValue(Numeral(n)) == n
  {
    var front := if n < 10 then [] else Numeral(n / 10);
    assert Numeral(n)[..|Numeral(n)| - 1] == front;
    if n >= 10 {
      NumeralValueOf(n / 10);
    }
  }

  lemma NumeralInjective(m: nat, n: nat)
    requires Numeral(m) == Numeral(n)
    ensures m == n
  {
    NumeralValueOf(m);
    NumeralValueOf(n);
  }
}
