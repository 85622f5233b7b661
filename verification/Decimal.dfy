/** Unsigned decimal spellings. */
module Decimal {
  function Digit(d: nat): char
    requires d < 10
  {
    (d + 48) as char
  }

  predicate IsDigit(c: char) {
    '0' <= c <= '9'
  }

  function Digits(n: nat): string {
    if n < 10 then [Digit(n)] else Digits(n / 10) + [Digit(n % 10)]
  }

  function ValueOf(s: string): nat
    requires forall i | 0 <= i < |s| :: IsDigit(s[i])
  {
    if s == [] then 0
    else
      assert IsDigit(s[|s| - 1]);
      ValueOf(s[..|s| - 1]) * 10 + (s[|s| - 1] as int - 48)
  }

  predicate AllDigits(s: string) {
    s != [] && forall i | 0 <= i < |s| :: IsDigit(s[i])
  }

  /** `0`, or digits that do not start with `0`. */
  predicate IsShortest(s: string) {
    AllDigits(s) && (s[0] == '0' ==> s == "0")
  }

  lemma {:induction false} DigitsAreShortest(n: nat)
    ensures IsShortest(Digits(n)) && ValueOf(Digits(n)) == n && (Digits(n)[0] == '0' <==> n == 0)
  {
    if n < 10 {
      assert Digits(n)[..0] == [];
    } else {
      DigitsAreShortest(n / 10);
      var front := Digits(n / 10);
      assert Digits(n)[..|front|] == front;
    }
  }

  /** A shortest spelling is the spelling of its value. */
  lemma {:induction false} ShortestIsDigits(s: string)
    requires IsShortest(s)
    ensures Digits(ValueOf(s)) == s && (s[0] == '0' <==> ValueOf(s) == 0)
  {
    var n := |s| - 1;
    var last := s[n] as int - 48;
    assert Digit(last) == s[n];
    if n == 0 {
      assert s[..0] == [] && s == [s[0]];
    } else {
      var front := s[..n];
      assert front[0] == s[0];
      ShortestIsDigits(front);
      var v := ValueOf(front);
      assert v >= 1 && ValueOf(s) == v * 10 + last;
      assert ValueOf(s) / 10 == v && ValueOf(s) % 10 == last;
      assert s == front + [s[n]];
    }
  }

  lemma DigitsDetermine(a: nat, b: nat)
    requires Digits(a) == Digits(b)
    ensures a == b
  {
    DigitsAreShortest(a);
    DigitsAreShortest(b);
  }

  lemma DigitsLack(n: nat, c: char)
    requires !IsDigit(c)
    ensures c !in Digits(n)
  {
    DigitsAreShortest(n);
  }
}
