/** JavaScript text: sequences of UTF-16 code units. */
module Texts {
  import opened Wrappers

  type Unit = u: int | 0 <= u < 0x1_0000

  type Text = seq<Unit>

  const NEWLINE: Unit := 10

  predicate IsDigit(u: Unit) {
    48 <= u <= 57
  }

  function Decimal(n: nat): (t: Text)
    ensures |t| > 0 && AllDigits(t)
    ensures t[0] == 48 ==> n == 0
  {
    if n < 10 then [48 + n] else Decimal(n / 10) + [48 + n % 10]
  }

  predicate AllDigits(t: Text) {
    forall i :: 0 <= i < |t| ==> IsDigit(t[i])
  }

  function DigitsValue(t: Text): nat
    requires AllDigits(t)
  {
    if t == [] then 0 else
      assert IsDigit(t[|t| - 1]);
      10 * DigitsValue(t[..|t| - 1]) + (t[|t| - 1] as int - 48)
  }

  /** Reading a decimal numeral back gives the number. */
  lemma {:induction false} DecimalRoundTrip(n: nat)
    ensures DigitsValue(Decimal(n)) == n
  {
    if n >= 10 {
      DecimalRoundTrip(n / 10);
      assert Decimal(n)[..|Decimal(n)| - 1] == Decimal(n / 10);
    }
  }

  lemma HeadOfConcat<T>(u: seq<T>, s: seq<T>)
    requires u != []
    ensures (u + s)[0] == u[0] && (u + s)[1..] == u[1..] + s
  {
  }
}
