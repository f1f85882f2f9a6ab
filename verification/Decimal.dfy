/** Decimal numerals, as `%d` writes them. */
module Decimal {

  predicate IsDigit(c: char) { '0' <= c <= '9' }

  predicate AllDigits(s: string) {
    forall i :: 0 <= i < |s| ==> IsDigit(s[i])
  }

  function Render(n: nat): string {
    if n < 10 then [('0' as int + n) as char] else Render(n / 10) + Render(n % 10)
  }

  function Value(s: string): nat
    requires AllDigits(s)
  {
    if s == [] then 0 else Value(s[..|s| - 1]) * 10 + (s[|s| - 1] as int - '0' as int)
  }

  /** Reading back what was written: in particular no two numbers are written alike; and no zero leads. */
  lemma {:induction false} ValueOfRender(n: nat)
    ensures Render(n) != [] && AllDigits(Render(n)) && Value(Render(n)) == n
    ensures Render(n)[0] == '0' ==> Render(n) == "0"
  {
    if n >= 10 {
      ValueOfRender(n / 10);
      ValueOfRender(n % 10);
      var s := Render(n);
      assert |Render(n % 10)| == 1 && s[..|s| - 1] == Render(n / 10);
    }
  }
}
