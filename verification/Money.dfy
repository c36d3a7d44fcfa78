// Rounding of money to a millionth of a dollar.
module Money {

  const HALF: real := 0.0000005

  /** The nearest millionth, halves upwards, counted in millionths. */
  function Millionths(x: real): int {
    (x * 1000000.0 + 0.5).Floor
  }

  function Round6(x: real): real {
    Millionths(x) as real / 1000000.0
  }

  lemma RoundingIsClose(x: real)
    ensures -HALF <= x - Round6(x) <= HALF
  {
  }

  /** The rounded amount is the whole number of millionths that is nearest, the upper
      one of two. */
  lemma RoundingIsNearest(x: real, n: int)
    ensures Round6(x) == n as real / 1000000.0 <==> -HALF <= x - n as real / 1000000.0 < HALF
  {
    assert Round6(x) == n as real / 1000000.0 <==> Millionths(x) == n;
  }

  lemma RoundingIsMonotone(x: real, y: real)
    requires x <= y
    ensures Round6(x) <= Round6(y)
  {
    assert Millionths(x) <= Millionths(y);
  }

  lemma RoundingKeepsSign(x: real)
    requires x >= 0.0
    ensures Round6(x) >= 0.0
  {
    assert Millionths(x) >= 0;
  }

  /** Two rounded amounts are equal or a millionth apart. */
  lemma RoundedAmountsAreApart(x: real, y: real)
    requires -HALF <= Round6(x) - Round6(y) <= HALF
    ensures Round6(x) == Round6(y)
  {
    var m, n := Millionths(x), Millionths(y);
    assert Round6(x) - Round6(y) == (m - n) as real / 1000000.0;
    assert m == n;
  }
}
