/**
 Two-decimal money (money.ts) as whole piasters. Arithmetic on decimals is exact and every result is
 rounded half away from zero, as Decimal.ROUND_HALF_UP does.
 */
module Money {

  // `x` in piasters, to the nearest whole piaster.
  function Round(x: real): (r: int)
    ensures -0.5 <= r as real - x <= 0.5
    ensures r as real - x == 0.5 ==> x >= 0.0
    ensures r as real - x == -0.5 ==> x < 0.0
  {
    if x >= 0.0 then (x + 0.5).Floor else -((-x + 0.5).Floor)
  }

  // An amount in pounds.
  function FormatMoney(pounds: real): int {
    Round(pounds * 100.0)
  }

  function ToPounds(piasters: int): real {
    piasters as real / 100.0
  }

  // `percent` of an amount of money.
  function Percent(base: int, percent: real): int {
    Round(base as real * percent / 100.0)
  }

  // Rounding is the only function with these three properties.
  lemma RoundIsNearest(x: real, r: int)
    requires -0.5 <= r as real - x <= 0.5
    requires r as real - x == 0.5 ==> x >= 0.0
    requires r as real - x == -0.5 ==> x < 0.0
    ensures r == Round(x)
  {
  }

  lemma RoundOdd(x: real)
    ensures Round(-x) == -Round(x)
  {
    if x != 0.0 { RoundIsNearest(-x, -Round(x)); }
  }

  lemma RoundInteger(n: int)
    ensures Round(n as real) == n
  {
  }

  lemma FormatMoneyStable(piasters: int)
    ensures FormatMoney(ToPounds(piasters)) == piasters
  {
    assert ToPounds(piasters) * 100.0 == piasters as real;
    RoundInteger(piasters);
  }
}
