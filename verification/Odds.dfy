/** Odds arithmetic of the suggestion pipeline (`app/worker/pipeline/calculator.py`).
    Python's float `round` is modelled as ideal rounding half to even. */
module Odds {
  import opened Money

  /** American odds strictly between -100 and 100 do not exist. */
  predicate ValidAmerican(a: int) {
    !(-100 < a < 100)
  }

  /** Decimal odds scaled by 10^4. */
  function AmericanToDecimal(a: int): (d: int)
    requires ValidAmerican(a)
    ensures d >= ODDS_ONE
  {
    if a > 0 then a * 100 + ODDS_ONE
    else
      HalfEvenError(1_000_000, -a);
      HalfEven(1_000_000, -a) + ODDS_ONE
  }

  /** A numerically higher American price never pays less, across the sign change as well. */
  lemma AmericanToDecimalMonotone(a: int, b: int)
    requires ValidAmerican(a) && ValidAmerican(b) && a <= b
    ensures AmericanToDecimal(a) <= AmericanToDecimal(b)
  {
    if b < 0 {
      HalfEvenAntitone(1_000_000, -b, -a);
    } else if a < 0 {
      HalfEvenAntitone(1_000_000, 100, -a);
      assert HalfEven(1_000_000, 100) == 10_000;
    }
  }

  /** An underdog's decimal odds are exactly a / 100 + 1, and a favourite's the nearest multiple of 0.0001
      to 100 / |a| + 1. */
  lemma AmericanIsNearest(a: int)
    requires ValidAmerican(a)
    ensures a > 0 ==> 100 * (AmericanToDecimal(a) - 10_000) == 10_000 * a
    ensures a < 0 ==> 2 * Abs(-a * (AmericanToDecimal(a) - 10_000) - 1_000_000) <= -a
  {
    if a < 0 {
      HalfEvenError(1_000_000, -a);
    }
  }

  /** Closing line value, (bet / closing - 1) * 100 to two places, scaled by 10^2. */
  function Clv(bet: int, closing: int): int
    requires closing > 0
  {
    HalfEven((bet - closing) * 10_000, closing)
  }

  /** The closing line value is the nearest hundredth of a percent to the relative gain, so its sign
      never contradicts which price was better. */
  lemma ClvIsNearest(bet: int, closing: int)
    requires closing > 0
    ensures 2 * Abs(closing * Clv(bet, closing) - (bet - closing) * 10_000) <= closing
    ensures bet >= closing ==> Clv(bet, closing) >= 0
    ensures bet <= closing ==> Clv(bet, closing) <= 0
  {
    HalfEvenError((bet - closing) * 10_000, closing);
    SignOfNearest(closing, Clv(bet, closing), (bet - closing) * 10_000);
    hide HalfEven;
  }

  lemma SignOfNearest(d: int, q: int, n: int)
    requires d > 0 && 2 * Abs(d * q - n) <= d
    ensures n >= 0 ==> q >= 0
    ensures n <= 0 ==> q <= 0
  {
    if q <= -1 { Scale(d, q, -1); }
    if q >= 1 { Scale(d, 1, q); }
  }
}
