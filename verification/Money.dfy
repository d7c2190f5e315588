/** Money and rounding.

    Stored amounts are whole cents (`Numeric(_, 2)`), odds are integers scaled by 10^4
    (`Numeric(6, 4)`), and an unrounded product of the two is counted in micros, 10^-6 of a
    currency unit, so that 10_000 micros make one cent.
 */
module Money {
  const MICROS_PER_CENT: int := 10_000
  const ODDS_ONE: int := 10_000

  function Abs(x: int): nat {
    if x < 0 then -x else x
  }

  /** What PostgreSQL stores when an exact amount is written to a `Numeric(_, 2)` column:
      rounding half away from zero. */
  function ToCents(micros: int): int {
    if micros >= 0 then (micros + 5_000) / MICROS_PER_CENT else -((-micros + 5_000) / MICROS_PER_CENT)
  }

  /** The exact value of a stored amount. */
  function FromCents(cents: int): int {
    cents * MICROS_PER_CENT
  }

  lemma ToCentsError(micros: int)
    ensures 2 * Abs(micros - FromCents(ToCents(micros))) <= MICROS_PER_CENT
  {
  }

  lemma ToCentsExact(cents: int)
    ensures ToCents(FromCents(cents)) == cents
  {
  }

  /** Half a cent is rounded away from zero, on either side of it. */
  lemma HalfCentsRoundAway(micros: int)
    ensures ToCents(-micros) == -ToCents(micros)
    ensures micros >= 0 && 2 * (micros % MICROS_PER_CENT) == MICROS_PER_CENT ==> ToCents(micros) == micros / MICROS_PER_CENT + 1
  {
  }

  /** Adding whole cents commutes with rounding as long as no sign is crossed. */
  lemma ToCentsShift(cents: int, micros: int)
    requires cents >= 0 && micros >= 0
    ensures ToCents(FromCents(cents) + micros) == cents + ToCents(micros)
  {
  }

  /** `n / d` rounded half to even, as Python's `quantize` and ideal `round` do. */
  function HalfEven(n: int, d: int): int
    requires d > 0
  {
    var q, r := n / d, n % d;
    if 2 * r < d then q
    else if 2 * r > d then q + 1
    else if q % 2 == 0 then q else q + 1
  }

  lemma HalfEvenError(n: int, d: int)
    requires d > 0
    ensures 2 * Abs(n - d * HalfEven(n, d)) <= d
  {
    var q, r := n / d, n % d;
    assert n == d * q + r;
    assert d * (q + 1) == d * q + d;
  }

  lemma HalvesRoundToEven(n: int, d: int)
    requires d > 0 && 2 * (n % d) == d
    ensures HalfEven(n, d) % 2 == 0
  {
  }

  /** Dividing by more never rounds to more. */
  lemma HalfEvenAntitone(n: int, d: int, e: int)
    requires n >= 0 && 0 < d <= e
    ensures HalfEven(n, e) <= HalfEven(n, d)
  {
    HalfEvenError(n, d);
    HalfEvenError(n, e);
    if d < e {
      NearestAntitone(n, d, e, HalfEven(n, d), HalfEven(n, e));
    }
  }

  lemma NearestAntitone(n: int, d: int, e: int, q: int, p: int)
    requires n >= 0 && 0 < d < e
    requires 2 * n - 2 * (d * q) <= d
    requires 2 * (e * p) - 2 * n <= e
    ensures p <= q
  {
    if q < p {
      // n is at most q + 1/2 parts of size d and at least p - 1/2 parts of size e
      Halves(d, q);
      Halves(e, p - 1);
      if q < 0 {
        Scale(d, 2 * q + 1, -1);
      } else {
        Scale(d, 2 * q + 1, 2 * p - 1);
        Scale(2 * p - 1, d + 1, e);
        Distribute(2 * p - 1, d);
      }
    }
  }

  lemma Halves(d: int, q: int)
    ensures d * (2 * q + 1) == 2 * (d * q) + d
    ensures d * (q + 1) == d * q + d
  {
  }

  lemma Distribute(a: int, d: int)
    ensures a * (d + 1) == a * d + a
  {
  }

  /** Scaling by a non-negative factor, on either side, keeps order. */
  lemma Scale(a: int, x: int, y: int)
    requires a >= 0 && x <= y
    ensures a * x <= a * y && a * x == x * a && a * y == y * a
  {
  }
}
