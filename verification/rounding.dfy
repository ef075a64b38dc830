/** `Number(x.toFixed(d))` over exact reals: the value is rounded to the
    nearest multiple of 10^-d, a tie going to the larger magnitude, and the
    sign is kept (section 21.1.3.3 of ECMAScript, Number.prototype.toFixed). */
module Rounding {

  /** The fraction-digit counts the dashboard passes to `toFixed`. */
  type FractionDigits = d: nat | d <= 6

  function Pow10(d: FractionDigits): (p: real)
    ensures p >= 1.0
  {
    if d == 0 then 1.0
    else if d == 1 then 10.0
    else if d == 2 then 100.0
    else if d == 3 then 1000.0
    else if d == 4 then 10000.0
    else if d == 5 then 100000.0
    else 1000000.0
  }

  /** Half a unit in the last place of d fraction digits. */
  function HalfUnit(d: FractionDigits): (h: real)
    ensures 0.0 < h <= 0.5
  {
    0.5 / Pow10(d)
  }

  function Abs(x: real): (a: real)
    ensures a >= 0.0
    ensures a == x || a == -x
  {
    if x < 0.0 then -x else x
  }

  /** x is a whole number of units of 10^-d. */
  ghost predicate OnGrid(x: real, d: FractionDigits) {
    (x * Pow10(d)).Floor as real == x * Pow10(d)
  }

  /** The whole number nearest to x, the one of larger magnitude on a tie. */
  function RoundToWhole(x: real): real {
    var n := if x < 0.0 then -((-x + 0.5).Floor) else (x + 0.5).Floor;
    n as real
  }

  lemma RoundToWholeBounds(x: real)
    ensures x >= 0.0 ==> RoundToWhole(x) >= 0.0
    ensures x <= 0.0 ==> RoundToWhole(x) <= 0.0
    ensures RoundToWhole(x).Floor as real == RoundToWhole(x)
    ensures -0.5 <= RoundToWhole(x) - x <= 0.5
  {
  }

  /** `Number(x.toFixed(d))`. */
  function ToFixed(x: real, d: FractionDigits): real {
    RoundToWhole(x * Pow10(d)) / Pow10(d)
  }

  /** The rounded value is within half a unit of the last place of x. */
  lemma ToFixedNear(x: real, d: FractionDigits)
    ensures -HalfUnit(d) <= ToFixed(x, d) - x <= HalfUnit(d)
  {
    RoundToWholeBounds(x * Pow10(d));
    // One empty branch per digit count: in each, Pow10(d) is a literal, which
    // keeps the postcondition's arithmetic linear for the solver.
    if d == 0 {
    } else if d == 1 {
    } else if d == 2 {
    } else if d == 3 {
    } else if d == 4 {
    } else if d == 5 {
    } else {
    }
  }

  /** The rounded value keeps the sign of x. */
  lemma ToFixedSign(x: real, d: FractionDigits)
    ensures x >= 0.0 ==> ToFixed(x, d) >= 0.0
    ensures x <= 0.0 ==> ToFixed(x, d) <= 0.0
  {
    RoundToWholeBounds(x * Pow10(d));
    // One empty branch per digit count: in each, Pow10(d) is a literal, which
    // keeps the postcondition's arithmetic linear for the solver.
    if d == 0 {
    } else if d == 1 {
    } else if d == 2 {
    } else if d == 3 {
    } else if d == 4 {
    } else if d == 5 {
    } else {
    }
  }

  /** The rounded value lies on the grid of 10^-d. */
  lemma ToFixedOnGridResult(x: real, d: FractionDigits)
    ensures OnGrid(ToFixed(x, d), d)
  {
    RoundToWholeBounds(x * Pow10(d));
    // One empty branch per digit count: in each, Pow10(d) is a literal, which
    // keeps the postcondition's arithmetic linear for the solver.
    if d == 0 {
    } else if d == 1 {
    } else if d == 2 {
    } else if d == 3 {
    } else if d == 4 {
    } else if d == 5 {
    } else {
    }
  }

  /** Rounding leaves a value already on the grid unchanged. */
  lemma ToFixedOnGrid(x: real, d: FractionDigits)
    requires OnGrid(x, d)
    ensures ToFixed(x, d) == x
  {
    RoundWholeOfWhole(x * Pow10(d));
  }

  lemma RoundWholeOfWhole(x: real)
    requires x.Floor as real == x
    ensures RoundToWhole(x) == x
  {
    var k := x.Floor;
    if x < 0.0 {
      assert -x == (-k) as real;
      assert (-x + 0.5).Floor == -k;
    } else {
      assert (x + 0.5).Floor == k;
    }
  }

  lemma RoundWholeMonotone(x: real, y: real)
    requires x <= y
    ensures RoundToWhole(x) <= RoundToWhole(y)
  {
    if 0.0 <= x {
      assert (x + 0.5).Floor <= (y + 0.5).Floor;
    } else if y < 0.0 {
      assert (-y + 0.5).Floor <= (-x + 0.5).Floor;
    }
  }

  /** Zero is on every grid, and the grid is closed under addition. */
  lemma OnGridZero(d: FractionDigits)
    ensures OnGrid(0.0, d)
  {
  }

  lemma OnGridAdd(a: real, b: real, d: FractionDigits)
    requires OnGrid(a, d) && OnGrid(b, d)
    ensures OnGrid(a + b, d)
  {
    assert (a + b) * Pow10(d) == a * Pow10(d) + b * Pow10(d);
    WholeAdd(a * Pow10(d), b * Pow10(d));
  }

  lemma WholeAdd(u: real, v: real)
    requires u.Floor as real == u && v.Floor as real == v
    ensures (u + v).Floor as real == u + v
  {
    assert u + v == (u.Floor + v.Floor) as real;
  }

  /** Rounding keeps the order of values. */
  lemma ToFixedMonotone(x: real, y: real, d: FractionDigits)
    requires x <= y
    ensures ToFixed(x, d) <= ToFixed(y, d)
  {
    assert x * Pow10(d) <= y * Pow10(d);
    RoundWholeMonotone(x * Pow10(d), y * Pow10(d));
  }
}
