/** The rounding that decimal.js applies to money and quantities, over exact reals. */
module Decimal {
  import opened Prelude

  type Positive = r: real | r > 0.0 witness 1.0

  function Pow10(n: nat): Positive {
    if n == 0 then 1.0 else 10.0 * Pow10(n - 1)
  }

  /** Nearest integer, ties away from zero (ROUND_HALF_UP, decimal.js's default). */
  function RoundHalfUp(x: real): int {
    if x >= 0.0 then (x + 0.5).Floor else -((-x + 0.5).Floor)
  }

  /** Nearest multiple of 1/scale. */
  function RoundTo(x: real, scale: Positive): real {
    RoundHalfUp(x * scale) as real / scale
  }

  function ToFixed(x: real, places: nat): real {
    RoundTo(x, Pow10(places))
  }

  /** Half of 10^-places, the most that toFixed(places) can move a value. */
  function HalfUnit(places: nat): real {
    0.5 / Pow10(places)
  }

  function RoundStep(x: real, step: Positive): real {
    (x / step).Floor as real * step
  }

  function RoundTick(x: real, tick: Positive): real {
    RoundHalfUp(x / tick) as real * tick
  }

  predicate IsWhole(x: real) {
    x.Floor as real == x
  }

  /** x is a whole number of 1/scale. */
  predicate OnScale(x: real, scale: Positive) {
    IsWhole(x * scale)
  }

  predicate OnGrid(x: real, places: nat) {
    OnScale(x, Pow10(places))
  }

  lemma FloorIs(x: real, n: int)
    requires n as real <= x < n as real + 1.0
    ensures x.Floor == n
  {
  }

  lemma Scale(a: real, b: real, s: Positive)
    ensures a <= b <==> a * s <= b * s
    ensures a == b <==> a * s == b * s
  {
    assert (b - a) * s == b * s - a * s;
  }

  lemma Associate(a: real, b: real, c: real)
    ensures a * (b * c) == (a * b) * c
  {
  }

  lemma DivideBack(a: real, s: Positive)
    ensures a / s * s == a
  {
  }

  lemma WholeSum(x: real, y: real)
    requires IsWhole(x) && IsWhole(y)
    ensures IsWhole(x + y)
  {
    FloorIs(x + y, x.Floor + y.Floor);
  }

  lemma WholeNegate(x: real)
    requires IsWhole(x)
    ensures IsWhole(-x)
  {
    FloorIs(-x, -x.Floor);
  }

  lemma WholeProduct(n: int, x: real, y: real)
    requires IsWhole(x) && y == n as real * x
    ensures IsWhole(y)
  {
    assert n as real * x.Floor as real == (n * x.Floor) as real;
    FloorIs(y, n * x.Floor);
  }

  /** Whole numbers are exactly the fixed points of rounding. */
  lemma RoundFixesWhole(x: real)
    ensures IsWhole(x) <==> RoundHalfUp(x) as real == x
  {
    var n := RoundHalfUp(x);
    if n as real == x {
      FloorIs(x, n);
    }
    if IsWhole(x) {
      FloorIs(x + 0.5, x.Floor);
      FloorIs(-x + 0.5, -x.Floor);
    }
  }

  lemma RoundBetween(x: real, y: real)
    requires IsWhole(y)
    ensures 0.0 <= x <= y ==> 0.0 <= RoundHalfUp(x) as real <= y
    ensures y <= x <= 0.0 ==> y <= RoundHalfUp(x) as real <= 0.0
  {
    if 0.0 <= x <= y {
      assert (x + 0.5).Floor as real < y + 1.0;
      assert (x + 0.5).Floor < y.Floor + 1;
    }
    if y <= x < 0.0 {
      assert (-x + 0.5).Floor as real < -y + 1.0;
      assert (-x + 0.5).Floor < -y.Floor + 1;
    }
  }

  /** Rounding moves a value by at most half a grid step. */
  lemma RoundError(x: real, s: Positive)
    ensures Abs(RoundTo(x, s) - x) <= 0.5 / s
  {
    var r := RoundTo(x, s);
    DivideBack(RoundHalfUp(x * s) as real, s);
    DivideBack(0.5, s);
    assert (r - x) * s == r * s - x * s && (x - r) * s == x * s - r * s;
    Scale(r - x, 0.5 / s, s);
    Scale(x - r, 0.5 / s, s);
  }

  lemma ToFixedError(x: real, places: nat)
    ensures Abs(ToFixed(x, places) - x) <= HalfUnit(places)
  {
    RoundError(x, Pow10(places));
  }

  lemma RoundToFixesWhole(x: real, s: Positive)
    ensures OnScale(x, s) <==> RoundTo(x, s) == x
    ensures OnScale(RoundTo(x, s), s)
  {
    var n := RoundHalfUp(x * s);
    DivideBack(n as real, s);
    RoundFixesWhole(x * s);
    Scale(RoundTo(x, s), x, s);
    FloorIs(RoundTo(x, s) * s, n);
  }

  /** Grid values are exactly the fixed points of toFixed, and toFixed lands on the grid. */
  lemma ToFixedFixesGrid(x: real, places: nat)
    ensures OnGrid(x, places) <==> ToFixed(x, places) == x
    ensures OnGrid(ToFixed(x, places), places)
  {
    RoundToFixesWhole(x, Pow10(places));
  }

  lemma ScaleSum(x: real, y: real, s: Positive)
    requires OnScale(x, s) && OnScale(y, s)
    ensures OnScale(x + y, s) && OnScale(-x, s)
  {
    WholeSum(x * s, y * s);
    assert x * s + y * s == (x + y) * s;
    WholeNegate(x * s);
    assert -(x * s) == (-x) * s;
  }

  lemma GridSum(x: real, y: real, places: nat)
    requires OnGrid(x, places) && OnGrid(y, places)
    ensures OnGrid(x + y, places) && OnGrid(-x, places)
  {
    ScaleSum(x, y, Pow10(places));
  }

  lemma StepsOnScale(n: int, step: real, s: Positive)
    requires OnScale(step, s)
    ensures OnScale(n as real * step, s)
  {
    Associate(n as real, step, s);
    WholeProduct(n, step * s, (n as real * step) * s);
  }

  /** A whole number of steps lies on the grid when one step does. */
  lemma StepsOnGrid(x: real, step: Positive, places: nat)
    requires OnGrid(step, places)
    ensures OnGrid(RoundStep(x, step), places)
  {
    var n, s := (x / step).Floor, Pow10(places);
    StepsOnScale(n, step, s);
    assert RoundStep(x, step) == n as real * step;
  }

  lemma ScaledBetween(x: real, y: real, r: real, s: Positive)
    requires OnScale(y, s)
    requires r * s == RoundHalfUp(x * s) as real
    ensures 0.0 <= x <= y ==> 0.0 <= r <= y
    ensures y <= x <= 0.0 ==> y <= r <= 0.0
  {
    RoundBetween(x * s, y * s);
    Scale(x, y, s);
    Scale(y, x, s);
    Scale(0.0, x, s);
    Scale(x, 0.0, s);
    Scale(r, y, s);
    Scale(y, r, s);
    Scale(0.0, r, s);
    Scale(r, 0.0, s);
  }

  lemma RoundToBetween(x: real, y: real, s: Positive)
    requires OnScale(y, s)
    ensures 0.0 <= x <= y ==> 0.0 <= RoundTo(x, s) <= y
    ensures y <= x <= 0.0 ==> y <= RoundTo(x, s) <= 0.0
  {
    DivideBack(RoundHalfUp(x * s) as real, s);
    ScaledBetween(x, y, RoundTo(x, s), s);
  }

  /** toFixed keeps a value that lies between zero and a grid value there. */
  lemma ToFixedBetween(x: real, y: real, places: nat)
    requires OnGrid(y, places)
    ensures 0.0 <= x <= y ==> 0.0 <= ToFixed(x, places) <= y
    ensures y <= x <= 0.0 ==> y <= ToFixed(x, places) <= 0.0
  {
    RoundToBetween(x, y, Pow10(places));
  }

  /** Flooring to a step never exceeds the value. */
  lemma RoundStepBelow(x: real, step: Positive)
    ensures RoundStep(x, step) <= x
  {
    DivideBack(x, step);
    Scale((x / step).Floor as real, x / step, step);
  }

  // ----- rounding past a grid value -----

  lemma RoundNegates(x: real)
    ensures RoundHalfUp(-x) == -RoundHalfUp(x)
  {
  }

  /** Taking d from a whole w: the rounded result stays at or above zero unless d exceeds w by half or more. */
  lemma RoundBelow(w: real, d: real)
    requires IsWhole(w) && w >= 0.0 && d > 0.0
    ensures RoundHalfUp(w - d) as real <= w
    ensures RoundHalfUp(w - d) >= 0 <==> d - w < 0.5
  {
    if d <= w {
      RoundBetween(w - d, w);
    }
  }

  /** Adding d to a whole w: the rounded result stays at w unless d is half or more. */
  lemma RoundAbove(w: real, d: real)
    requires IsWhole(w) && w >= 0.0 && d > 0.0
    ensures RoundHalfUp(w + d) as real >= w
    ensures RoundHalfUp(w + d) as real == w <==> d < 0.5
  {
    var n := w.Floor;
    if d < 0.5 {
      FloorIs(w + d + 0.5, n);
    } else {
      assert (w + d + 0.5).Floor >= n + 1;
    }
  }

  /** A value in units of the grid. */
  function Units(x: real, s: Positive): real {
    x * s
  }

  lemma UnitsSum(x: real, y: real, s: Positive)
    ensures Units(x - y, s) == Units(x, s) - Units(y, s) && Units(x + y, s) == Units(x, s) + Units(y, s)
    ensures Units(0.0, s) == 0.0
  {
  }

  lemma UnitsOrder(x: real, y: real, s: Positive)
    ensures x <= y <==> Units(x, s) <= Units(y, s)
    ensures x == y <==> Units(x, s) == Units(y, s)
  {
    Scale(x, y, s);
  }

  lemma HalfIs(s: Positive)
    ensures Units(0.5 / s, s) == 0.5
  {
    DivideBack(0.5, s);
  }

  lemma RoundToIs(x: real, s: Positive)
    ensures Units(RoundTo(x, s), s) == RoundHalfUp(Units(x, s)) as real
  {
    DivideBack(RoundHalfUp(x * s) as real, s);
  }

  lemma RoundToBelow(q: real, d: real, s: Positive, half: real)
    requires IsWhole(Units(q, s)) && q >= 0.0 && d > 0.0 && Units(half, s) == 0.5
    ensures RoundTo(q - d, s) <= q && (RoundTo(q - d, s) >= 0.0 <==> d - q < half)
  {
    hide Units, RoundTo;
    var less := RoundTo(q - d, s);
    RoundToIs(q - d, s);
    UnitsSum(q, d, s);
    UnitsSum(d, q, s);
    UnitsOrder(0.0, q, s);
    UnitsOrder(d, 0.0, s);
    UnitsOrder(less, q, s);
    UnitsOrder(0.0, less, s);
    UnitsOrder(half, d - q, s);
    RoundBelow(Units(q, s), Units(d, s));
  }

  lemma RoundToAbove(q: real, d: real, s: Positive, half: real)
    requires IsWhole(Units(q, s)) && q >= 0.0 && d > 0.0 && Units(half, s) == 0.5
    ensures RoundTo(q + d, s) >= q && (RoundTo(q + d, s) == q <==> d < half)
  {
    hide Units, RoundTo;
    var more := RoundTo(q + d, s);
    RoundToIs(q + d, s);
    UnitsSum(q, d, s);
    UnitsOrder(0.0, q, s);
    UnitsOrder(d, 0.0, s);
    UnitsOrder(q, more, s);
    UnitsOrder(half, d, s);
    RoundAbove(Units(q, s), Units(d, s));
  }

  lemma RoundToNegates(x: real, s: Positive)
    ensures RoundTo(-x, s) == -RoundTo(x, s)
  {
    RoundNegates(x * s);
    assert (-x) * s == -(x * s);
    var n := RoundHalfUp(x * s) as real;
    assert (-n) / s == -(n / s) by {
      DivideBack(n, s);
      DivideBack(-n, s);
      assert (-(n / s)) * s == -(n / s * s);
      Scale((-n) / s, -(n / s), s);
    }
  }

  /** From a grid value q, toFixed of q - d stays at or above zero, and toFixed of q + d stays at q, unless what d
      has too much is half a unit or more. */
  lemma ToFixedPast(q: real, d: real, places: nat)
    requires OnGrid(q, places) && q >= 0.0 && d > 0.0
    ensures ToFixed(q - d, places) <= q && (ToFixed(q - d, places) >= 0.0 <==> d - q < HalfUnit(places))
    ensures ToFixed(q + d, places) >= q && (ToFixed(q + d, places) == q <==> d < HalfUnit(places))
  {
    HalfIs(Pow10(places));
    RoundToBelow(q, d, Pow10(places), HalfUnit(places));
    RoundToAbove(q, d, Pow10(places), HalfUnit(places));
  }

  lemma ToFixedNegates(x: real, places: nat)
    ensures ToFixed(-x, places) == -ToFixed(x, places)
  {
    RoundToNegates(x, Pow10(places));
  }

  // ----- what a place is -----

  /** Each further place divides the unit by ten, starting from whole units. */
  lemma EachPlaceIsATenth(n: nat)
    ensures HalfUnit(0) == 0.5 && HalfUnit(n) == 10.0 * HalfUnit(n + 1)
  {
    var p := Pow10(n);
    DivideBack(0.5, p);
    DivideBack(0.5, 10.0 * p);
    var h, k := 0.5 / p, 0.5 / (10.0 * p);
    assert (10.0 * k) * p == k * (10.0 * p);
    Scale(h, 10.0 * k, p);
  }

  /** Halves round away from zero on either side. */
  lemma HalvesRoundAway()
    ensures ToFixed(1.005, 2) == 1.01 && ToFixed(-1.005, 2) == -1.01 && ToFixed(1.0049, 2) == 1.0
  {
    assert Pow10(1) == 10.0 && Pow10(2) == 100.0;
    assert 1.005 * 100.0 == 100.5 && -1.005 * 100.0 == -100.5 && 1.0049 * 100.0 == 100.49;
    assert RoundHalfUp(100.5) == 101 && RoundHalfUp(-100.5) == -101 && RoundHalfUp(100.49) == 100;
  }
}
