/** The arithmetic helpers shared by the strategies: arithmetic grid
    levels, the per-grid order quantity, rounding down to a number of
    decimals, and the profit and profit rate of a long or short position.
    Arithmetic is exact over reals; floating-point rounding is not
    modelled. */
module Helpers {
  import opened Wrappers
  import opened Builtins

  /** The exceptions these helpers raise. */
  datatype HelperError = ValueError(msg: string) | ZeroDivisionError

  /* ---------------------------------------------------------------------
     Grid levels
     --------------------------------------------------------------------- */

  /** `calculate_grid_levels`: grid_num evenly spaced prices from the lower
      bound to the upper bound. */
  function GridLevels(upper: real, lower: real, gridNum: int): (r: Result<seq<real>, HelperError>)
    ensures gridNum < 2 ==> r == Err(ValueError("网格数量必须大于等于2"))
    ensures gridNum >= 2 && upper <= lower ==> r == Err(ValueError("价格上限必须大于价格下限"))
  {
    if gridNum < 2 then Err(ValueError("网格数量必须大于等于2"))
    else if upper <= lower then Err(ValueError("价格上限必须大于价格下限"))
    else
      var step := (upper - lower) / (gridNum - 1) as real;
      Ok(seq(gridNum, i => lower + i as real * step))
  }

  /** The grid when the arguments are valid: exactly grid_num levels from
      lower to upper, a constant step apart and strictly increasing. */
  lemma GridLevelsShape(upper: real, lower: real, gridNum: int)
    requires gridNum >= 2 && upper > lower
    ensures GridLevels(upper, lower, gridNum).Ok?
    ensures var levels := GridLevels(upper, lower, gridNum).value;
      && |levels| == gridNum
      && levels[0] == lower
      && levels[gridNum - 1] == upper
      && (forall i :: 0 <= i < gridNum - 1 ==>
            levels[i + 1] - levels[i] == (upper - lower) / (gridNum - 1) as real)
      && (forall i, j :: 0 <= i < j < gridNum ==> levels[i] < levels[j])
  {
    var levels := GridLevels(upper, lower, gridNum).value;
    var n := (gridNum - 1) as real;
    var step := (upper - lower) / n;
    assert step > 0.0;
    assert levels[gridNum - 1] == lower + n * step;
    assert n * step == upper - lower;
    forall i, j | 0 <= i < j < gridNum
      ensures levels[i] < levels[j]
    {
      assert levels[j] - levels[i] == (j - i) as real * step;
    }
  }

  /** Valid arguments are exactly those that yield a grid. */
  lemma GridLevelsValid(upper: real, lower: real, gridNum: int)
    ensures GridLevels(upper, lower, gridNum).Ok? <==> gridNum >= 2 && upper > lower
  {
  }

  /* ---------------------------------------------------------------------
     Sizing and rounding
     --------------------------------------------------------------------- */

  /** `calculate_position_size`: the investment turned into a quantity at
      price and shared among grid_num grids; a zero divisor raises. */
  function PositionSize(investment: real, price: real, gridNum: int): (r: Result<real, HelperError>)
    ensures r.Err? <==> price == 0.0 || gridNum == 0
    ensures r.Err? ==> r.error == ZeroDivisionError
    ensures r.Ok? ==> r.value * price * gridNum as real == investment
  {
    if price == 0.0 || gridNum == 0 then Err(ZeroDivisionError)
    else Ok(investment / price / gridNum as real)
  }

  /** 10 ** d, which Python evaluates to a fraction for a negative d. */
  function Pow10(d: int): (m: real)
    ensures m > 0.0
    decreases if d < 0 then -d else d
  {
    if d == 0 then 1.0
    else if d > 0 then 10.0 * Pow10(d - 1)
    else Pow10(d + 1) / 10.0
  }

  /** `round_down`: floor(value * 10^d) / 10^d. */
  function RoundDown(value: real, decimals: int): real
  {
    FloorToUnit(value, Pow10(decimals))
  }

  /** floor(x * m) / m: x rounded down to a whole number of units 1/m. */
  function FloorToUnit(x: real, m: real): real
    requires m > 0.0
  {
    (x * m).Floor as real / m
  }

  /** Rounding down never rounds up and loses less than one unit of the
      last kept decimal: 0 <= value - round_down(value, d) < 10^-d. */
  lemma RoundDownBounds(value: real, decimals: int)
    ensures RoundDown(value, decimals) <= value
    ensures (value - RoundDown(value, decimals)) * Pow10(decimals) < 1.0
  {
    FloorToUnitBounds(value, Pow10(decimals));
  }

  /** What round_down returns is already rounded: rounding it again
      changes nothing. */
  lemma RoundDownIdempotent(value: real, decimals: int)
    ensures RoundDown(RoundDown(value, decimals), decimals) == RoundDown(value, decimals)
  {
    FloorToUnitIdempotent(value, Pow10(decimals));
  }

  lemma FloorToUnitBounds(x: real, m: real)
    requires m > 0.0
    ensures FloorToUnit(x, m) <= x
    ensures (x - FloorToUnit(x, m)) * m < 1.0
  {
    var k := (x * m).Floor as real;
    var q := k / m;
    DivMulCancel(k, m);
    MulLeCancel(q, x, m);
    SubMul(x, q, m);
    assert x * m - k < 1.0;
  }

  lemma FloorToUnitIdempotent(x: real, m: real)
    requires m > 0.0
    ensures FloorToUnit(FloorToUnit(x, m), m) == FloorToUnit(x, m)
  {
    var k := (x * m).Floor;
    DivMulCancel(k as real, m);
    assert FloorToUnit(x, m) * m == k as real;
  }

  lemma DivMulCancel(a: real, m: real)
    requires m > 0.0
    ensures a / m * m == a
  {
  }

  lemma MulLeCancel(a: real, b: real, m: real)
    requires m > 0.0 && a * m <= b * m
    ensures a <= b
  {
  }

  lemma SubMul(a: real, b: real, m: real)
    ensures (a - b) * m == a * m - b * m
  {
  }

  /* ---------------------------------------------------------------------
     Profit and loss
     --------------------------------------------------------------------- */

  function InvalidSide(side: string): HelperError
  {
    ValueError("Invalid side: " + side)
  }

  /** `calculate_pnl`: the price move times the size, counted upward for a
      long and downward for a short; the side is matched without regard to
      case, and any other side raises. */
  function Pnl(entry: real, current: real, size: real, side: string): (r: Result<real, HelperError>)
    ensures r.Ok? <==> Lower(side) == "long" || Lower(side) == "short"
    ensures r.Err? ==> r.error == InvalidSide(side)
  {
    if Lower(side) == "long" then Ok((current - entry) * size)
    else if Lower(side) == "short" then Ok((entry - current) * size)
    else Err(InvalidSide(side))
  }

  /** `calculate_pnl_rate`: the same case split, as a fraction of the entry
      price; a zero entry price raises. */
  function PnlRate(entry: real, current: real, side: string): (r: Result<real, HelperError>)
    ensures (Lower(side) != "long" && Lower(side) != "short") ==> r == Err(InvalidSide(side))
    ensures (Lower(side) == "long" || Lower(side) == "short") && entry == 0.0 ==> r == Err(ZeroDivisionError)
  {
    if Lower(side) == "long" then
      if entry == 0.0 then Err(ZeroDivisionError) else Ok((current - entry) / entry)
    else if Lower(side) == "short" then
      if entry == 0.0 then Err(ZeroDivisionError) else Ok((entry - current) / entry)
    else Err(InvalidSide(side))
  }

  /** A long and a short of the same size gain exactly opposite amounts. */
  lemma PnlLongShortOpposite(entry: real, current: real, size: real)
    ensures Pnl(entry, current, size, "long").Ok? && Pnl(entry, current, size, "short").Ok?
    ensures Pnl(entry, current, size, "long").value == -Pnl(entry, current, size, "short").value
  {
    assert Lower("long") == "long";
    assert Lower("short") == "short";
  }

  /** Case does not matter: "LONG", "Long" and "long" agree. */
  lemma PnlIgnoresCase(entry: real, current: real, size: real, side: string)
    ensures Pnl(entry, current, size, side).Ok? == Pnl(entry, current, size, Lower(side)).Ok?
    ensures Pnl(entry, current, size, side).Ok? ==>
      Pnl(entry, current, size, side) == Pnl(entry, current, size, Lower(side))
  {
    LowerIdempotent(side);
  }

  /** The rate is the profit of one unit divided by the entry price. */
  lemma PnlRateIsUnitPnl(entry: real, current: real, side: string)
    requires entry != 0.0
    ensures PnlRate(entry, current, side).Ok? <==> Pnl(entry, current, 1.0, side).Ok?
    ensures PnlRate(entry, current, side).Ok? ==>
      PnlRate(entry, current, side).value == Pnl(entry, current, 1.0, side).value / entry
  {
  }

  /** The profit of a position is its rate times entry price times size. */
  lemma PnlFromRate(entry: real, current: real, size: real, side: string)
    requires entry != 0.0 && PnlRate(entry, current, side).Ok?
    ensures Pnl(entry, current, size, side).value == PnlRate(entry, current, side).value * entry * size
  {
    var d := if Lower(side) == "long" then current - entry else entry - current;
    assert PnlRate(entry, current, side).value == d / entry;
    assert d / entry * entry == d;
  }

  lemma LowerIdempotent(s: string)
    ensures Lower(Lower(s)) == Lower(s)
  {
    assert forall i :: 0 <= i < |s| ==> LowerChar(LowerChar(s[i])) == LowerChar(s[i]);
  }
}
