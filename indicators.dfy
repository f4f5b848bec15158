/** The technical indicators the strategies compute from a list of prices:
    the simple moving average of the last `period` prices, the relative
    strength index over the last `period` price moves, the exponential
    moving average folded over the whole list, and Bollinger bands around
    the moving average.  The standard deviation the bands need is an
    input. */
module Indicators {
  import opened Wrappers
  import opened Builtins

  /* ---------------------------------------------------------------------
     Simple moving average
     --------------------------------------------------------------------- */

  /** sum(prices[-period:]) / period, or None with fewer than `period`
      prices. */
  function MovingAverage(prices: seq<real>, period: int): (r: Option<real>)
    requires period >= 1
    ensures r.None? <==> |prices| < period
  {
    if |prices| < period then None
    else Some(Sum(LastN(prices, period)) / period as real)
  }

  /** The average lies between the lowest and the highest of the prices it
      averages. */
  lemma MovingAverageBounds(prices: seq<real>, period: int, lo: real, hi: real)
    requires period >= 1 && |prices| >= period
    requires forall i :: |prices| - period <= i < |prices| ==> lo <= prices[i] <= hi
    ensures lo <= MovingAverage(prices, period).value <= hi
  {
    var w := LastN(prices, period);
    assert forall i :: 0 <= i < |w| ==> lo <= w[i] <= hi by {
      forall i | 0 <= i < |w|
        ensures lo <= w[i] <= hi
      {
        assert w[i] == prices[|prices| - period + i];
      }
    }
    MeanBounds(w, lo, hi);
  }

  /** The crossover entry rule of the moving-average strategies: nothing
      before `longPeriod` prices are buffered; then "long" when the short
      average is above the long one and the price above the short one,
      "short" in the mirrored case. */
  function Crossover(prices: seq<real>, shortPeriod: int, longPeriod: int, price: real): (r: Option<string>)
    requires shortPeriod >= 1 && longPeriod >= 1
    ensures r.Some? ==> |prices| >= longPeriod && |prices| >= shortPeriod
  {
    if |prices| < longPeriod then None
    else
      match (MovingAverage(prices, shortPeriod), MovingAverage(prices, longPeriod))
      case (Some(s), Some(l)) =>
        if s > l && price > s then Some("long")
        else if s < l && price < s then Some("short")
        else None
      case _ => None
  }

  /** A signal needs a full buffer and follows the trend: a long has the
      price above both averages, a short below both, and there is no other
      signal. */
  lemma CrossoverFollowsTrend(prices: seq<real>, shortPeriod: int, longPeriod: int, price: real)
    requires shortPeriod >= 1 && longPeriod >= 1
    ensures |prices| < longPeriod ==> Crossover(prices, shortPeriod, longPeriod, price) == None
    ensures Crossover(prices, shortPeriod, longPeriod, price) == Some("long") <==>
      && |prices| >= longPeriod && |prices| >= shortPeriod
      && MovingAverage(prices, longPeriod).value < MovingAverage(prices, shortPeriod).value < price
    ensures Crossover(prices, shortPeriod, longPeriod, price) == Some("short") <==>
      && |prices| >= longPeriod && |prices| >= shortPeriod
      && price < MovingAverage(prices, shortPeriod).value < MovingAverage(prices, longPeriod).value
    ensures Crossover(prices, shortPeriod, longPeriod, price) in {None, Some("long"), Some("short")}
  {
  }

  /* ---------------------------------------------------------------------
     Relative strength index
     --------------------------------------------------------------------- */

  /** The gain and the loss of one price move: a rise is a gain, anything
      else a loss of its size. */
  function Gain(change: real): (r: real)
    ensures r >= 0.0
  {
    if change > 0.0 then change else 0.0
  }

  function Loss(change: real): (r: real)
    ensures r >= 0.0
  {
    if change > 0.0 then 0.0 else Abs(change)
  }

  /** The gains and the losses of the moves between consecutive prices. */
  function Gains(prices: seq<real>): (r: seq<real>)
    ensures |r| == if |prices| <= 1 then 0 else |prices| - 1
    ensures forall i :: 0 <= i < |r| ==> r[i] == Gain(prices[i + 1] - prices[i]) && r[i] >= 0.0
  {
    if |prices| <= 1 then []
    else seq(|prices| - 1, i requires 0 <= i < |prices| - 1 => Gain(prices[i + 1] - prices[i]))
  }

  function Losses(prices: seq<real>): (r: seq<real>)
    ensures |r| == if |prices| <= 1 then 0 else |prices| - 1
    ensures forall i :: 0 <= i < |r| ==> r[i] == Loss(prices[i + 1] - prices[i]) && r[i] >= 0.0
  {
    if |prices| <= 1 then []
    else seq(|prices| - 1, i requires 0 <= i < |prices| - 1 => Loss(prices[i + 1] - prices[i]))
  }

  /** The total gain and the total loss of the last `period` moves. */
  function WindowGain(prices: seq<real>, period: int): (g: real)
    requires 1 <= period && |prices| >= period + 1
    ensures g >= 0.0
  {
    var w := LastN(Gains(prices), period);
    SumNonNegative(w);
    Sum(w)
  }

  function WindowLoss(prices: seq<real>, period: int): (l: real)
    requires 1 <= period && |prices| >= period + 1
    ensures l >= 0.0
  {
    var w := LastN(Losses(prices), period);
    SumNonNegative(w);
    Sum(w)
  }

  /** `calculate_rsi`: None with fewer than period + 1 prices; 100 when the
      last `period` moves lost nothing; otherwise 100 - 100 / (1 + rs)
      with rs the average gain over the average loss. */
  function Rsi(prices: seq<real>, period: int): (r: Option<real>)
    requires period >= 1
    ensures r.None? <==> |prices| < period + 1
  {
    if |prices| < period + 1 then None
    else
      var g := WindowGain(prices, period);
      var l := WindowLoss(prices, period);
      var p := period as real;
      DivNonNegative(g, p);
      DivNonNegative(l, p);
      Some(RsiOfAverages(g / p, l / p))
  }

  lemma DivNonNegative(a: real, p: real)
    requires a >= 0.0 && p > 0.0
    ensures a / p >= 0.0
  {
  }

  /** 100 when the average loss is 0, and 100 - 100 / (1 + rs) otherwise. */
  function RsiOfAverages(avgGain: real, avgLoss: real): real
    requires avgGain >= 0.0 && avgLoss >= 0.0
  {
    if avgLoss == 0.0 then 100.0
    else 100.0 - 100.0 / (1.0 + avgGain / avgLoss)
  }

  /** The index of two sums averaged over p moves, in its usual form. */
  lemma RsiOfSums(g: real, l: real, p: real)
    requires g >= 0.0 && l >= 0.0 && p > 0.0
    ensures g / p >= 0.0 && l / p >= 0.0
    ensures l == 0.0 ==> RsiOfAverages(g / p, l / p) == 100.0
    ensures l > 0.0 ==> RsiOfAverages(g / p, l / p) == 100.0 * (g / (g + l))
  {
    if l > 0.0 {
      var ag := g / p;
      var al := l / p;
      assert al > 0.0;
      InverseRatio(ag, al);
      AveragesShare(g, l, p);
    }
  }

  /** The index in its usual form: 100 when nothing was lost, and
      otherwise the share of the gains in all moves, 100 G / (G + L);
      hence it lies in [0, 100], is 100 exactly when nothing was lost and
      0 exactly when something was lost and nothing gained. */
  lemma RsiIsGainShare(prices: seq<real>, period: int)
    requires 1 <= period && |prices| >= period + 1
    ensures var g := WindowGain(prices, period);
      var l := WindowLoss(prices, period);
      && (l == 0.0 ==> Rsi(prices, period) == Some(100.0))
      && (l > 0.0 ==> Rsi(prices, period) == Some(100.0 * (g / (g + l))))
      && 0.0 <= Rsi(prices, period).value <= 100.0
      && (Rsi(prices, period).value == 100.0 <==> l == 0.0)
      && (Rsi(prices, period).value == 0.0 <==> l > 0.0 && g == 0.0)
  {
    var g := WindowGain(prices, period);
    var l := WindowLoss(prices, period);
    RsiOfSums(g, l, period as real);
    if l > 0.0 {
      ShareBounds(g, l);
    }
  }

  /** 100 - 100 / (1 + a/b) == 100 (a / (a + b)). */
  lemma InverseRatio(a: real, b: real)
    requires a >= 0.0 && b > 0.0
    ensures 100.0 - 100.0 / (1.0 + a / b) == 100.0 * (a / (a + b))
  {
    var rs := a / b;
    assert rs * b == a;
    assert (1.0 + rs) * b == a + b;
    var x := 100.0 / (1.0 + rs);
    assert x * (1.0 + rs) == 100.0;
    assert x * (a + b) == 100.0 * b by {
      assert x * (a + b) == x * ((1.0 + rs) * b);
      assert x * ((1.0 + rs) * b) == (x * (1.0 + rs)) * b;
    }
    DivFromMul(x, 100.0 * b, a + b);
    SharesAddUp(a, b);
  }

  lemma DivFromMul(x: real, y: real, z: real)
    requires z != 0.0 && x * z == y
    ensures x == y / z
  {
  }

  lemma SharesAddUp(a: real, b: real)
    requires a + b > 0.0
    ensures 100.0 * (a / (a + b)) + 100.0 * b / (a + b) == 100.0
  {
    var u := a / (a + b);
    var v := 100.0 * b / (a + b);
    assert u * (a + b) == a;
    assert v * (a + b) == 100.0 * b;
    assert (100.0 * u + v) * (a + b) == 100.0 * (a + b);
  }

  /** Averaging both sums over the same period leaves their share alone. */
  lemma AveragesShare(g: real, l: real, p: real)
    requires g >= 0.0 && l > 0.0 && p > 0.0
    ensures (g / p) / ((g / p) + (l / p)) == g / (g + l)
  {
    assert (g / p) + (l / p) == (g + l) / p;
    var a := g / p;
    var s := (g + l) / p;
    assert a * p == g;
    assert s * p == g + l;
    var q := a / s;
    assert q * s == a;
    assert q * (g + l) == q * s * p;
  }

  lemma ShareBounds(g: real, l: real)
    requires g >= 0.0 && l > 0.0
    ensures 0.0 <= 100.0 * (g / (g + l)) < 100.0
    ensures 100.0 * (g / (g + l)) == 0.0 <==> g == 0.0
  {
    var q := g / (g + l);
    assert q * (g + l) == g;
    assert q < 1.0;
  }

  /** The moves of the last period + 1 prices are the last `period` moves:
      computing the index on that slice, as one strategy does, gives the
      same value as on the whole list. */
  lemma RsiOfWindow(prices: seq<real>, period: int)
    requires 1 <= period && |prices| >= period + 1
    ensures Rsi(LastN(prices, period + 1), period) == Rsi(prices, period)
  {
    var off := |prices| - period - 1;
    var w := LastN(prices, period + 1);
    assert w == prices[off..];
    MovesOfSuffix(prices, off);
    assert LastN(Gains(w), period) == Gains(w);
    assert LastN(Gains(prices), period) == Gains(prices)[off..];
    assert LastN(Losses(w), period) == Losses(w);
    assert LastN(Losses(prices), period) == Losses(prices)[off..];
  }

  /** The moves of a suffix are the suffix of the moves. */
  lemma MovesOfSuffix(prices: seq<real>, off: nat)
    requires off < |prices|
    ensures Gains(prices[off..]) == Gains(prices)[off..]
    ensures Losses(prices[off..]) == Losses(prices)[off..]
  {
    var s := prices[off..];
    forall i | 0 <= i < |s| - 1
      ensures Gains(s)[i] == Gains(prices)[off + i] && Losses(s)[i] == Losses(prices)[off + i]
    {
      assert s[i + 1] == prices[off + i + 1] && s[i] == prices[off + i];
    }
  }

  /** The loop of `calculate_rsi` that lists the gain and the loss of
      every move. */
  method Moves(prices: seq<real>) returns (gains: seq<real>, losses: seq<real>)
    ensures gains == Gains(prices) && losses == Losses(prices)
  {
    gains := [];
    losses := [];
    if |prices| <= 1 {
      return;
    }
    var i := 1;
    while i < |prices|
      invariant 1 <= i <= |prices|
      invariant |gains| == i - 1 && |losses| == i - 1
      invariant forall k :: 0 <= k < i - 1 ==> gains[k] == Gain(prices[k + 1] - prices[k])
      invariant forall k :: 0 <= k < i - 1 ==> losses[k] == Loss(prices[k + 1] - prices[k])
    {
      var change := prices[i] - prices[i - 1];
      if change > 0.0 {
        gains := gains + [change];
        losses := losses + [0.0];
      } else {
        gains := gains + [0.0];
        losses := losses + [Abs(change)];
      }
      i := i + 1;
    }
  }

  /** `calculate_rsi`: the moves, then the averages over the last
      `period` of them. */
  method CalculateRsi(prices: seq<real>, period: int) returns (r: Option<real>)
    requires period >= 1
    ensures r == Rsi(prices, period)
  {
    if |prices| < period + 1 {
      return None;
    }
    var gains, losses := Moves(prices);
    var p := period as real;
    var g := Sum(LastN(gains, period));
    var l := Sum(LastN(losses, period));
    assert g == WindowGain(prices, period) && l == WindowLoss(prices, period);
    DivNonNegative(g, p);
    DivNonNegative(l, p);
    var avgGain := g / p;
    var avgLoss := l / p;
    if avgLoss == 0.0 {
      return Some(100.0);
    }
    var rs := avgGain / avgLoss;
    return Some(100.0 - 100.0 / (1.0 + rs));
  }

  /* ---------------------------------------------------------------------
     Exponential moving average
     --------------------------------------------------------------------- */

  /** One smoothing step: the average moves by k times its gap to the
      price. */
  function Smooth(ema: real, price: real, k: real): real
  {
    (price - ema) * k + ema
  }

  /** ema <- (price - ema) * k + ema over the remaining prices. */
  function EmaFold(ema: real, rest: seq<real>, k: real): real
    decreases |rest|
  {
    if rest == [] then ema else EmaFold(Smooth(ema, rest[0], k), rest[1..], k)
  }

  lemma EmaFoldStep(ema: real, rest: seq<real>, k: real)
    requires rest != []
    ensures EmaFold(ema, rest, k) == EmaFold(Smooth(ema, rest[0], k), rest[1..], k)
  {
  }

  /** The smoothing factor 2 / (period + 1). */
  function Smoothing(period: int): (k: real)
    requires period >= 1
    ensures 0.0 < k <= 1.0
  {
    2.0 / (period + 1) as real
  }

  /** `calculate_ema`: None with fewer than `period` prices; otherwise
      the fold seeded with the first price over all the others. */
  function Ema(prices: seq<real>, period: int): (r: Option<real>)
    requires period >= 1
    ensures r.None? <==> |prices| < period
  {
    if |prices| < period then None
    else Some(EmaFold(prices[0], prices[1..], Smoothing(period)))
  }

  /** One smoothing step moves the average towards the price and no
      further. */
  lemma StepBetween(ema: real, price: real, k: real, lo: real, hi: real)
    requires 0.0 <= k <= 1.0 && lo <= ema <= hi && lo <= price <= hi
    ensures lo <= Smooth(ema, price, k) <= hi
  {
    var d := price - ema;
    ScaleDown(d, k);
    assert Smooth(ema, price, k) == d * k + ema;
  }

  lemma ScaleDown(d: real, k: real)
    requires 0.0 <= k <= 1.0
    ensures d >= 0.0 ==> 0.0 <= d * k <= d
    ensures d < 0.0 ==> d <= d * k <= 0.0
  {
    assert d - d * k == d * (1.0 - k);
    if d >= 0.0 {
      assert d * (1.0 - k) >= 0.0;
    } else {
      assert (-d) * (1.0 - k) >= 0.0;
      assert (-d) * k >= 0.0;
    }
  }

  lemma {:induction false} EmaFoldBounds(ema: real, rest: seq<real>, k: real, lo: real, hi: real)
    requires 0.0 <= k <= 1.0 && lo <= ema <= hi
    requires forall i :: 0 <= i < |rest| ==> lo <= rest[i] <= hi
    ensures lo <= EmaFold(ema, rest, k) <= hi
    decreases |rest|
  {
    if rest != [] {
      StepBetween(ema, rest[0], k, lo, hi);
      assert forall i :: 0 <= i < |rest[1..]| ==> rest[1..][i] == rest[i + 1];
      EmaFoldBounds(Smooth(ema, rest[0], k), rest[1..], k, lo, hi);
    }
  }

  /** The average never leaves the range of the prices it is taken over;
      in particular a constant price is its own average. */
  lemma EmaBounds(prices: seq<real>, period: int, lo: real, hi: real)
    requires period >= 1 && |prices| >= period
    requires forall i :: 0 <= i < |prices| ==> lo <= prices[i] <= hi
    ensures lo <= Ema(prices, period).value <= hi
  {
    EmaFoldBounds(prices[0], prices[1..], Smoothing(period), lo, hi);
  }

  /** The recurrence the fold unrolls: one more price moves the previous
      average by k times the gap to that price. */
  lemma {:induction false} EmaFoldSnoc(ema: real, rest: seq<real>, price: real, k: real)
    ensures EmaFold(ema, rest + [price], k) == Smooth(EmaFold(ema, rest, k), price, k)
    decreases |rest|
  {
    if rest == [] {
      assert rest + [price] == [price];
    } else {
      assert (rest + [price])[0] == rest[0];
      assert (rest + [price])[1..] == rest[1..] + [price];
      EmaFoldStep(ema, rest + [price], k);
      EmaFoldStep(ema, rest, k);
      EmaFoldSnoc(Smooth(ema, rest[0], k), rest[1..], price, k);
    }
  }

  lemma EmaRecurrence(prices: seq<real>, price: real, period: int)
    requires period >= 1 && |prices| >= period
    ensures Ema(prices + [price], period).value == Smooth(Ema(prices, period).value, price, Smoothing(period))
  {
    assert (prices + [price])[1..] == prices[1..] + [price];
    EmaFoldSnoc(prices[0], prices[1..], price, Smoothing(period));
  }

  /** The loop of `calculate_ema`. */
  method CalculateEma(prices: seq<real>, period: int) returns (r: Option<real>)
    requires period >= 1
    ensures r == Ema(prices, period)
  {
    if |prices| < period {
      return None;
    }
    var k := 2.0 / (period + 1) as real;
    var ema := prices[0];
    var i := 1;
    while i < |prices|
      invariant 1 <= i <= |prices|
      invariant EmaFold(ema, prices[i..], k) == EmaFold(prices[0], prices[1..], k)
    {
      assert prices[i..][0] == prices[i];
      assert prices[i..][1..] == prices[i + 1..];
      EmaFoldStep(ema, prices[i..], k);
      var next := (prices[i] - ema) * k + ema;
      assert next == Smooth(ema, prices[i], k);
      ema := next;
      i := i + 1;
    }
    return Some(ema);
  }

  /* ---------------------------------------------------------------------
     Bollinger bands
     --------------------------------------------------------------------- */

  datatype Bands = Bands(upper: real, middle: real, lower: real)

  /** `calculate_bollinger_bands`: the moving average of the last `period`
      prices, two standard deviations `sd` of those prices above and
      below; None with fewer than `period` prices. */
  function BollingerBands(prices: seq<real>, period: int, sd: real): (r: Option<Bands>)
    requires period >= 1
    ensures r.Some? <==> |prices| >= period
    ensures r.Some? ==> Some(r.value.middle) == MovingAverage(prices, period)
    ensures r.Some? && sd >= 0.0 ==> r.value.lower <= r.value.middle <= r.value.upper
    ensures r.Some? ==> r.value.upper - r.value.middle == r.value.middle - r.value.lower
  {
    match MovingAverage(prices, period)
    case None => None
    case Some(ma) => Some(Bands(ma + 2.0 * sd, ma, ma - 2.0 * sd))
  }
}
