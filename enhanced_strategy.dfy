/** The enhanced strategy: a 0-100 score built from five indicators (MACD,
    KDJ, RSI, Bollinger bands and a short/long moving-average trend) opens
    a position once it reaches 70; the position is sized by the score and
    the win rate; a trailing exit on the best price seen, a take profit
    and a stop loss close it. */
module EnhancedStrategy {
  import opened Wrappers
  import opened Builtins
  import OkxClient
  import opened Market
  import Indicators

  datatype EnhancedConfig = EnhancedConfig(
    symbol: string, basePositionSize: real, leverage: int,
    baseStopLoss: real, baseTakeProfit: real, trailingStop: bool, trailingDistance: real,
    macdFast: int, macdSlow: int, macdSignal: int,
    kdjN: int, kdjM1: int, kdjM2: int,
    rsiPeriod: int, bbPeriod: int)

  const DefaultConfig := EnhancedConfig("BTC-USDT-SWAP", 0.1, 20, 0.02, 0.04, true, 0.015, 12, 26, 9, 9, 3, 3, 14, 20)

  /** Every period and smoothing length at least 1, and at least two
      prices for the sample standard deviation of the bands. */
  predicate ConfigValid(c: EnhancedConfig)
  {
    c.macdFast >= 1 && c.macdSlow >= 1 && c.macdSignal >= 1
    && c.kdjN >= 1 && c.kdjM1 >= 1 && c.kdjM2 >= 1
    && c.rsiPeriod >= 1 && c.bbPeriod >= 2
  }

  const DefaultSpec := ContractSpec(0.01, 0.01, 0.01, false)

  /** The price buffer's capacity. */
  const HistoryCap := 200

  /** The K and D histories' capacity. */
  const KdjCap := 50

  /** The prices an entry check needs, and the score that opens. */
  const EntryMinimum := 50
  const EntryScore := 70.0

  /** The trade record: trades closed and those closed at a profit. */
  datatype Record = Record(total: nat, winning: nat)

  predicate RecordValid(r: Record)
  {
    r.winning <= r.total
  }

  /** An accepted close: one more trade, and one more winning trade when
      the profit rate is positive. */
  function Tally(r: Record, rate: real): (t: Record)
    ensures t.total == r.total + 1
    ensures t.winning == r.winning + (if rate > 0.0 then 1 else 0)
    ensures RecordValid(r) ==> RecordValid(t)
  {
    Record(r.total + 1, if rate > 0.0 then r.winning + 1 else r.winning)
  }

  /** What the outside world supplies to one tick: the 15-minute candles,
      the positions read first, the answer to the order placed, the
      positions read again after an opening order, and the standard
      deviation the statistics library computes. */
  datatype TickEnv = TickEnv(
    candles: CandlesAnswer, positions: PositionsAnswer, order: OrderOutcome, positionsAfter: PositionsAnswer,
    stdev: seq<real> -> real)

  /** `highestPrice` is the best price since the trailing exit started:
      the highest for a long and the lowest for a short. */
  datatype StrategyState = StrategyState(
    prices: seq<real>, closes: seq<real>, highs: seq<real>, lows: seq<real>,
    kHistory: seq<real>, dHistory: seq<real>, position: Option<Position>, record: Record,
    highestPrice: Option<real>, lastCheck: real, sent: seq<OkxClient.ApiCall>)

  const Initial := StrategyState([], [], [], [], [], [], None, Record(0, 0), None, 0.0, [])

  /** The price and close buffers in lockstep within their cap, the K and
      D histories within theirs, a long or short position and a
      consistent record. */
  predicate Consistent(st: StrategyState)
  {
    |st.prices| <= HistoryCap && st.closes == st.prices
    && |st.kHistory| <= KdjCap && |st.dHistory| <= KdjCap
    && (st.position.Some? ==> st.position.value.side == "long" || st.position.value.side == "short")
    && RecordValid(st.record)
  }

  /** The ticker only ever supplies positive prices, so the buffer and
      the best price are positive. */
  predicate PricesPositive(st: StrategyState)
  {
    (forall i :: 0 <= i < |st.prices| ==> st.prices[i] > 0.0)
    && (st.highestPrice.Some? ==> st.highestPrice.value > 0.0)
  }

  /* ---------------------------------------------------------------------
     MACD
     --------------------------------------------------------------------- */

  datatype MacdValue = MacdValue(macd: real, signal: real, histogram: real)

  /** The MACD line's entry for one prefix of the prices: the fast minus
      the slow average, when both exist and are non-zero. */
  function MacdPoint(prefix: seq<real>, fast: int, slow: int): (r: seq<real>)
    requires fast >= 1 && slow >= 1
    ensures |r| <= 1
    ensures r != [] ==> |prefix| >= fast && |prefix| >= slow
  {
    match (Indicators.Ema(prefix, fast), Indicators.Ema(prefix, slow))
    case (Some(f), Some(s)) => if f != 0.0 && s != 0.0 then [f - s] else []
    case _ => []
  }

  /** The MACD line's history: the entries of the prefixes of lengths
      `slow` to `n`, shortest first. */
  function MacdSeries(prices: seq<real>, fast: int, slow: int, n: nat): (r: seq<real>)
    requires fast >= 1 && slow >= 1 && n <= |prices|
    ensures n < slow ==> r == []
    ensures n >= slow ==> |r| <= n - slow + 1
    decreases n
  {
    if n < slow then []
    else MacdSeries(prices, fast, slow, n - 1) + MacdPoint(prices[..n], fast, slow)
  }

  /** `calculate_macd`: the fast minus the slow average of all prices,
      the signal line as the average of the MACD line's history, and
      their difference; None with fewer than `slow` prices or too short a
      history. */
  function Macd(prices: seq<real>, fast: int, slow: int, signal: int): (r: Option<MacdValue>)
    requires fast >= 1 && slow >= 1 && signal >= 1
    ensures r.Some? ==> |prices| >= fast && |prices| >= slow + signal - 1
  {
    if |prices| < slow then None
    else
      match (Indicators.Ema(prices, fast), Indicators.Ema(prices, slow))
      case (Some(f), Some(s)) =>
        var series := MacdSeries(prices, fast, slow, |prices|);
        if |series| < signal then None
        else
          var sig := Indicators.Ema(series, signal).value;
          Some(MacdValue(f - s, sig, f - s - sig))
      case _ => None
  }

  /** The signal line averages a history that ends with the current MACD
      value whenever both averages are non-zero. */
  lemma MacdHistoryEndsWithLine(prices: seq<real>, fast: int, slow: int, signal: int)
    requires fast >= 1 && slow >= 1 && signal >= 1
    requires Macd(prices, fast, slow, signal).Some?
    requires Indicators.Ema(prices, fast).value != 0.0 && Indicators.Ema(prices, slow).value != 0.0
    ensures var series := MacdSeries(prices, fast, slow, |prices|);
      series != [] && series[|series| - 1] == Macd(prices, fast, slow, signal).value.macd
  {
    assert prices[..|prices|] == prices;
  }

  /** Every element of s lies in [lo, hi]. */
  predicate Within(s: seq<real>, lo: real, hi: real)
  {
    forall i :: 0 <= i < |s| ==> lo <= s[i] <= hi
  }

  /** The entry of a prefix within [lo, hi] lies within its spread. */
  lemma MacdPointBounds(prefix: seq<real>, fast: int, slow: int, lo: real, hi: real)
    requires fast >= 1 && slow >= 1 && Within(prefix, lo, hi)
    ensures Within(MacdPoint(prefix, fast, slow), lo - hi, hi - lo)
  {
    if MacdPoint(prefix, fast, slow) != [] {
      Indicators.EmaBounds(prefix, fast, lo, hi);
      Indicators.EmaBounds(prefix, slow, lo, hi);
    }
  }

  /** Every entry of the MACD line lies within the spread of the prices. */
  lemma {:induction false} MacdSeriesBounds(prices: seq<real>, fast: int, slow: int, n: nat, lo: real, hi: real)
    requires fast >= 1 && slow >= 1 && n <= |prices| && Within(prices, lo, hi)
    ensures Within(MacdSeries(prices, fast, slow, n), lo - hi, hi - lo)
    decreases n
  {
    if n >= slow {
      var front := MacdSeries(prices, fast, slow, n - 1);
      MacdSeriesBounds(prices, fast, slow, n - 1, lo, hi);
      var prefix := prices[..n];
      assert Within(prefix, lo, hi) by {
        assert forall i :: 0 <= i < |prefix| ==> prefix[i] == prices[i];
      }
      var point := MacdPoint(prefix, fast, slow);
      MacdPointBounds(prefix, fast, slow, lo, hi);
      var series := front + point;
      assert MacdSeries(prices, fast, slow, n) == series;
      assert forall i :: 0 <= i < |series| ==> series[i] == if i < |front| then front[i] else point[i - |front|];
    }
  }

  /** Prices within [lo, hi] keep the MACD value and the signal line
      within the spread hi - lo on either side of zero. */
  lemma MacdBounds(prices: seq<real>, fast: int, slow: int, signal: int, lo: real, hi: real)
    requires fast >= 1 && slow >= 1 && signal >= 1
    requires Within(prices, lo, hi) && Macd(prices, fast, slow, signal).Some?
    ensures var m := Macd(prices, fast, slow, signal).value;
      lo - hi <= m.macd <= hi - lo && lo - hi <= m.signal <= hi - lo
  {
    Indicators.EmaBounds(prices, fast, lo, hi);
    Indicators.EmaBounds(prices, slow, lo, hi);
    var series := MacdSeries(prices, fast, slow, |prices|);
    MacdSeriesBounds(prices, fast, slow, |prices|, lo, hi);
    Indicators.EmaBounds(series, signal, lo - hi, hi - lo);
  }

  /** The loops of `calculate_macd`. */
  method CalculateMacd(prices: seq<real>, fast: int, slow: int, signal: int) returns (r: Option<MacdValue>)
    requires fast >= 1 && slow >= 1 && signal >= 1
    ensures r == Macd(prices, fast, slow, signal)
  {
    if |prices| < slow {
      return None;
    }
    var emaFast := Indicators.CalculateEma(prices, fast);
    var emaSlow := Indicators.CalculateEma(prices, slow);
    if emaFast.None? || emaSlow.None? {
      return None;
    }
    var macd := emaFast.value - emaSlow.value;
    var series: seq<real> := [];
    var i := slow;
    while i <= |prices|
      invariant slow <= i <= |prices| + 1
      invariant series == MacdSeries(prices, fast, slow, i - 1)
    {
      var f := Indicators.CalculateEma(prices[..i], fast);
      var s := Indicators.CalculateEma(prices[..i], slow);
      if f.Some? && f.value != 0.0 && s.Some? && s.value != 0.0 {
        series := series + [f.value - s.value];
      }
      assert series == MacdSeries(prices, fast, slow, i - 1) + MacdPoint(prices[..i], fast, slow);
      i := i + 1;
    }
    if |series| < signal {
      return None;
    }
    var sig := Indicators.CalculateEma(series, signal);
    return Some(MacdValue(macd, sig.value, macd - sig.value));
  }

  /* ---------------------------------------------------------------------
     KDJ
     --------------------------------------------------------------------- */

  datatype Kdj = Kdj(k: real, d: real, j: real)

  /** The raw stochastic value: where the last close sits between the
      lowest low and the highest high of the last n bars, in percent; 50
      when they coincide. */
  function Rsv(highs: seq<real>, lows: seq<real>, closes: seq<real>, n: int): real
    requires 1 <= n && n <= |highs| && n <= |lows| && n <= |closes|
  {
    var highest := MaxOf(LastN(highs, n));
    var lowest := MinOf(LastN(lows, n));
    var close := closes[|closes| - 1];
    if highest == lowest then 50.0 else (close - lowest) / (highest - lowest) * 100.0
  }

  /** A close within the window's range has a raw value between 0 and
      100: 0 at the lowest low and 100 at the highest high. */
  lemma RsvRange(highs: seq<real>, lows: seq<real>, closes: seq<real>, n: int)
    requires 1 <= n && n <= |highs| && n <= |lows| && n <= |closes|
    requires MinOf(LastN(lows, n)) <= closes[|closes| - 1] <= MaxOf(LastN(highs, n))
    ensures 0.0 <= Rsv(highs, lows, closes, n) <= 100.0
    ensures MinOf(LastN(lows, n)) < closes[|closes| - 1] == MaxOf(LastN(highs, n))
      ==> Rsv(highs, lows, closes, n) == 100.0
    ensures closes[|closes| - 1] == MinOf(LastN(lows, n)) < MaxOf(LastN(highs, n))
      ==> Rsv(highs, lows, closes, n) == 0.0
  {
    var highest := MaxOf(LastN(highs, n));
    var lowest := MinOf(LastN(lows, n));
    if highest != lowest {
      PercentOfRange(closes[|closes| - 1], lowest, highest);
    }
  }

  lemma DivSelf(x: real)
    requires x != 0.0
    ensures x / x == 1.0
  {
  }

  /** Where x sits between lo and hi, in percent. */
  lemma PercentOfRange(x: real, lo: real, hi: real)
    requires lo <= x <= hi && lo < hi
    ensures 0.0 <= (x - lo) / (hi - lo) * 100.0 <= 100.0
    ensures x == hi ==> (x - lo) / (hi - lo) * 100.0 == 100.0
    ensures x == lo ==> (x - lo) / (hi - lo) * 100.0 == 0.0
  {
    DivBetween(x - lo, hi - lo, 0.0, 1.0);
    if x == hi {
      DivSelf(hi - lo);
    }
  }

  /** The smoothing of K and D: the new value itself when the history is
      empty, and otherwise ((m - 1) times the last value plus the new
      one) / m. */
  function Smoothed(history: seq<real>, x: real, m: int): real
    requires m >= 1
  {
    if history == [] then x else (history[|history| - 1] * (m - 1) as real + x) / m as real
  }

  /** The smoothed value lies between the last value and the new one. */
  lemma SmoothedBetween(history: seq<real>, x: real, m: int, lo: real, hi: real)
    requires m >= 1 && lo <= x <= hi
    requires history != [] ==> lo <= history[|history| - 1] <= hi
    ensures lo <= Smoothed(history, x, m) <= hi
  {
    if history != [] {
      var a := history[|history| - 1];
      var w := (m - 1) as real;
      var mm := m as real;
      assert (a - lo) * w >= 0.0;
      assert (hi - a) * w >= 0.0;
      var s := a * w + x;
      assert lo * mm <= s <= hi * mm;
      DivBetween(s, mm, lo, hi);
    }
  }

  /** `calculate_kdj` on the strategy's high, low and close lists: None
      when any holds fewer than n values; otherwise K smooths the raw
      value, D smooths K, and J = 3K - 2D. */
  function KdjOf(c: EnhancedConfig, st: StrategyState): (r: Option<Kdj>)
    requires ConfigValid(c)
    ensures r.Some? <==> |st.highs| >= c.kdjN && |st.lows| >= c.kdjN && |st.closes| >= c.kdjN
  {
    if |st.highs| < c.kdjN || |st.lows| < c.kdjN || |st.closes| < c.kdjN then None
    else
      var k := Smoothed(st.kHistory, Rsv(st.highs, st.lows, st.closes, c.kdjN), c.kdjM1);
      var d := Smoothed(st.dHistory, k, c.kdjM2);
      Some(Kdj(k, d, 3.0 * k - 2.0 * d))
  }

  /** The calculation's side effect: K and D join their histories, each
      capped at 50. */
  function KdjUpdated(c: EnhancedConfig, st: StrategyState): StrategyState
    requires ConfigValid(c)
  {
    match KdjOf(c, st)
    case None => st
    case Some(v) => st.(kHistory := Pushed(st.kHistory, v.k, KdjCap), dHistory := Pushed(st.dHistory, v.d, KdjCap))
  }

  /** Every K and D value recorded lies in [0, 100]. */
  predicate KdjInRange(st: StrategyState)
  {
    (forall i :: 0 <= i < |st.kHistory| ==> 0.0 <= st.kHistory[i] <= 100.0)
    && (forall i :: 0 <= i < |st.dHistory| ==> 0.0 <= st.dHistory[i] <= 100.0)
  }

  /** The last close lies within the range of the last n highs and lows. */
  predicate CloseInWindow(c: EnhancedConfig, st: StrategyState)
    requires ConfigValid(c)
  {
    |st.highs| >= c.kdjN && |st.lows| >= c.kdjN && |st.closes| >= c.kdjN
    && MinOf(LastN(st.lows, c.kdjN)) <= st.closes[|st.closes| - 1] <= MaxOf(LastN(st.highs, c.kdjN))
  }

  /** With the close inside the window, K and D stay in [0, 100], J in
      [-200, 300], and the histories keep their cap and end with the new
      K and D. */
  lemma KdjRange(c: EnhancedConfig, st: StrategyState)
    requires ConfigValid(c) && KdjInRange(st) && CloseInWindow(c, st)
    requires |st.kHistory| <= KdjCap && |st.dHistory| <= KdjCap
    ensures var v := KdjOf(c, st).value;
      && 0.0 <= v.k <= 100.0 && 0.0 <= v.d <= 100.0 && -200.0 <= v.j <= 300.0
      && v.j == 3.0 * v.k - 2.0 * v.d
    ensures var r := KdjUpdated(c, st);
      && KdjInRange(r) && |r.kHistory| <= KdjCap && |r.dHistory| <= KdjCap
      && r.kHistory[|r.kHistory| - 1] == KdjOf(c, st).value.k
      && r.dHistory[|r.dHistory| - 1] == KdjOf(c, st).value.d
  {
    var rsv := Rsv(st.highs, st.lows, st.closes, c.kdjN);
    RsvRange(st.highs, st.lows, st.closes, c.kdjN);
    SmoothedPairRange(st.kHistory, st.dHistory, rsv, c.kdjM1, c.kdjM2);
    var k := Smoothed(st.kHistory, rsv, c.kdjM1);
    var d := Smoothed(st.dHistory, k, c.kdjM2);
    PushedBounded(st.kHistory, k, KdjCap);
    PushedBounded(st.dHistory, d, KdjCap);
    PushedWithin(st.kHistory, k, 0.0, 100.0);
    PushedWithin(st.dHistory, d, 0.0, 100.0);
  }

  /** K smoothed from a raw value in [0, 100], and D from K, both over
      histories in [0, 100], stay in [0, 100]. */
  lemma SmoothedPairRange(kh: seq<real>, dh: seq<real>, rsv: real, m1: int, m2: int)
    requires m1 >= 1 && m2 >= 1 && 0.0 <= rsv <= 100.0
    requires forall i :: 0 <= i < |kh| ==> 0.0 <= kh[i] <= 100.0
    requires forall i :: 0 <= i < |dh| ==> 0.0 <= dh[i] <= 100.0
    ensures var k := Smoothed(kh, rsv, m1);
      0.0 <= k <= 100.0 && 0.0 <= Smoothed(dh, k, m2) <= 100.0
  {
    var k := Smoothed(kh, rsv, m1);
    SmoothedBetween(kh, rsv, m1, 0.0, 100.0);
    SmoothedBetween(dh, k, m2, 0.0, 100.0);
  }

  lemma PushedWithin(buf: seq<real>, x: real, lo: real, hi: real)
    requires forall i :: 0 <= i < |buf| ==> lo <= buf[i] <= hi
    requires lo <= x <= hi
    ensures var r := Pushed(buf, x, KdjCap);
      forall i :: 0 <= i < |r| ==> lo <= r[i] <= hi
  {
    var b := buf + [x];
    assert forall i :: 0 <= i < |b| ==> lo <= b[i] <= hi;
  }

  /* ---------------------------------------------------------------------
     The signal score
     --------------------------------------------------------------------- */

  /** 25 for a crossing with a histogram of the same sign, 15 for a
      crossing alone. */
  function MacdPoints(side: string, m: Option<MacdValue>): (r: real)
    ensures 0.0 <= r <= 25.0
  {
    match m
    case None => 0.0
    case Some(v) =>
      if side == "long" then
        if v.macd > v.signal && v.histogram > 0.0 then 25.0 else if v.macd > v.signal then 15.0 else 0.0
      else
        if v.macd < v.signal && v.histogram < 0.0 then 25.0 else if v.macd < v.signal then 15.0 else 0.0
  }

  /** The histogram is the MACD value minus the signal line, so the
      15-point case never applies: the MACD scores 25 exactly when the line
      is on the side's side of its signal, and 0 otherwise. */
  lemma MacdPointsAllOrNothing(prices: seq<real>, c: EnhancedConfig, side: string)
    requires ConfigValid(c)
    ensures var m := Macd(prices, c.macdFast, c.macdSlow, c.macdSignal);
      MacdPoints(side, m)
        == if m.Some? && (if side == "long" then m.value.macd > m.value.signal else m.value.macd < m.value.signal)
           then 25.0 else 0.0
  {
  }

  /** 25 for an oversold (overbought) crossing of K over (under) D, 15
      for the crossing alone. */
  function KdjPoints(side: string, v: Option<Kdj>): (r: real)
    ensures 0.0 <= r <= 25.0
  {
    match v
    case None => 0.0
    case Some(x) =>
      if side == "long" then
        if x.k < 20.0 && x.k > x.d then 25.0 else if x.k > x.d then 15.0 else 0.0
      else
        if x.k > 80.0 && x.k < x.d then 25.0 else if x.k < x.d then 15.0 else 0.0
  }

  /** 20 for an oversold (overbought) RSI, 10 for one below (above) 50; an
      RSI of exactly 0 is falsy and scores nothing. */
  function RsiPoints(side: string, rsi: Option<real>): (r: real)
    ensures 0.0 <= r <= 20.0
  {
    if rsi.None? || rsi.value == 0.0 then 0.0
    else if side == "long" then
      if rsi.value < 30.0 then 20.0 else if rsi.value < 50.0 then 10.0 else 0.0
    else
      if rsi.value > 70.0 then 20.0 else if rsi.value > 50.0 then 10.0 else 0.0
  }

  /** The bands of the last `bbPeriod` prices. */
  function ScoreBands(c: EnhancedConfig, prices: seq<real>, stdev: seq<real> -> real): (r: Option<Indicators.Bands>)
    requires ConfigValid(c)
    ensures r.Some? <==> |prices| >= c.bbPeriod
  {
    if |prices| < c.bbPeriod then None
    else Indicators.BollingerBands(prices, c.bbPeriod, stdev(LastN(prices, c.bbPeriod)))
  }

  /** 20 for the last price at or beyond the band, 10 for one on the
      band's side of the middle. */
  function BandPoints(side: string, prices: seq<real>, bands: Option<Indicators.Bands>): (r: real)
    ensures 0.0 <= r <= 20.0
  {
    if bands.None? || prices == [] then 0.0
    else
      var p := prices[|prices| - 1];
      if side == "long" then
        if p <= bands.value.lower then 20.0 else if p < bands.value.middle then 10.0 else 0.0
      else
        if p >= bands.value.upper then 20.0 else if p > bands.value.middle then 10.0 else 0.0
  }

  /** 10 when the 5-price average is above (below) the 20-price average
      for a long (short). */
  function TrendPoints(side: string, prices: seq<real>): (r: real)
    ensures 0.0 <= r <= 10.0
  {
    if |prices| < 20 then 0.0
    else
      var short := Sum(LastN(prices, 5)) / 5.0;
      var long := Sum(LastN(prices, 20)) / 20.0;
      if side == "long" && short > long then 10.0
      else if side == "short" && short < long then 10.0
      else 0.0
  }

  /** `calculate_signal_score`: the five indicators' points. */
  function Score(c: EnhancedConfig, st: StrategyState, side: string, stdev: seq<real> -> real): (r: real)
    requires ConfigValid(c)
    ensures 0.0 <= r <= 100.0
  {
    MacdPoints(side, Macd(st.prices, c.macdFast, c.macdSlow, c.macdSignal))
    + KdjPoints(side, KdjOf(c, st))
    + RsiPoints(side, Indicators.Rsi(st.prices, c.rsiPeriod))
    + BandPoints(side, st.prices, ScoreBands(c, st.prices, stdev))
    + TrendPoints(side, st.prices)
  }

  /** How many of the five indicators contribute points. */
  function Contributing(c: EnhancedConfig, st: StrategyState, side: string, stdev: seq<real> -> real): nat
    requires ConfigValid(c)
  {
    (if MacdPoints(side, Macd(st.prices, c.macdFast, c.macdSlow, c.macdSignal)) > 0.0 then 1 else 0)
    + (if KdjPoints(side, KdjOf(c, st)) > 0.0 then 1 else 0)
    + (if RsiPoints(side, Indicators.Rsi(st.prices, c.rsiPeriod)) > 0.0 then 1 else 0)
    + (if BandPoints(side, st.prices, ScoreBands(c, st.prices, stdev)) > 0.0 then 1 else 0)
    + (if TrendPoints(side, st.prices) > 0.0 then 1 else 0)
  }

  /** No two indicators reach the entry score of 70 on their own: an entry
      needs at least three to agree. */
  lemma EntryNeedsThreeIndicators(c: EnhancedConfig, st: StrategyState, side: string, stdev: seq<real> -> real)
    requires ConfigValid(c) && Score(c, st, side, stdev) >= EntryScore
    ensures Contributing(c, st, side, stdev) >= 3
  {
    var a := MacdPoints(side, Macd(st.prices, c.macdFast, c.macdSlow, c.macdSignal));
    var b := KdjPoints(side, KdjOf(c, st));
    var r := RsiPoints(side, Indicators.Rsi(st.prices, c.rsiPeriod));
    var u := BandPoints(side, st.prices, ScoreBands(c, st.prices, stdev));
    var t := TrendPoints(side, st.prices);
    assert Score(c, st, side, stdev) == a + b + r + u + t;
  }

  /* ---------------------------------------------------------------------
     Position size
     --------------------------------------------------------------------- */

  /** The score's factor: 1.5 from 80, 1.2 from 70, 1.0 from 60 and 0.7
      below. */
  function StrengthFactor(strength: real): (r: real)
    ensures 0.7 <= r <= 1.5
    ensures strength >= 70.0 ==> r >= 1.2
  {
    if strength >= 80.0 then 1.5
    else if strength >= 70.0 then 1.2
    else if strength < 60.0 then 0.7
    else 1.0
  }

  lemma StrengthFactorMonotone(s1: real, s2: real)
    requires s1 <= s2
    ensures StrengthFactor(s1) <= StrengthFactor(s2)
  {
  }

  /** The record's factor, from 10 trades on: 1.3 for a win rate of at
      least 60%, 0.6 below 40%. */
  function RecordFactor(r: Record): (f: real)
    requires RecordValid(r)
    ensures 0.6 <= f <= 1.3
    ensures r.total < 10 ==> f == 1.0
  {
    if r.total >= 10 then
      var rate := r.winning as real / r.total as real;
      if rate >= 0.6 then 1.3 else if rate < 0.4 then 0.6 else 1.0
    else 1.0
  }

  function Multiplier(strength: real, record: real): real
  {
    1.0 * strength * record
  }

  /** The base size times the multiplier clamped to [0.5, 2.0]. */
  function ScaledSize(base: real, m: real): real
  {
    base * Clamp(0.5, 2.0, m)
  }

  /** `calculate_dynamic_position_size`. */
  function DynamicSize(c: EnhancedConfig, r: Record, strength: real): real
    requires RecordValid(r)
  {
    ScaledSize(c.basePositionSize, Multiplier(StrengthFactor(strength), RecordFactor(r)))
  }

  /** The size stays between half and 1.95 times the base size (the upper
      clamp at 2 is never reached), grows with the score, and an entry
      score with fewer than 10 trades sizes at least 1.2 times the base. */
  lemma DynamicSizeBounds(c: EnhancedConfig, r: Record, s1: real, s2: real)
    requires RecordValid(r) && c.basePositionSize >= 0.0 && s1 <= s2
    ensures 0.5 * c.basePositionSize <= DynamicSize(c, r, s1) <= 1.95 * c.basePositionSize
    ensures DynamicSize(c, r, s1) <= DynamicSize(c, r, s2)
    ensures Multiplier(StrengthFactor(s1), RecordFactor(r)) <= 1.95
    ensures s1 >= EntryScore && r.total < 10 ==> DynamicSize(c, r, s1) >= 1.2 * c.basePositionSize
  {
    var b := c.basePositionSize;
    var f := RecordFactor(r);
    var a1, a2 := StrengthFactor(s1), StrengthFactor(s2);
    StrengthFactorMonotone(s1, s2);
    MultiplierBetween(a1, f);
    MultiplierBetween(a2, f);
    MultiplierMonotone(a1, a2, f);
    var m1, m2 := Multiplier(a1, f), Multiplier(a2, f);
    ClampMonotone(0.5, 2.0, m1, m2);
    var c1, c2 := Clamp(0.5, 2.0, m1), Clamp(0.5, 2.0, m2);
    assert 0.5 <= c1 <= 1.95;
    ScaleBetween(b, c1, 0.5, 1.95);
    MulMonotone(b, c1, c2);
    assert ScaledSize(b, m1) == b * c1;
    assert ScaledSize(b, m2) == b * c2;
    if s1 >= EntryScore && r.total < 10 {
      assert m1 == a1 && c1 == a1 && a1 >= 1.2;
      MulMonotone(b, 1.2, c1);
    }
  }

  lemma MultiplierBetween(a: real, f: real)
    requires 0.7 <= a <= 1.5 && 0.6 <= f <= 1.3
    ensures 0.42 <= Multiplier(a, f) <= 1.95
  {
    assert Multiplier(a, f) == a * f;
    ScaleBetween(f, a, 0.7, 1.5);
    assert 0.7 * f <= f * a <= 1.5 * f;
  }

  lemma MultiplierMonotone(a1: real, a2: real, f: real)
    requires a1 <= a2 && f >= 0.0
    ensures Multiplier(a1, f) <= Multiplier(a2, f)
  {
    assert (a2 - a1) * f >= 0.0;
  }

  /* ---------------------------------------------------------------------
     Closing and the exit check
     --------------------------------------------------------------------- */

  /** `_close_position`: a market order for all the contracts on the
      opposite side; when the reply's code is '0' the trade is tallied and
      the position and the best price cleared. */
  function Closed(c: EnhancedConfig, st: StrategyState, rate: real, env: TickEnv, fmt: Format): StrategyState
  {
    match st.position
    case None => st
    case Some(pos) =>
      var st1 := st.(sent := st.sent + [MarketOrder(c.symbol, CloseSide(pos.side), fmt.ofReal(pos.contracts))]);
      if CodeOk(env.order) then st1.(record := Tally(st.record, rate), position := None, highestPrice := None)
      else st1
  }

  /** A close with a position sends exactly one order, on the side that
      closes it; the record gains one trade, a winning one exactly when the
      rate is positive, exactly when the order was accepted. */
  lemma ClosedTallies(c: EnhancedConfig, st: StrategyState, rate: real, env: TickEnv, fmt: Format)
    requires Consistent(st) && st.position.Some?
    ensures var r := Closed(c, st, rate, env, fmt);
      && Consistent(r) && AtMostOneMarketOrder(c.symbol, st.sent, r.sent) && |r.sent| == |st.sent| + 1
      && OkxClient.Lookup(r.sent[|st.sent|].data, "side") == Some(CloseSide(st.position.value.side))
      && (CodeOk(env.order) ==> r.record == Tally(st.record, rate) && r.position.None? && r.highestPrice.None?)
      && (!CodeOk(env.order) ==> r == st.(sent := r.sent))
  {
    var pos := st.position.value;
    var call := MarketOrder(c.symbol, CloseSide(pos.side), fmt.ofReal(pos.contracts));
    AppendedMarketOrder(st.sent, c.symbol, CloseSide(pos.side), fmt.ofReal(pos.contracts));
    MarketOrderFields(c.symbol, CloseSide(pos.side), fmt.ofReal(pos.contracts));
    assert (st.sent + [call])[|st.sent|] == call;
  }

  /** The take profit and the stop loss. */
  function FixedExit(c: EnhancedConfig, st: StrategyState, rate: real, env: TickEnv, fmt: Format): StrategyState
  {
    if rate >= c.baseTakeProfit then Closed(c, st, rate, env, fmt)
    else if rate <= -c.baseStopLoss then Closed(c, st, rate, env, fmt)
    else st
  }

  /** The best price once the trailing exit runs: the price itself when
      none was recorded, then moved to the price when it is higher for a
      long or lower for a short. */
  function BestPrice(side: string, best: Option<real>, p: real): real
  {
    var h := if best.None? then p else best.value;
    if side == "long" && p > h then p else if side == "short" && p < h then p else h
  }

  /** The best price is the running maximum for a long and the running
      minimum for a short. */
  lemma BestPriceTracks(side: string, best: Option<real>, p: real)
    ensures side == "long" ==> BestPrice(side, best, p) >= p
    ensures side == "long" && best.Some? ==> BestPrice(side, best, p) == Max(best.value, p)
    ensures side == "short" ==> BestPrice(side, best, p) <= p
    ensures side == "short" && best.Some? ==> BestPrice(side, best, p) == Min(best.value, p)
    ensures best.None? ==> BestPrice(side, best, p) == p
  {
  }

  /** The retreat from the best price, as a fraction of it. */
  function Drawdown(side: string, best: real, p: real): real
    requires best != 0.0
  {
    if side == "long" then (best - p) / best else (p - best) / best
  }

  /** The trailing exit: the best price is updated; a retreat of at least
      the trailing distance closes; otherwise the fixed exits apply.  A
      zero best price makes the division raise, which the handler
      swallows. */
  function Trailed(c: EnhancedConfig, st: StrategyState, side: string, p: real, rate: real, env: TickEnv,
                   fmt: Format): StrategyState
  {
    var best := BestPrice(side, st.highestPrice, p);
    var st1 := st.(highestPrice := Some(best));
    if best == 0.0 then st1
    else if Drawdown(side, best, p) >= c.trailingDistance then Closed(c, st1, rate, env, fmt)
    else FixedExit(c, st1, rate, env, fmt)
  }

  /** `_check_exit_conditions` at the last price: with a profit rate
      beyond the trailing distance the trailing exit runs first, then the
      take profit and the stop loss.  A missing or zero price does
      nothing, and a zero entry price raises. */
  function Exited(c: EnhancedConfig, st: StrategyState, env: TickEnv, fmt: Format): StrategyState
  {
    if st.position.None? || st.prices == [] then st
    else
      var pos, p := st.position.value, st.prices[|st.prices| - 1];
      if p == 0.0 then st
      else
        match ProfitRate(pos, p)
        case None => st
        case Some(rate) =>
          if c.trailingStop && rate > c.trailingDistance then Trailed(c, st, pos.side, p, rate, env, fmt)
          else FixedExit(c, st, rate, env, fmt)
  }

  /** The profit rate the exit check works with. */
  function ExitRate(st: StrategyState): real
    requires st.position.Some? && st.prices != [] && st.position.value.entryPrice != 0.0
  {
    ProfitRate(st.position.value, st.prices[|st.prices| - 1]).value
  }

  /** An exit sends at most one order, the closing one, and only on one
      of the rules: take profit, stop loss, or a trailing retreat once the
      rate is beyond the trailing distance.  Conversely, with positive
      prices, the take profit and the stop loss always close. */
  lemma ExitedOnRules(c: EnhancedConfig, st: StrategyState, env: TickEnv, fmt: Format)
    requires Consistent(st) && PricesPositive(st)
    requires st.position.Some? && st.prices != [] && st.position.value.entryPrice != 0.0
    ensures var r := Exited(c, st, env, fmt);
      var rate := ExitRate(st);
      && (r.sent != st.sent ==>
            && |r.sent| == |st.sent| + 1
            && OkxClient.Lookup(r.sent[|st.sent|].data, "side") == Some(CloseSide(st.position.value.side))
            && (rate >= c.baseTakeProfit || rate <= -c.baseStopLoss
                || (c.trailingStop && rate > c.trailingDistance)))
      && (rate >= c.baseTakeProfit || rate <= -c.baseStopLoss ==> r.sent != st.sent)
  {
    var pos, p := st.position.value, st.prices[|st.prices| - 1];
    var rate := ExitRate(st);
    assert p > 0.0;
    var r := Exited(c, st, env, fmt);
    if c.trailingStop && rate > c.trailingDistance {
      var best := BestPrice(pos.side, st.highestPrice, p);
      BestPriceTracks(pos.side, st.highestPrice, p);
      assert best > 0.0;
      var st1 := st.(highestPrice := Some(best));
      assert r == Trailed(c, st, pos.side, p, rate, env, fmt);
      ClosedTallies(c, st1, rate, env, fmt);
    } else {
      assert r == FixedExit(c, st, rate, env, fmt);
      ClosedTallies(c, st, rate, env, fmt);
    }
  }

  /** While the trailing exit runs and the position stays open, the best
      price follows the price: never lower for a long, never higher for a
      short, and positive. */
  lemma ExitedTracksBest(c: EnhancedConfig, st: StrategyState, env: TickEnv, fmt: Format)
    requires Consistent(st) && PricesPositive(st)
    requires st.position.Some? && st.prices != [] && st.position.value.entryPrice != 0.0
    requires c.trailingStop && ExitRate(st) > c.trailingDistance
    ensures var r := Exited(c, st, env, fmt);
      var p := st.prices[|st.prices| - 1];
      r.position.Some? ==>
        && r.highestPrice.Some? && r.highestPrice.value > 0.0
        && (st.position.value.side == "long" ==>
              r.highestPrice.value >= p && (st.highestPrice.Some? ==> r.highestPrice.value >= st.highestPrice.value))
        && (st.position.value.side == "short" ==>
              r.highestPrice.value <= p && (st.highestPrice.Some? ==> r.highestPrice.value <= st.highestPrice.value))
  {
    var pos, p := st.position.value, st.prices[|st.prices| - 1];
    var rate := ExitRate(st);
    var best := BestPrice(pos.side, st.highestPrice, p);
    BestPriceTracks(pos.side, st.highestPrice, p);
    var st1 := st.(highestPrice := Some(best));
    assert Exited(c, st, env, fmt) == Trailed(c, st, pos.side, p, rate, env, fmt);
    ClosedTallies(c, st1, rate, env, fmt);
  }

  /** What one exit step keeps: a consistent state with positive prices,
      at most one market order, the buffers, and a record that stays or
      gains one trade. */
  predicate ExitKeeps(c: EnhancedConfig, st: StrategyState, r: StrategyState)
  {
    && Consistent(r) && PricesPositive(r) && AtMostOneMarketOrder(c.symbol, st.sent, r.sent)
    && r.prices == st.prices && r.kHistory == st.kHistory && r.dHistory == st.dHistory
    && (r.record == st.record || r.record.total == st.record.total + 1)
  }

  lemma FixedExitKeeps(c: EnhancedConfig, st: StrategyState, rate: real, env: TickEnv, fmt: Format)
    requires Consistent(st) && PricesPositive(st) && st.position.Some?
    ensures ExitKeeps(c, st, FixedExit(c, st, rate, env, fmt))
  {
    NothingAppended(c.symbol, st.sent);
    ClosedTallies(c, st, rate, env, fmt);
  }

  lemma TrailedKeeps(c: EnhancedConfig, st: StrategyState, side: string, p: real, rate: real, env: TickEnv,
                     fmt: Format)
    requires Consistent(st) && PricesPositive(st) && st.position.Some? && p > 0.0
    ensures ExitKeeps(c, st, Trailed(c, st, side, p, rate, env, fmt))
  {
    var best := BestPrice(side, st.highestPrice, p);
    assert best > 0.0;
    var st1 := st.(highestPrice := Some(best));
    NothingAppended(c.symbol, st.sent);
    ClosedTallies(c, st1, rate, env, fmt);
    FixedExitKeeps(c, st1, rate, env, fmt);
  }

  lemma ExitedOneOrder(c: EnhancedConfig, st: StrategyState, env: TickEnv, fmt: Format)
    requires Consistent(st) && PricesPositive(st)
    ensures var r := Exited(c, st, env, fmt);
      && Consistent(r) && PricesPositive(r) && AtMostOneMarketOrder(c.symbol, st.sent, r.sent)
      && r.prices == st.prices && r.kHistory == st.kHistory && r.dHistory == st.dHistory
      && (r.record == st.record || r.record.total == st.record.total + 1)
  {
    NothingAppended(c.symbol, st.sent);
    if st.position.Some? && st.prices != [] && st.position.value.entryPrice != 0.0 {
      var pos, p := st.position.value, st.prices[|st.prices| - 1];
      var rate := ExitRate(st);
      if c.trailingStop && rate > c.trailingDistance {
        TrailedKeeps(c, st, pos.side, p, rate, env, fmt);
        assert Exited(c, st, env, fmt) == Trailed(c, st, pos.side, p, rate, env, fmt);
      } else {
        FixedExitKeeps(c, st, rate, env, fmt);
        assert Exited(c, st, env, fmt) == FixedExit(c, st, rate, env, fmt);
      }
    }
  }

  /* ---------------------------------------------------------------------
     Opening and the entry check
     --------------------------------------------------------------------- */

  /** `_open_position`: the dynamic size in contracts, a market order,
      and when the reply's code is '0' the best price cleared and the
      position read again.  A zero contract value or size step raises and
      places nothing. */
  function Opened(c: EnhancedConfig, spec: ContractSpec, st: StrategyState, side: string, strength: real,
                  env: TickEnv, fmt: Format): StrategyState
    requires RecordValid(st.record)
  {
    match OpenContracts(DynamicSize(c, st.record, strength), spec)
    case None => st
    case Some(n) =>
      var st1 := st.(sent := st.sent + [MarketOrder(c.symbol, OpenSide(side), fmt.ofReal(n))]);
      if CodeOk(env.order) then st1.(highestPrice := None, position := ReadPosition(st.position, env.positionsAfter))
      else st1
  }

  lemma OpenedOrder(c: EnhancedConfig, spec: ContractSpec, st: StrategyState, side: string, strength: real,
                    env: TickEnv, fmt: Format)
    requires Consistent(st) && PricesPositive(st)
    ensures var r := Opened(c, spec, st, side, strength, env, fmt);
      && Consistent(r) && PricesPositive(r) && AtMostOneMarketOrder(c.symbol, st.sent, r.sent)
      && r.record == st.record && r.prices == st.prices && r.kHistory == st.kHistory && r.dHistory == st.dHistory
      && (r.sent == st.sent
          || (|r.sent| == |st.sent| + 1 && OkxClient.Lookup(r.sent[|st.sent|].data, "side") == Some(OpenSide(side))))
  {
    ReadPositionShape(st.position, env.positionsAfter);
    var r := Opened(c, spec, st, side, strength, env, fmt);
    if r.sent != st.sent {
      var n := OpenContracts(DynamicSize(c, st.record, strength), spec).value;
      var call := MarketOrder(c.symbol, OpenSide(side), fmt.ofReal(n));
      AppendedMarketOrder(st.sent, c.symbol, OpenSide(side), fmt.ofReal(n));
      MarketOrderFields(c.symbol, OpenSide(side), fmt.ofReal(n));
      assert r.sent == st.sent + [call];
    } else {
      NothingAppended(c.symbol, st.sent);
    }
  }

  /** `_check_entry_signals`: nothing before 50 prices; otherwise the long
      score, then the short score (each calculation records a K and a D),
      and a long at 70 or more, else a short at 70 or more. */
  function Entered(c: EnhancedConfig, spec: ContractSpec, st: StrategyState, env: TickEnv, fmt: Format): StrategyState
    requires ConfigValid(c) && RecordValid(st.record)
  {
    if |st.prices| < EntryMinimum then st
    else
      var long := Score(c, st, "long", env.stdev);
      var st1 := KdjUpdated(c, st);
      var short := Score(c, st1, "short", env.stdev);
      var st2 := KdjUpdated(c, st1);
      if long >= EntryScore then Opened(c, spec, st2, "long", long, env, fmt)
      else if short >= EntryScore then Opened(c, spec, st2, "short", short, env, fmt)
      else st2
  }

  /** Recording K and D touches nothing else and keeps both histories
      within their cap. */
  lemma KdjUpdatedKeeps(c: EnhancedConfig, st: StrategyState)
    requires ConfigValid(c) && Consistent(st)
    ensures var r := KdjUpdated(c, st);
      Consistent(r) && r == st.(kHistory := r.kHistory, dHistory := r.dHistory)
  {
    PushedBounded(st.kHistory, 0.0, KdjCap);
    PushedBounded(st.dHistory, 0.0, KdjCap);
    if KdjOf(c, st).Some? {
      var v := KdjOf(c, st).value;
      PushedBounded(st.kHistory, v.k, KdjCap);
      PushedBounded(st.dHistory, v.d, KdjCap);
    }
  }

  /** An entry needs 50 prices and a score of 70: a buy when the long
      score reaches it, and otherwise a sell when the short score does,
      the short score being taken after the long calculation recorded its
      K and D.  Both calculations record theirs whether or not an order
      follows. */
  lemma EnteredOnScores(c: EnhancedConfig, spec: ContractSpec, st: StrategyState, env: TickEnv, fmt: Format)
    requires ConfigValid(c) && Consistent(st) && PricesPositive(st)
    ensures var r := Entered(c, spec, st, env, fmt);
      var long := Score(c, st, "long", env.stdev);
      var short := Score(c, KdjUpdated(c, st), "short", env.stdev);
      && (|st.prices| < EntryMinimum ==> r == st)
      && (|st.prices| >= EntryMinimum ==>
            r.kHistory == KdjUpdated(c, KdjUpdated(c, st)).kHistory
            && r.dHistory == KdjUpdated(c, KdjUpdated(c, st)).dHistory)
      && (r.sent != st.sent ==>
            && |st.prices| >= EntryMinimum && |r.sent| == |st.sent| + 1
            && (long >= EntryScore ==> OkxClient.Lookup(r.sent[|st.sent|].data, "side") == Some("buy"))
            && (long < EntryScore ==>
                  short >= EntryScore && OkxClient.Lookup(r.sent[|st.sent|].data, "side") == Some("sell")))
  {
    if |st.prices| >= EntryMinimum {
      var long := Score(c, st, "long", env.stdev);
      var st1 := KdjUpdated(c, st);
      KdjUpdatedKeeps(c, st);
      var short := Score(c, st1, "short", env.stdev);
      var st2 := KdjUpdated(c, st1);
      KdjUpdatedKeeps(c, st1);
      var r := Entered(c, spec, st, env, fmt);
      if long >= EntryScore {
        assert r == Opened(c, spec, st2, "long", long, env, fmt);
        OpenedOrder(c, spec, st2, "long", long, env, fmt);
      } else if short >= EntryScore {
        assert r == Opened(c, spec, st2, "short", short, env, fmt);
        OpenedOrder(c, spec, st2, "short", short, env, fmt);
      } else {
        assert r == st2;
      }
    }
  }

  lemma EnteredOneOrder(c: EnhancedConfig, spec: ContractSpec, st: StrategyState, env: TickEnv, fmt: Format)
    requires ConfigValid(c) && Consistent(st) && PricesPositive(st)
    ensures var r := Entered(c, spec, st, env, fmt);
      && Consistent(r) && PricesPositive(r) && AtMostOneMarketOrder(c.symbol, st.sent, r.sent)
      && r.record == st.record && r.prices == st.prices
  {
    NothingAppended(c.symbol, st.sent);
    if |st.prices| >= EntryMinimum {
      var long := Score(c, st, "long", env.stdev);
      var st1 := KdjUpdated(c, st);
      KdjUpdatedKeeps(c, st);
      var short := Score(c, st1, "short", env.stdev);
      var st2 := KdjUpdated(c, st1);
      KdjUpdatedKeeps(c, st1);
      var r := Entered(c, spec, st, env, fmt);
      if long >= EntryScore {
        assert r == Opened(c, spec, st2, "long", long, env, fmt);
        OpenedOrder(c, spec, st2, "long", long, env, fmt);
      } else if short >= EntryScore {
        assert r == Opened(c, spec, st2, "short", short, env, fmt);
        OpenedOrder(c, spec, st2, "short", short, env, fmt);
      } else {
        assert r == st2;
      }
    }
  }

  /* ---------------------------------------------------------------------
     The tick
     --------------------------------------------------------------------- */

  /** `_update_kline_data`: an accepted, non-empty candle reply replaces
      the highs and the lows, oldest first; anything else, a raise
      included, keeps them. */
  function KlineUpdated(st: StrategyState, a: CandlesAnswer): (r: StrategyState)
    ensures r == st.(highs := r.highs, lows := r.lows)
  {
    if CandlesRaise(a) || !CandlesOk(a) then st
    else st.(highs := Reversed(Highs(a.rows)), lows := Reversed(Lows(a.rows)))
  }

  /** The buffering of `on_tick`: the price joins the price and close
      lists, the candles are read, and beyond 200 prices the oldest entry
      of both lists is dropped. */
  function Buffered(st: StrategyState, p: real, candles: CandlesAnswer): StrategyState
  {
    var st1 := KlineUpdated(st.(prices := st.prices + [p], closes := st.closes + [p]), candles);
    if |st1.prices| > HistoryCap then st1.(prices := st1.prices[1..], closes := st1.closes[1..]) else st1
  }

  /** The two lists stay equal and keep the newest 200 prices in arrival
      order. */
  lemma BufferedLockstep(st: StrategyState, p: real, candles: CandlesAnswer)
    requires Consistent(st) && PricesPositive(st) && p > 0.0
    ensures var r := Buffered(st, p, candles);
      var n := if |st.prices| < HistoryCap then |st.prices| + 1 else HistoryCap;
      && Consistent(r) && PricesPositive(r) && r.prices == LastN(st.prices + [p], n)
      && r == st.(prices := r.prices, closes := r.closes, highs := r.highs, lows := r.lows)
  {
    var b := st.prices + [p];
    assert forall i :: 0 <= i < |b| ==> b[i] > 0.0;
  }

  function Analysed(c: EnhancedConfig, spec: ContractSpec, st: StrategyState, env: TickEnv, fmt: Format): StrategyState
    requires ConfigValid(c) && RecordValid(st.record)
  {
    var st1 := st.(position := ReadPosition(st.position, env.positions));
    if st1.position.Some? then Exited(c, st1, env, fmt) else Entered(c, spec, st1, env, fmt)
  }

  /** `on_tick`: a positive last price is buffered; at most every 30
      seconds the position is read, then the exit or the entry check
      runs. */
  function Tick(c: EnhancedConfig, spec: ContractSpec, st: StrategyState, lasts: seq<Option<real>>, now: real,
                env: TickEnv, fmt: Format): StrategyState
    requires ConfigValid(c) && RecordValid(st.record)
  {
    match TickerPrice(lasts)
    case None => st
    case Some(p) =>
      var st1 := Buffered(st, p, env.candles);
      if !Due(now, st1.lastCheck) then st1
      else Analysed(c, spec, st1.(lastCheck := now), env, fmt)
  }

  /** A tick keeps the state consistent, sends at most one market order
      on the symbol, and changes the record only by one closed trade. */
  lemma TickAtMostOneOrder(c: EnhancedConfig, spec: ContractSpec, st: StrategyState, lasts: seq<Option<real>>,
                           now: real, env: TickEnv, fmt: Format)
    requires ConfigValid(c) && Consistent(st) && PricesPositive(st)
    ensures var r := Tick(c, spec, st, lasts, now, env, fmt);
      && Consistent(r) && PricesPositive(r) && AtMostOneMarketOrder(c.symbol, st.sent, r.sent)
      && (r.record == st.record || r.record.total == st.record.total + 1)
  {
    NothingAppended(c.symbol, st.sent);
    match TickerPrice(lasts)
    case None =>
    case Some(p) =>
      BufferedLockstep(st, p, env.candles);
      var st1 := Buffered(st, p, env.candles);
      if Due(now, st1.lastCheck) {
        var st2 := st1.(lastCheck := now);
        var st3 := st2.(position := ReadPosition(st2.position, env.positions));
        ReadPositionShape(st2.position, env.positions);
        assert Consistent(st3) && PricesPositive(st3);
        if st3.position.Some? {
          ExitedOneOrder(c, st3, env, fmt);
          assert Tick(c, spec, st, lasts, now, env, fmt) == Exited(c, st3, env, fmt);
        } else {
          EnteredOneOrder(c, spec, st3, env, fmt);
          assert Tick(c, spec, st, lasts, now, env, fmt) == Entered(c, spec, st3, env, fmt);
        }
      } else {
        assert Tick(c, spec, st, lasts, now, env, fmt) == st1;
      }
  }

  /** A missing or non-positive price changes nothing; otherwise the price
      list keeps the newest 200 prices, and within 30 seconds of the last
      analysis no order is sent. */
  lemma TickBuffersPrice(c: EnhancedConfig, spec: ContractSpec, st: StrategyState, lasts: seq<Option<real>>,
                         now: real, env: TickEnv, fmt: Format)
    requires ConfigValid(c) && Consistent(st) && PricesPositive(st)
    ensures TickerPrice(lasts).None? ==> Tick(c, spec, st, lasts, now, env, fmt) == st
    ensures TickerPrice(lasts).Some? && now - st.lastCheck < 30.0 ==>
      Tick(c, spec, st, lasts, now, env, fmt).sent == st.sent
    ensures TickerPrice(lasts).Some? ==>
      var n := if |st.prices| < HistoryCap then |st.prices| + 1 else HistoryCap;
      Tick(c, spec, st, lasts, now, env, fmt).prices == LastN(st.prices + [lasts[0].value], n)
  {
    if TickerPrice(lasts).Some? {
      var p := lasts[0].value;
      BufferedLockstep(st, p, env.candles);
      var st1 := Buffered(st, p, env.candles);
      if Due(now, st1.lastCheck) {
        var st2 := st1.(lastCheck := now);
        var st3 := st2.(position := ReadPosition(st2.position, env.positions));
        ReadPositionShape(st2.position, env.positions);
        assert Consistent(st3) && PricesPositive(st3);
        if st3.position.Some? {
          ExitedOneOrder(c, st3, env, fmt);
          assert Tick(c, spec, st, lasts, now, env, fmt) == Exited(c, st3, env, fmt);
        } else {
          EnteredOneOrder(c, spec, st3, env, fmt);
          assert Tick(c, spec, st, lasts, now, env, fmt) == Entered(c, spec, st3, env, fmt);
        }
      }
    }
  }

  /* ---------------------------------------------------------------------
     The strategy object
     --------------------------------------------------------------------- */

  /** `get_status`. */
  datatype EnhancedStatus = EnhancedStatus(symbol: string, position: Option<Position>, totalTrades: nat, winRate: real)

  class EnhancedStrategy {
    const config: EnhancedConfig
    const spec: ContractSpec
    var priceHistory: seq<real>
    var closeHistory: seq<real>
    var highHistory: seq<real>
    var lowHistory: seq<real>
    var kdjKHistory: seq<real>
    var kdjDHistory: seq<real>
    var currentPosition: Option<Position>
    var totalTrades: nat
    var winningTrades: nat
    var highestProfitPrice: Option<real>
    var lastCheckTime: real
    var sent: seq<OkxClient.ApiCall>

    ghost predicate Valid()
      reads this
    {
      ConfigValid(config) && Consistent(State())
    }

    function Trades(): Record
      reads this
    {
      Record(totalTrades, winningTrades)
    }

    function State(): StrategyState
      reads this
    {
      StrategyState(priceHistory, closeHistory, highHistory, lowHistory, kdjKHistory, kdjDHistory,
                    currentPosition, Trades(), highestProfitPrice, lastCheckTime, sent)
    }

    constructor (config: EnhancedConfig, instruments: Option<seq<Instrument>>)
      requires ConfigValid(config)
      ensures Valid() && this.config == config
      ensures spec == LoadSpec(config.symbol, instruments, DefaultSpec)
      ensures State() == Initial
    {
      this.config := config;
      spec := LoadSpec(config.symbol, instruments, DefaultSpec);
      priceHistory, closeHistory, highHistory, lowHistory := [], [], [], [];
      kdjKHistory, kdjDHistory := [], [];
      currentPosition := None;
      totalTrades, winningTrades := 0, 0;
      highestProfitPrice := None;
      lastCheckTime := 0.0;
      sent := [];
    }

    /** `calculate_kdj` on the strategy's lists. */
    method CalculateKdj() returns (r: Option<Kdj>)
      requires ConfigValid(config)
      modifies this
      ensures r == KdjOf(config, old(State()))
      ensures State() == KdjUpdated(config, old(State()))
    {
      var n := config.kdjN;
      if |highHistory| < n || |lowHistory| < n || |closeHistory| < n {
        return None;
      }
      ghost var st := State();
      assert st.highs == highHistory && st.lows == lowHistory && st.closes == closeHistory;
      assert st.kHistory == kdjKHistory && st.dHistory == kdjDHistory;
      var rsv := Rsv(highHistory, lowHistory, closeHistory, n);
      var k := Smoothed(kdjKHistory, rsv, config.kdjM1);
      var d := Smoothed(kdjDHistory, k, config.kdjM2);
      r := Some(Kdj(k, d, 3.0 * k - 2.0 * d));
      assert KdjOf(config, st) == r;
      ghost var after := st.(kHistory := Pushed(st.kHistory, k, KdjCap), dHistory := Pushed(st.dHistory, d, KdjCap));
      assert KdjUpdated(config, st) == after;
      PushK(k);
      PushD(d);
      assert State() == after;
    }

    /** K joins its history, which keeps the last 50 values. */
    method PushK(k: real)
      modifies this`kdjKHistory
      ensures kdjKHistory == Pushed(old(kdjKHistory), k, KdjCap)
    {
      kdjKHistory := kdjKHistory + [k];
      if |kdjKHistory| > KdjCap {
        kdjKHistory := kdjKHistory[1..];
      }
    }

    /** D joins its history, which keeps the last 50 values. */
    method PushD(d: real)
      modifies this`kdjDHistory
      ensures kdjDHistory == Pushed(old(kdjDHistory), d, KdjCap)
    {
      kdjDHistory := kdjDHistory + [d];
      if |kdjDHistory| > KdjCap {
        kdjDHistory := kdjDHistory[1..];
      }
    }

    /** `calculate_signal_score`. */
    method CalculateSignalScore(side: string, stdev: seq<real> -> real) returns (score: real)
      requires ConfigValid(config)
      modifies this
      ensures score == Score(config, old(State()), side, stdev)
      ensures State() == KdjUpdated(config, old(State()))
    {
      ghost var st := State();
      var macd := CalculateMacd(priceHistory, config.macdFast, config.macdSlow, config.macdSignal);
      score := MacdPoints(side, macd);
      if |highHistory| >= config.kdjN {
        var kdj := CalculateKdj();
        score := score + KdjPoints(side, kdj);
      } else {
        score := score + KdjPoints(side, None);
      }
      var rsi := Indicators.CalculateRsi(priceHistory, config.rsiPeriod);
      score := score + RsiPoints(side, rsi);
      var bands := ScoreBands(config, priceHistory, stdev);
      score := score + BandPoints(side, priceHistory, bands);
      score := score + TrendPoints(side, priceHistory);
    }

    /** `calculate_dynamic_position_size`. */
    method CalculateDynamicPositionSize(strength: real) returns (r: real)
      requires RecordValid(Trades())
      ensures r == DynamicSize(config, Trades(), strength)
    {
      var m := Multiplier(StrengthFactor(strength), RecordFactor(Trades()));
      r := ScaledSize(config.basePositionSize, m);
    }

    method UpdatePosition(answer: PositionsAnswer)
      requires Valid()
      modifies this
      ensures Valid()
      ensures State() == old(State()).(position := ReadPosition(old(currentPosition), answer))
    {
      ReadPositionShape(currentPosition, answer);
      match answer
      case PositionsRaised =>
      case PositionsReply(code, entries) =>
        if code.None? {
          // the lookup of 'code' raises and the handler keeps the position
        } else if code == Some("0") && entries != [] {
          currentPosition := FindOpenPosition(entries);
        } else {
          currentPosition := None;
        }
    }

    method ClosePosition(rate: real, env: TickEnv, fmt: Format)
      requires Valid()
      modifies this
      ensures Valid()
      ensures State() == Closed(config, old(State()), rate, env, fmt)
    {
      if currentPosition.None? {
        return;
      }
      var pos := currentPosition.value;
      sent := sent + [MarketOrder(config.symbol, CloseSide(pos.side), fmt.ofReal(pos.contracts))];
      if CodeOk(env.order) {
        totalTrades := totalTrades + 1;
        if rate > 0.0 {
          winningTrades := winningTrades + 1;
        }
        currentPosition := None;
        highestProfitPrice := None;
      }
    }

    /** The take profit and the stop loss of `_check_exit_conditions`. */
    method CheckFixedExit(rate: real, env: TickEnv, fmt: Format)
      requires Valid()
      modifies this
      ensures Valid()
      ensures State() == FixedExit(config, old(State()), rate, env, fmt)
    {
      if rate >= config.baseTakeProfit {
        ClosePosition(rate, env, fmt);
      } else if rate <= -config.baseStopLoss {
        ClosePosition(rate, env, fmt);
      }
    }

    /** The trailing exit of `_check_exit_conditions`. */
    method CheckTrailingExit(side: string, price: real, rate: real, env: TickEnv, fmt: Format)
      requires Valid()
      modifies this
      ensures Valid()
      ensures State() == Trailed(config, old(State()), side, price, rate, env, fmt)
    {
      if highestProfitPrice.None? {
        highestProfitPrice := Some(price);
      }
      if side == "long" && price > highestProfitPrice.value {
        highestProfitPrice := Some(price);
      } else if side == "short" && price < highestProfitPrice.value {
        highestProfitPrice := Some(price);
      }
      var best := highestProfitPrice.value;
      assert best == BestPrice(side, old(highestProfitPrice), price);
      if best == 0.0 {
        return;
      }
      var drawdown := if side == "long" then (best - price) / best else (price - best) / best;
      if drawdown >= config.trailingDistance {
        ClosePosition(rate, env, fmt);
        return;
      }
      CheckFixedExit(rate, env, fmt);
    }

    method CheckExitConditions(env: TickEnv, fmt: Format)
      requires Valid()
      modifies this
      ensures Valid()
      ensures State() == Exited(config, old(State()), env, fmt)
    {
      if currentPosition.None? || priceHistory == [] {
        return;
      }
      var pos, p := currentPosition.value, priceHistory[|priceHistory| - 1];
      if p == 0.0 || pos.entryPrice == 0.0 {
        return;
      }
      var e := pos.entryPrice;
      var rate := if pos.side == "long" then (p - e) / e else (e - p) / e;
      assert ProfitRate(pos, p) == Some(rate);
      if config.trailingStop && rate > config.trailingDistance {
        CheckTrailingExit(pos.side, p, rate, env, fmt);
        return;
      }
      CheckFixedExit(rate, env, fmt);
    }

    method OpenPosition(side: string, strength: real, env: TickEnv, fmt: Format)
      requires Valid()
      modifies this
      ensures Valid()
      ensures State() == Opened(config, spec, old(State()), side, strength, env, fmt)
    {
      var size := CalculateDynamicPositionSize(strength);
      if spec.contractValue == 0.0 || spec.lotSize == 0.0 {
        return;
      }
      var contracts := OrderSize(size / spec.contractValue, spec);
      sent := sent + [MarketOrder(config.symbol, OpenSide(side), fmt.ofReal(contracts))];
      if CodeOk(env.order) {
        highestProfitPrice := None;
        UpdatePosition(env.positionsAfter);
      }
    }

    method CheckEntrySignals(env: TickEnv, fmt: Format)
      requires Valid()
      modifies this
      ensures Valid()
      ensures State() == Entered(config, spec, old(State()), env, fmt)
    {
      if |priceHistory| < EntryMinimum {
        return;
      }
      ghost var st := State();
      KdjUpdatedKeeps(config, st);
      var long := CalculateSignalScore("long", env.stdev);
      ghost var st1 := State();
      KdjUpdatedKeeps(config, st1);
      var short := CalculateSignalScore("short", env.stdev);
      if long >= EntryScore {
        OpenPosition("long", long, env, fmt);
      } else if short >= EntryScore {
        OpenPosition("short", short, env, fmt);
      }
    }

    /** `on_tick`: `lasts` holds the ticker entries' last prices and `now`
        the clock. */
    method OnTick(lasts: seq<Option<real>>, now: real, env: TickEnv, fmt: Format)
      requires Valid()
      modifies this
      ensures Valid()
      ensures State() == Tick(config, spec, old(State()), lasts, now, env, fmt)
    {
      if lasts == [] {
        return;
      }
      var last := lasts[0].GetOr(0.0);
      if last <= 0.0 {
        return;
      }
      assert TickerPrice(lasts) == Some(last);
      BufferPrice(last, env.candles);
      if now - lastCheckTime < 30.0 {
        return;
      }
      lastCheckTime := now;
      Analyse(env, fmt);
    }

    /** The buffering of `on_tick`. */
    method BufferPrice(price: real, candles: CandlesAnswer)
      requires Valid()
      modifies this
      ensures Valid()
      ensures State() == Buffered(old(State()), price, candles)
    {
      priceHistory := priceHistory + [price];
      closeHistory := closeHistory + [price];
      UpdateKlineData(candles);
      if |priceHistory| > HistoryCap {
        priceHistory := priceHistory[1..];
        closeHistory := closeHistory[1..];
      }
    }

    method UpdateKlineData(candles: CandlesAnswer)
      modifies this
      ensures State() == KlineUpdated(old(State()), candles)
    {
      if CandlesRaise(candles) || !CandlesOk(candles) {
        return;
      }
      highHistory := Reversed(Highs(candles.rows));
      lowHistory := Reversed(Lows(candles.rows));
    }

    /** The part of `on_tick` after the throttle. */
    method Analyse(env: TickEnv, fmt: Format)
      requires Valid()
      modifies this
      ensures Valid()
      ensures State() == Analysed(config, spec, old(State()), env, fmt)
    {
      UpdatePosition(env.positions);
      if currentPosition.Some? {
        CheckExitConditions(env, fmt);
      } else {
        CheckEntrySignals(env, fmt);
      }
    }

    /** `get_status`. */
    function Status(): (r: EnhancedStatus)
      requires RecordValid(Trades())
      reads this
      ensures 0.0 <= r.winRate <= 1.0
      ensures r.totalTrades == 0 ==> r.winRate == 0.0
    {
      EnhancedStatus(config.symbol, currentPosition, totalTrades,
                     if totalTrades > 0 then winningTrades as real / totalTrades as real else 0.0)
    }
  }
}
