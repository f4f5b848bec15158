/** The smart profit strategy: the moving-average entry of the position
    strategy, filtered by a 20-100 signal score (trend gap, RSI, price
    side, trading hours), sized by the trade record, with stop-loss and
    take-profit rates adapted to volatility and a trailing stop that
    follows the best price once the position is far enough in profit. */
module SmartProfitStrategy {
  import opened Wrappers
  import opened Builtins
  import OkxClient
  import opened Market
  import Indicators

  datatype SmartConfig = SmartConfig(
    symbol: string, basePositionSize: real, baseStopLoss: real, baseTakeProfit: real, leverage: int,
    useTrailingStop: bool, trailingTrigger: real, trailingDistance: real,
    useDynamicPosition: bool, useSignalFilter: bool, useTimeFilter: bool, useVolatilityAdapt: bool,
    maShortPeriod: int, maLongPeriod: int, rsiPeriod: int, minSignalStrength: real)

  const DefaultConfig := SmartConfig("ETH-USDT-SWAP", 0.1, 0.02, 0.045, 50, true, 0.02, 0.01,
                                     true, true, true, true, 5, 20, 14, 60.0)

  const DefaultSpec := ContractSpec(0.1, 0.01, 0.01, false)

  /** The price buffer's capacity. */
  const HistoryCap := 100

  predicate ConfigValid(c: SmartConfig)
  {
    c.maShortPeriod >= 1 && c.maLongPeriod >= 1 && c.rsiPeriod >= 1
  }

  /** Why a position was closed. */
  datatype Reason = TrailingStop | TakeProfit | StopLoss

  /** An entry of `trade_history` (its timestamp is not modelled). */
  datatype TradeRecord = TradeRecord(side: string, profitRate: real, reason: Reason)

  /** What the outside world supplies to one analysis: the positions read
      first, the answer to the order placed, the positions read again after
      an accepted opening order, the UTC hour of the clock, and the
      standard deviation the statistics library computes. */
  datatype TickEnv = TickEnv(positions: PositionsAnswer, order: OrderOutcome, positionsAfter: PositionsAnswer,
                             utcHour: int, stdev: seq<real> -> real)

  datatype StrategyState = StrategyState(
    price: Option<real>, position: Option<Position>, history: seq<real>, lastCheck: real,
    stats: TradeStats, trades: seq<TradeRecord>, trailingActive: bool, highest: Option<real>,
    sent: seq<OkxClient.ApiCall>)

  const Initial := StrategyState(None, None, [], 0.0, NoTrades, [], false, None, [])

  /** The buffer within its cap, a long or short position, consistent
      statistics, and an extreme price whenever the trailing stop is
      active. */
  predicate Consistent(st: StrategyState)
  {
    |st.history| <= HistoryCap
    && (st.position.Some? ==> st.position.value.side == "long" || st.position.value.side == "short")
    && StatsValid(st.stats)
    && (st.trailingActive ==> st.highest.Some?)
  }

  /* ---------------------------------------------------------------------
     Indicators
     --------------------------------------------------------------------- */

  /** `calculate_rsi`: the RSI of the last period + 1 prices. */
  function BufferRsi(history: seq<real>, period: int): (r: Option<real>)
    requires period >= 1
    ensures r.None? <==> |history| < period + 1
  {
    if |history| < period + 1 then None
    else Indicators.Rsi(LastN(history, period + 1), period)
  }

  /** Taking the window first changes nothing: it is the RSI of the whole
      buffer over its last period moves. */
  lemma BufferRsiIsRsi(history: seq<real>, period: int)
    requires period >= 1
    ensures BufferRsi(history, period) == Indicators.Rsi(history, period)
    ensures BufferRsi(history, period).Some? ==> 0.0 <= BufferRsi(history, period).value <= 100.0
  {
    if |history| >= period + 1 {
      Indicators.RsiOfWindow(history, period);
      Indicators.RsiIsGainShare(history, period);
    }
  }

  /** `calculate_rsi`, by the gains-and-losses loop over the window. */
  method CalculateRsi(history: seq<real>, period: int) returns (r: Option<real>)
    requires period >= 1
    ensures r == BufferRsi(history, period)
  {
    if |history| < period + 1 {
      return None;
    }
    r := Indicators.CalculateRsi(LastN(history, period + 1), period);
  }

  /** The relative change from each price to the next; a zero price makes
      the division raise (None). */
  function Returns(w: seq<real>): (r: Option<seq<real>>)
    requires |w| >= 1
    ensures r.Some? <==> forall i :: 0 <= i < |w| - 1 ==> w[i] != 0.0
    ensures r.Some? ==> |r.value| == |w| - 1
  {
    if forall i :: 0 <= i < |w| - 1 ==> w[i] != 0.0
    then Some(seq(|w| - 1, i requires 0 <= i < |w| - 1 => (w[i + 1] - w[i]) / w[i]))
    else None
  }

  /** `calculate_volatility`: 4% until 20 prices are buffered, then the
      standard deviation of the last 19 returns (19 is always at least the
      two the library needs). */
  function Volatility(history: seq<real>, stdev: seq<real> -> real): (r: Option<real>)
    ensures |history| < 20 ==> r == Some(0.04)
    ensures |history| >= 20 ==>
      (r.Some? <==> forall i :: |history| - 20 <= i < |history| - 1 ==> history[i] != 0.0)
  {
    if |history| < 20 then Some(0.04)
    else
      match Returns(LastN(history, 20))
      case None => None
      case Some(rs) => Some(stdev(rs))
  }

  /** `is_trading_time`: with the filter on, the UTC hours 12-16, 20-24
      and 0-2. */
  predicate IsTradingTime(useTimeFilter: bool, hour: int): (r: bool)
    ensures !useTimeFilter ==> r
    ensures useTimeFilter && 0 <= hour < 24 ==> (r <==> hour in {0, 1, 12, 13, 14, 15, 20, 21, 22, 23})
  {
    !useTimeFilter || (12 <= hour < 16) || (20 <= hour < 24) || (0 <= hour < 2)
  }

  /* ---------------------------------------------------------------------
     Signal strength
     --------------------------------------------------------------------- */

  /** Points for the gap between the averages, relative to the price. */
  function GapPoints(gap: real): int
  {
    if gap > 0.005 then 40 else if gap > 0.003 then 30 else if gap > 0.001 then 20 else 10
  }

  /** Points for the RSI confirming the side.  `if rsi:` is false for an
      RSI of exactly 0, which then scores like a missing one. */
  function RsiPoints(side: string, rsi: Option<real>): int
  {
    if rsi.None? || rsi.value == 0.0 then 0
    else if side == "long" then
      (if rsi.value < 30.0 then 30 else if rsi.value < 50.0 then 20 else if rsi.value < 70.0 then 10 else 0)
    else
      (if rsi.value > 70.0 then 30 else if rsi.value > 50.0 then 20 else if rsi.value > 30.0 then 10 else 0)
  }

  /** Points for the price being on the side's side of the short average. */
  function PlacePoints(side: string, price: real, maShort: real): int
  {
    if side == "long" && price > maShort then 20
    else if side == "short" && price < maShort then 20
    else 10
  }

  /** `calculate_signal_strength`. */
  function SignalStrength(c: SmartConfig, side: string, maShort: real, maLong: real, rsi: Option<real>,
                          price: real, hour: int): int
    requires price != 0.0
  {
    GapPoints(Abs(maShort - maLong) / price) + RsiPoints(side, rsi) + PlacePoints(side, price, maShort)
    + (if IsTradingTime(c.useTimeFilter, hour) then 10 else 0)
  }

  /** The score lies in 20..100; it is 100 exactly when the gap exceeds
      0.5%, the RSI is beyond 30 (long) or 70 (short) without being 0, the
      price is on the side's side of the short average, and the hour is a
      trading hour. */
  lemma SignalStrengthRange(c: SmartConfig, side: string, maShort: real, maLong: real, rsi: Option<real>,
                            price: real, hour: int)
    requires price != 0.0 && (side == "long" || side == "short")
    ensures 20 <= SignalStrength(c, side, maShort, maLong, rsi, price, hour) <= 100
    ensures SignalStrength(c, side, maShort, maLong, rsi, price, hour) == 100 <==>
      && Abs(maShort - maLong) / price > 0.005
      && rsi.Some? && rsi.value != 0.0
      && (if side == "long" then rsi.value < 30.0 && price > maShort else rsi.value > 70.0 && price < maShort)
      && IsTradingTime(c.useTimeFilter, hour)
  {
  }

  /** The truthiness test: a long with an RSI of exactly 0, the most
      oversold reading, gets no RSI points, while any positive RSI below 30
      gets the full 30. */
  lemma RsiZeroScoresNothing(rsi: real)
    requires 0.0 < rsi < 30.0
    ensures RsiPoints("long", Some(0.0)) == 0
    ensures RsiPoints("long", Some(rsi)) == 30
  {
  }

  /* ---------------------------------------------------------------------
     Position size and stops
     --------------------------------------------------------------------- */

  /** The win-rate factor, once five trades are recorded. */
  function WinRateFactor(s: TradeStats): real
    requires StatsValid(s)
  {
    if s.total >= 5 then
      var wr := WinRate(s);
      if wr >= 0.6 then 1.5 else if wr >= 0.5 then 1.2 else if wr < 0.4 then 0.7 else 1.0
    else 1.0
  }

  function WinStreakFactor(s: TradeStats): real
  {
    if s.wins >= 3 then 1.3 else if s.wins >= 2 then 1.1 else 1.0
  }

  function LossStreakFactor(s: TradeStats): real
  {
    if s.losses >= 3 then 0.5 else if s.losses >= 2 then 0.7 else 1.0
  }

  /** The multiplier before the clamp. */
  function RawMultiplier(s: TradeStats): real
    requires StatsValid(s)
  {
    1.0 * WinRateFactor(s) * WinStreakFactor(s) * LossStreakFactor(s)
  }

  /** `calculate_dynamic_position_size`: the base size, or the base size
      times the multiplier clamped to 0.5..2. */
  function DynamicSize(c: SmartConfig, s: TradeStats): real
    requires StatsValid(s)
  {
    if !c.useDynamicPosition then c.basePositionSize
    else c.basePositionSize * Clamp(0.5, 2.0, RawMultiplier(s))
  }

  /** The size stays within half and twice the base; since one streak is
      always zero the multiplier never exceeds 1.95, so the upper clamp
      never applies; two losses in a row keep it at most 1.05, and before
      five trades without a streak it is exactly the base. */
  lemma DynamicSizeBounds(c: SmartConfig, s: TradeStats)
    requires StatsValid(s) && c.basePositionSize >= 0.0
    ensures 0.35 <= RawMultiplier(s) <= 1.95
    ensures c.useDynamicPosition ==>
      0.5 * c.basePositionSize <= DynamicSize(c, s) <= 1.95 * c.basePositionSize
    ensures s.losses >= 2 ==> RawMultiplier(s) <= 1.05
    ensures s.total < 5 && s.wins < 2 && s.losses < 2 ==> DynamicSize(c, s) == c.basePositionSize
  {
    var a, b, d := WinRateFactor(s), WinStreakFactor(s), LossStreakFactor(s);
    assert 0.7 <= a <= 1.5 && 1.0 <= b <= 1.3 && 0.5 <= d <= 1.0;
    assert b == 1.0 || d == 1.0;
    ProductBounds(a, b, d);
    var m := Clamp(0.5, 2.0, RawMultiplier(s));
    assert 0.5 <= m <= 1.95;
    ScaleBetween(c.basePositionSize, m, 0.5, 1.95);
  }

  lemma ProductBounds(a: real, b: real, d: real)
    requires 0.7 <= a <= 1.5 && 1.0 <= b <= 1.3 && 0.5 <= d <= 1.0 && (b == 1.0 || d == 1.0)
    ensures 0.35 <= 1.0 * a * b * d <= 1.95
    ensures d <= 0.7 ==> 1.0 * a * b * d <= 1.05
  {
    if b == 1.0 {
      assert 1.0 * a * b * d == a * d;
      assert a * d <= 1.5 * d;
      assert 0.7 * d <= a * d;
    } else {
      assert 1.0 * a * b * d == a * b;
      assert a * b <= 1.5 * b;
      assert 0.7 * b <= a * b;
    }
  }

  /** A base stop scaled by the volatility relative to 4%. */
  function VolatilityScaled(base: real, volatility: real): real
  {
    base * (volatility / 0.04)
  }

  /** A non-negative base scales up with the volatility. */
  lemma VolatilityScaledMonotone(base: real, v1: real, v2: real)
    requires base >= 0.0 && v1 <= v2
    ensures VolatilityScaled(base, v1) <= VolatilityScaled(base, v2)
  {
    var r1, r2 := v1 / 0.04, v2 / 0.04;
    assert r1 <= r2;
    MulMonotone(base, r1, r2);
  }

  /** `calculate_adaptive_stops`: (stop loss, take profit), scaled by the
      volatility over 4% and clamped to 1.5..3% and 3..6%. */
  function AdaptiveStops(c: SmartConfig, volatility: real): (real, real)
  {
    if !c.useVolatilityAdapt then (c.baseStopLoss, c.baseTakeProfit)
    else
      (Clamp(0.015, 0.03, VolatilityScaled(c.baseStopLoss, volatility)),
       Clamp(0.03, 0.06, VolatilityScaled(c.baseTakeProfit, volatility)))
  }

  /** Adapted stops stay in their bands, and a more volatile market never
      tightens them. */
  lemma AdaptiveStopsBands(c: SmartConfig, v1: real, v2: real)
    requires c.useVolatilityAdapt && c.baseStopLoss >= 0.0 && c.baseTakeProfit >= 0.0 && v1 <= v2
    ensures 0.015 <= AdaptiveStops(c, v1).0 <= 0.03 && 0.03 <= AdaptiveStops(c, v1).1 <= 0.06
    ensures AdaptiveStops(c, v1).0 <= AdaptiveStops(c, v2).0
    ensures AdaptiveStops(c, v1).1 <= AdaptiveStops(c, v2).1
  {
    VolatilityScaledMonotone(c.baseStopLoss, v1, v2);
    VolatilityScaledMonotone(c.baseTakeProfit, v1, v2);
    ClampMonotone(0.015, 0.03, VolatilityScaled(c.baseStopLoss, v1), VolatilityScaled(c.baseStopLoss, v2));
    ClampMonotone(0.03, 0.06, VolatilityScaled(c.baseTakeProfit, v1), VolatilityScaled(c.baseTakeProfit, v2));
  }

  /* ---------------------------------------------------------------------
     Closing and the exit check
     --------------------------------------------------------------------- */

  /** `_close_position`: a market order for the held contracts; when the
      reply's code is '0' the trade is tallied and recorded, the position
      cleared and the trailing stop switched off (its extreme price
      stays). */
  function Closed(c: SmartConfig, st: StrategyState, rate: real, reason: Reason, env: TickEnv, fmt: Format): StrategyState
  {
    match st.position
    case None => st
    case Some(pos) =>
      var st1 := st.(sent := st.sent + [MarketOrder(c.symbol, CloseSide(pos.side), fmt.ofReal(pos.contracts))]);
      if CodeOk(env.order) then
        st1.(stats := Tallied(st.stats, rate), trades := st.trades + [TradeRecord(pos.side, rate, reason)],
             position := None, trailingActive := false)
      else st1
  }

  /** An accepted close counts the trade once, keeps the statistics
      consistent and records it; a refused one changes only the requests
      sent. */
  lemma ClosedTallies(c: SmartConfig, st: StrategyState, rate: real, reason: Reason, env: TickEnv, fmt: Format)
    requires Consistent(st) && st.position.Some?
    ensures var r := Closed(c, st, rate, reason, env, fmt);
      && Consistent(r)
      && AtMostOneMarketOrder(c.symbol, st.sent, r.sent) && |r.sent| == |st.sent| + 1
      && (CodeOk(env.order) ==>
            && r.position.None? && !r.trailingActive
            && r.stats.total == st.stats.total + 1
            && (r.stats.winning == st.stats.winning + 1 <==> rate > 0.0)
            && r.trades == st.trades + [TradeRecord(st.position.value.side, rate, reason)])
      && (!CodeOk(env.order) ==> r == st.(sent := r.sent))
  {
    TalliedKeepsValid(st.stats, rate);
    var pos := st.position.value;
    AppendedMarketOrder(st.sent, c.symbol, CloseSide(pos.side), fmt.ofReal(pos.contracts));
  }

  /** The fixed take-profit, then the stop-loss. */
  function FixedExit(c: SmartConfig, st: StrategyState, rate: real, stops: (real, real), env: TickEnv, fmt: Format): StrategyState
  {
    if rate >= stops.1 then Closed(c, st, rate, TakeProfit, env, fmt)
    else if rate <= -stops.0 then Closed(c, st, rate, StopLoss, env, fmt)
    else st
  }

  /** The extreme price after a check past the trigger: the price itself on
      activation, then the higher (long) or lower (short) of it and the
      price; None when an active stop has no extreme (the comparison
      raises). */
  function NextExtreme(active: bool, extreme: Option<real>, side: string, price: real): Option<real>
  {
    var h := if !active then Some(price) else extreme;
    match h
    case None => None
    case Some(x) => if side == "long" then Some(Max(x, price)) else Some(Min(x, price))
  }

  /** How far the price has come back from the extreme, as a fraction of
      it. */
  function Drawdown(side: string, extreme: real, price: real): real
    requires extreme != 0.0
  {
    if side == "long" then (extreme - price) / extreme else (price - extreme) / extreme
  }

  /** `_check_exit_conditions` for a held position at a known price: the
      trailing stop first (past the trigger: activate, follow the extreme,
      close on a drawdown of the trailing distance), then the fixed rates.
      A zero entry price, a missing extreme or a zero extreme raise and
      end the check; so does a zero price in the volatility window, which
      the source reaches only with volatility adaptation on. The model
      looks at the window either way; the difference cannot show, since
      ticks with a price of 0 or less are dropped before they are buffered. */
  function Exited(c: SmartConfig, st: StrategyState, env: TickEnv, fmt: Format): StrategyState
  {
    if st.position.None? || st.price.None? then st
    else
      var pos, p := st.position.value, st.price.value;
      match Volatility(st.history, env.stdev)
      case None => st
      case Some(vol) =>
        var stops := AdaptiveStops(c, vol);
        match ProfitRate(pos, p)
        case None => st
        case Some(rate) =>
          if c.useTrailingStop && rate >= c.trailingTrigger then
            match NextExtreme(st.trailingActive, st.highest, pos.side, p)
            case None => st
            case Some(h) =>
              var st1 := st.(trailingActive := true, highest := Some(h));
              if h == 0.0 then st1
              else if Drawdown(pos.side, h, p) >= c.trailingDistance then Closed(c, st1, rate, TrailingStop, env, fmt)
              else FixedExit(c, st1, rate, stops, env, fmt)
          else FixedExit(c, st, rate, stops, env, fmt)
  }

  /** While the trailing stop stays on, its extreme only moves with the
      position: up for a long, down for a short, and never behind the
      price just checked; it switches on only past the trigger. */
  lemma ExitedTrailsExtreme(c: SmartConfig, st: StrategyState, env: TickEnv, fmt: Format)
    requires Consistent(st) && st.position.Some? && st.price.Some?
    ensures var r := Exited(c, st, env, fmt);
      var side, p := st.position.value.side, st.price.value;
      && (r.trailingActive ==> r.highest.Some?)
      && (st.trailingActive && r.trailingActive && side == "long" ==> r.highest.value >= st.highest.value)
      && (st.trailingActive && r.trailingActive && side == "short" ==> r.highest.value <= st.highest.value)
      && (r.trailingActive && r.highest != st.highest ==>
            (side == "long" ==> r.highest.value >= p) && (side == "short" ==> r.highest.value <= p))
      && (!st.trailingActive && r.trailingActive ==>
            c.useTrailingStop && ProfitRate(st.position.value, p).Some?
            && ProfitRate(st.position.value, p).value >= c.trailingTrigger && r.highest == Some(p))
  {
  }

  /** The trailing stop closes before the fixed rates are consulted: once
      past the trigger with a drawdown of the trailing distance from the
      updated extreme, the order closes for the trailing reason. */
  lemma TrailingCloseFirst(c: SmartConfig, st: StrategyState, env: TickEnv, fmt: Format)
    requires st.position.Some? && st.price.Some? && Volatility(st.history, env.stdev).Some?
    requires c.useTrailingStop
    requires ProfitRate(st.position.value, st.price.value).Some?
    requires ProfitRate(st.position.value, st.price.value).value >= c.trailingTrigger
    requires NextExtreme(st.trailingActive, st.highest, st.position.value.side, st.price.value).Some?
    ensures var pos, p := st.position.value, st.price.value;
      var h := NextExtreme(st.trailingActive, st.highest, pos.side, p).value;
      var rate := ProfitRate(pos, p).value;
      h != 0.0 && Drawdown(pos.side, h, p) >= c.trailingDistance ==>
        && Exited(c, st, env, fmt)
           == Closed(c, st.(trailingActive := true, highest := Some(h)), rate, TrailingStop, env, fmt)
        && (CodeOk(env.order) ==> Exited(c, st, env, fmt).trades[|st.trades|].reason == TrailingStop)
  {
  }

  /* ---------------------------------------------------------------------
     Opening and the entry check
     --------------------------------------------------------------------- */

  /** `_open_position`: the dynamic size in contracts, a market order, and
      on acceptance the trailing stop reset and the position read again. */
  function Opened(c: SmartConfig, spec: ContractSpec, st: StrategyState, side: string, env: TickEnv, fmt: Format): StrategyState
    requires StatsValid(st.stats)
  {
    match OpenContracts(DynamicSize(c, st.stats), spec)
    case None => st
    case Some(n) =>
      var st1 := st.(sent := st.sent + [MarketOrder(c.symbol, OpenSide(side), fmt.ofReal(n))]);
      if PlacedOrderId(env.order).Some? then
        st1.(trailingActive := false, highest := None, position := ReadPosition(st.position, env.positionsAfter))
      else st1
  }

  /** A signal on a side opens it unless the filter is on and the score is
      below the minimum. */
  function OpenIfStrong(c: SmartConfig, spec: ContractSpec, st: StrategyState, side: string, maShort: real,
                        maLong: real, rsi: Option<real>, price: real, env: TickEnv, fmt: Format): StrategyState
    requires StatsValid(st.stats) && price != 0.0
  {
    var strength := SignalStrength(c, side, maShort, maLong, rsi, price, env.utcHour);
    if c.useSignalFilter && (strength as real) < c.minSignalStrength then st
    else Opened(c, spec, st, side, env, fmt)
  }

  /** `_check_entry_signals`: the moving-average crossover, its side then
      passed through the score filter.  A zero price makes the score's
      division raise. */
  function Entered(c: SmartConfig, spec: ContractSpec, st: StrategyState, env: TickEnv, fmt: Format): StrategyState
    requires ConfigValid(c) && StatsValid(st.stats)
  {
    if st.price.None? then st
    else
      var p := st.price.value;
      match Indicators.Crossover(st.history, c.maShortPeriod, c.maLongPeriod, p)
      case None => st
      case Some(side) =>
        if p == 0.0 then st
        else OpenIfStrong(c, spec, st, side, Indicators.MovingAverage(st.history, c.maShortPeriod).value,
                          Indicators.MovingAverage(st.history, c.maLongPeriod).value,
                          BufferRsi(st.history, c.rsiPeriod), p, env, fmt)
  }

  /** An opening order follows a crossover signal and, with the filter on,
      a score of at least the minimum. */
  lemma EnteredNeedsStrength(c: SmartConfig, spec: ContractSpec, st: StrategyState, env: TickEnv, fmt: Format)
    requires ConfigValid(c) && StatsValid(st.stats)
    ensures var r := Entered(c, spec, st, env, fmt);
      r.sent != st.sent ==>
        && st.price.Some? && st.price.value != 0.0
        && var p := st.price.value;
           var signal := Indicators.Crossover(st.history, c.maShortPeriod, c.maLongPeriod, p);
           && signal.Some?
           && (c.useSignalFilter ==>
                 SignalStrength(c, signal.value, Indicators.MovingAverage(st.history, c.maShortPeriod).value,
                                Indicators.MovingAverage(st.history, c.maLongPeriod).value,
                                BufferRsi(st.history, c.rsiPeriod), p, env.utcHour) as real
                 >= c.minSignalStrength)
  {
  }

  /* ---------------------------------------------------------------------
     The tick
     --------------------------------------------------------------------- */

  function Analysed(c: SmartConfig, spec: ContractSpec, st: StrategyState, env: TickEnv, fmt: Format): StrategyState
    requires ConfigValid(c) && StatsValid(st.stats)
  {
    var st1 := st.(position := ReadPosition(st.position, env.positions));
    if st1.position.Some? then Exited(c, st1, env, fmt) else Entered(c, spec, st1, env, fmt)
  }

  /** `on_tick`: as in the position strategy, with a buffer of 100. */
  function Tick(c: SmartConfig, spec: ContractSpec, st: StrategyState, lasts: seq<Option<real>>, now: real,
                env: TickEnv, fmt: Format): StrategyState
    requires ConfigValid(c) && StatsValid(st.stats)
  {
    match TickerPrice(lasts)
    case None => st
    case Some(p) =>
      var st1 := st.(price := Some(p), history := Pushed(st.history, p, HistoryCap));
      if !Due(now, st1.lastCheck) then st1
      else Analysed(c, spec, st1.(lastCheck := now), env, fmt)
  }

  lemma OpenedOneOrder(c: SmartConfig, spec: ContractSpec, st: StrategyState, side: string, env: TickEnv, fmt: Format)
    requires Consistent(st)
    ensures var r := Opened(c, spec, st, side, env, fmt);
      Consistent(r) && AtMostOneMarketOrder(c.symbol, st.sent, r.sent)
      && r.stats == st.stats && r.trades == st.trades && r.history == st.history
  {
    ReadPositionShape(st.position, env.positionsAfter);
    var r := Opened(c, spec, st, side, env, fmt);
    if r.sent != st.sent {
      AppendedMarketOrder(st.sent, c.symbol, OpenSide(side),
                          fmt.ofReal(OpenContracts(DynamicSize(c, st.stats), spec).value));
    } else {
      NothingAppended(c.symbol, st.sent);
    }
  }

  /** What an exit check can do to the state: nothing, switch the trailing
      stop on with an extreme, and then possibly close. */
  predicate ExitStep(c: SmartConfig, st: StrategyState, r: StrategyState)
    requires st.position.Some? && st.price.Some?
  {
    Consistent(r) && AtMostOneMarketOrder(c.symbol, st.sent, r.sent) && r.history == st.history
    && (r.stats == st.stats || r.stats.total == st.stats.total + 1)
  }

  lemma FixedExitOneOrder(c: SmartConfig, st0: StrategyState, st: StrategyState, rate: real, stops: (real, real),
                          env: TickEnv, fmt: Format)
    requires Consistent(st) && st.position.Some? && st.price.Some?
    requires st0.position == st.position && st0.price == st.price && st0.sent == st.sent
    requires st0.history == st.history && st0.stats == st.stats
    requires ProfitRate(st.position.value, st.price.value) == Some(rate)
    ensures ExitStep(c, st0, FixedExit(c, st, rate, stops, env, fmt))
  {
    NothingAppended(c.symbol, st.sent);
    ClosedTallies(c, st, rate, TakeProfit, env, fmt);
    ClosedTallies(c, st, rate, StopLoss, env, fmt);
  }

  lemma ExitedOneOrder(c: SmartConfig, st: StrategyState, env: TickEnv, fmt: Format)
    requires Consistent(st)
    ensures var r := Exited(c, st, env, fmt);
      Consistent(r) && AtMostOneMarketOrder(c.symbol, st.sent, r.sent) && r.history == st.history
      && (r.stats == st.stats || r.stats.total == st.stats.total + 1)
  {
    NothingAppended(c.symbol, st.sent);
    if st.position.None? || st.price.None? {
      return;
    }
    var pos, p := st.position.value, st.price.value;
    var vol := Volatility(st.history, env.stdev);
    var rate := ProfitRate(pos, p);
    if vol.None? || rate.None? {
      return;
    }
    TalliedKeepsValid(st.stats, rate.value);
    var stops := AdaptiveStops(c, vol.value);
    if c.useTrailingStop && rate.value >= c.trailingTrigger {
      var h := NextExtreme(st.trailingActive, st.highest, pos.side, p);
      if h.None? {
        return;
      }
      var st1 := st.(trailingActive := true, highest := h);
      if h.value == 0.0 {
        assert Exited(c, st, env, fmt) == st1;
        assert ExitStep(c, st, st1);
      } else if Drawdown(pos.side, h.value, p) >= c.trailingDistance {
        ClosedTallies(c, st1, rate.value, TrailingStop, env, fmt);
        assert Exited(c, st, env, fmt) == Closed(c, st1, rate.value, TrailingStop, env, fmt);
      } else {
        FixedExitOneOrder(c, st, st1, rate.value, stops, env, fmt);
        assert Exited(c, st, env, fmt) == FixedExit(c, st1, rate.value, stops, env, fmt);
      }
    } else {
      FixedExitOneOrder(c, st, st, rate.value, stops, env, fmt);
      assert Exited(c, st, env, fmt) == FixedExit(c, st, rate.value, stops, env, fmt);
    }
  }

  lemma EnteredOneOrder(c: SmartConfig, spec: ContractSpec, st: StrategyState, env: TickEnv, fmt: Format)
    requires ConfigValid(c) && Consistent(st)
    ensures var r := Entered(c, spec, st, env, fmt);
      Consistent(r) && AtMostOneMarketOrder(c.symbol, st.sent, r.sent)
      && r.stats == st.stats && r.trades == st.trades && r.history == st.history
  {
    NothingAppended(c.symbol, st.sent);
    if st.price.None? {
      return;
    }
    var p := st.price.value;
    var signal := Indicators.Crossover(st.history, c.maShortPeriod, c.maLongPeriod, p);
    if signal.None? || p == 0.0 {
      assert Entered(c, spec, st, env, fmt) == st;
      return;
    }
    var side := signal.value;
    var strength := SignalStrength(c, side, Indicators.MovingAverage(st.history, c.maShortPeriod).value,
                                   Indicators.MovingAverage(st.history, c.maLongPeriod).value,
                                   BufferRsi(st.history, c.rsiPeriod), p, env.utcHour);
    if c.useSignalFilter && (strength as real) < c.minSignalStrength {
      assert Entered(c, spec, st, env, fmt) == st;
    } else {
      OpenedOneOrder(c, spec, st, side, env, fmt);
      assert Entered(c, spec, st, env, fmt) == Opened(c, spec, st, side, env, fmt);
    }
  }

  /** A tick keeps the state consistent, sends at most one market order on
      the symbol, and changes the statistics only by tallying one closed
      trade. */
  lemma TickAtMostOneOrder(c: SmartConfig, spec: ContractSpec, st: StrategyState, lasts: seq<Option<real>>,
                           now: real, env: TickEnv, fmt: Format)
    requires ConfigValid(c) && Consistent(st)
    ensures var r := Tick(c, spec, st, lasts, now, env, fmt);
      && Consistent(r) && AtMostOneMarketOrder(c.symbol, st.sent, r.sent)
      && (r.stats == st.stats || r.stats.total == st.stats.total + 1)
  {
    NothingAppended(c.symbol, st.sent);
    match TickerPrice(lasts)
    case None =>
    case Some(p) =>
      PushedBounded(st.history, p, HistoryCap);
      var st1 := st.(price := Some(p), history := Pushed(st.history, p, HistoryCap));
      if Due(now, st1.lastCheck) {
        var st2 := st1.(lastCheck := now);
        var st3 := st2.(position := ReadPosition(st2.position, env.positions));
        ReadPositionShape(st2.position, env.positions);
        assert Consistent(st3);
        if st3.position.Some? {
          ExitedOneOrder(c, st3, env, fmt);
          assert Tick(c, spec, st, lasts, now, env, fmt) == Exited(c, st3, env, fmt);
        } else {
          EnteredOneOrder(c, spec, st3, env, fmt);
          assert Tick(c, spec, st, lasts, now, env, fmt) == Entered(c, spec, st3, env, fmt);
        }
      } else {
        assert Tick(c, spec, st, lasts, now, env, fmt) == st1;
      }
  }

  /** The buffer keeps the newest 100 prices; a missing or non-positive
      price changes nothing; within 30 seconds of the last analysis no
      order is sent. */
  lemma TickBuffersPrice(c: SmartConfig, spec: ContractSpec, st: StrategyState, lasts: seq<Option<real>>,
                         now: real, env: TickEnv, fmt: Format)
    requires ConfigValid(c) && Consistent(st)
    ensures TickerPrice(lasts).None? ==> Tick(c, spec, st, lasts, now, env, fmt) == st
    ensures TickerPrice(lasts).Some? && now - st.lastCheck < 30.0 ==>
      Tick(c, spec, st, lasts, now, env, fmt).sent == st.sent
    ensures TickerPrice(lasts).Some? ==>
      var n := if |st.history| < HistoryCap then |st.history| + 1 else HistoryCap;
      Tick(c, spec, st, lasts, now, env, fmt).history == LastN(st.history + [lasts[0].value], n)
  {
    if TickerPrice(lasts).Some? {
      var p := lasts[0].value;
      PushedBounded(st.history, p, HistoryCap);
      var st1 := st.(price := Some(p), history := Pushed(st.history, p, HistoryCap));
      if Due(now, st1.lastCheck) {
        var st2 := st1.(lastCheck := now);
        var st3 := st2.(position := ReadPosition(st2.position, env.positions));
        ReadPositionShape(st2.position, env.positions);
        if st3.position.Some? {
          ExitedOneOrder(c, st3, env, fmt);
        } else {
          EnteredOneOrder(c, spec, st3, env, fmt);
        }
      }
    }
  }

  /* ---------------------------------------------------------------------
     The strategy object
     --------------------------------------------------------------------- */

  /** `get_status`. */
  datatype SmartStatus = SmartStatus(symbol: string, currentPrice: Option<real>, position: Option<Position>,
                                     totalTrades: nat, winningTrades: nat, winRate: real,
                                     consecutiveWins: nat, consecutiveLosses: nat, trailingStopActive: bool)

  class SmartProfitStrategy {
    const config: SmartConfig
    const spec: ContractSpec
    var currentPrice: Option<real>
    var currentPosition: Option<Position>
    var priceHistory: seq<real>
    var lastCheckTime: real
    var totalTrades: nat
    var winningTrades: nat
    var consecutiveWins: nat
    var consecutiveLosses: nat
    var tradeHistory: seq<TradeRecord>
    var trailingStopActive: bool
    var highestProfitPrice: Option<real>
    var sent: seq<OkxClient.ApiCall>

    ghost predicate Valid()
      reads this
    {
      ConfigValid(config) && Consistent(State())
    }

    function Stats(): TradeStats
      reads this
    {
      TradeStats(totalTrades, winningTrades, consecutiveWins, consecutiveLosses)
    }

    function State(): StrategyState
      reads this
    {
      StrategyState(currentPrice, currentPosition, priceHistory, lastCheckTime, Stats(), tradeHistory,
                    trailingStopActive, highestProfitPrice, sent)
    }

    constructor (config: SmartConfig, instruments: Option<seq<Instrument>>)
      requires ConfigValid(config)
      ensures Valid() && this.config == config
      ensures spec == LoadSpec(config.symbol, instruments, DefaultSpec)
      ensures State() == Initial
    {
      this.config := config;
      spec := LoadSpec(config.symbol, instruments, DefaultSpec);
      currentPrice := None;
      currentPosition := None;
      priceHistory := [];
      lastCheckTime := 0.0;
      totalTrades, winningTrades, consecutiveWins, consecutiveLosses := 0, 0, 0, 0;
      tradeHistory := [];
      trailingStopActive := false;
      highestProfitPrice := None;
      sent := [];
    }

    method UpdatePosition(answer: PositionsAnswer)
      requires Valid()
      modifies this
      ensures Valid()
      ensures State() == old(State()).(position := ReadPosition(old(currentPosition), answer))
    {
      ReadPositionShape(currentPosition, answer);
      match answer
      case PositionsRaised =>
      case PositionsReply(code, entries) =>
        if code.None? {
          // the lookup of 'code' raises and the handler keeps the position
        } else if code == Some("0") && entries != [] {
          currentPosition := FindOpenPosition(entries);
        } else {
          currentPosition := None;
        }
    }

    method ClosePosition(rate: real, reason: Reason, env: TickEnv, fmt: Format)
      requires Valid()
      modifies this
      ensures Valid()
      ensures State() == Closed(config, old(State()), rate, reason, env, fmt)
    {
      if currentPosition.None? {
        return;
      }
      ghost var st := State();
      TalliedKeepsValid(st.stats, rate);
      var pos := currentPosition.value;
      var call := MarketOrder(config.symbol, CloseSide(pos.side), fmt.ofReal(pos.contracts));
      ghost var refused := st.(sent := st.sent + [call]);
      ghost var accepted := refused.(stats := Tallied(st.stats, rate),
                                     trades := st.trades + [TradeRecord(pos.side, rate, reason)],
                                     position := None, trailingActive := false);
      assert Closed(config, st, rate, reason, env, fmt) == if CodeOk(env.order) then accepted else refused;
      sent := sent + [call];
      if !CodeOk(env.order) {
        assert State() == refused;
        return;
      }
      RecordTrade(pos.side, rate, reason);
      currentPosition := None;
      trailingStopActive := false;
      assert State() == accepted;
    }

    /** The statistics of `_close_position` after an accepted order. */
    method RecordTrade(side: string, rate: real, reason: Reason)
      modifies this`totalTrades, this`winningTrades, this`consecutiveWins, this`consecutiveLosses, this`tradeHistory
      ensures Stats() == Tallied(old(Stats()), rate)
      ensures tradeHistory == old(tradeHistory) + [TradeRecord(side, rate, reason)]
    {
      totalTrades := totalTrades + 1;
      if rate > 0.0 {
        winningTrades := winningTrades + 1;
        consecutiveWins := consecutiveWins + 1;
        consecutiveLosses := 0;
      } else {
        consecutiveWins := 0;
        consecutiveLosses := consecutiveLosses + 1;
      }
      tradeHistory := tradeHistory + [TradeRecord(side, rate, reason)];
    }

    method CheckExitConditions(env: TickEnv, fmt: Format)
      requires Valid()
      modifies this
      ensures Valid()
      ensures State() == Exited(config, old(State()), env, fmt)
    {
      if currentPosition.None? || currentPrice.None? {
        return;
      }
      var pos, p := currentPosition.value, currentPrice.value;
      var vol := Volatility(priceHistory, env.stdev);
      if vol.None? || pos.entryPrice == 0.0 {
        return;
      }
      var stops := AdaptiveStops(config, vol.value);
      var e := pos.entryPrice;
      var rate := if pos.side == "long" then (p - e) / e else (e - p) / e;
      assert ProfitRate(pos, p) == Some(rate);
      if config.useTrailingStop && rate >= config.trailingTrigger {
        ghost var before := State();
        var h := FollowExtreme(pos.side, p);
        ghost var st1 := before.(trailingActive := true, highest := Some(h));
        assert State() == st1;
        if h == 0.0 {
          return;
        }
        var drawdown := if pos.side == "long" then (h - p) / h else (p - h) / h;
        assert drawdown == Drawdown(pos.side, h, p);
        if drawdown >= config.trailingDistance {
          ClosePosition(rate, TrailingStop, env, fmt);
          return;
        }
        assert Exited(config, before, env, fmt) == FixedExit(config, st1, rate, stops, env, fmt);
      }
      FixedExitCheck(rate, stops, env, fmt);
    }

    /** Past the trigger the trailing stop switches on, and its extreme
        follows the price: up for a long, down for a short. */
    method FollowExtreme(side: string, p: real) returns (h: real)
      requires Valid()
      modifies this`trailingStopActive, this`highestProfitPrice
      ensures NextExtreme(old(trailingStopActive), old(highestProfitPrice), side, p) == Some(h)
      ensures trailingStopActive && highestProfitPrice == Some(h)
    {
      if !trailingStopActive {
        trailingStopActive := true;
        highestProfitPrice := Some(p);
      }
      h := highestProfitPrice.value;
      if side == "long" {
        if p > h {
          highestProfitPrice := Some(p);
        }
      } else if p < h {
        highestProfitPrice := Some(p);
      }
      h := highestProfitPrice.value;
    }

    /** The fixed exits: take profit first, then stop loss. */
    method FixedExitCheck(rate: real, stops: (real, real), env: TickEnv, fmt: Format)
      requires Valid()
      modifies this
      ensures Valid()
      ensures State() == FixedExit(config, old(State()), rate, stops, env, fmt)
    {
      if rate >= stops.1 {
        ClosePosition(rate, TakeProfit, env, fmt);
      } else if rate <= -stops.0 {
        ClosePosition(rate, StopLoss, env, fmt);
      }
    }

    method OpenPosition(side: string, env: TickEnv, fmt: Format)
      requires Valid()
      modifies this
      ensures Valid()
      ensures State() == Opened(config, spec, old(State()), side, env, fmt)
    {
      var size := DynamicSize(config, Stats());
      if spec.contractValue == 0.0 || spec.lotSize == 0.0 {
        return;
      }
      var contracts := OrderSize(size / spec.contractValue, spec);
      sent := sent + [MarketOrder(config.symbol, OpenSide(side), fmt.ofReal(contracts))];
      if PlacedOrderId(env.order).Some? {
        trailingStopActive := false;
        highestProfitPrice := None;
        UpdatePosition(env.positionsAfter);
      }
    }

    method CheckEntrySignals(env: TickEnv, fmt: Format)
      requires Valid()
      modifies this
      ensures Valid()
      ensures State() == Entered(config, spec, old(State()), env, fmt)
    {
      ghost var st := State();
      if currentPrice.None? {
        return;
      }
      var p := currentPrice.value;
      ghost var signal := Indicators.Crossover(priceHistory, config.maShortPeriod, config.maLongPeriod, p);
      if |priceHistory| < config.maLongPeriod {
        assert signal.None?;
        return;
      }
      var maShort := Indicators.MovingAverage(priceHistory, config.maShortPeriod);
      var maLong := Indicators.MovingAverage(priceHistory, config.maLongPeriod);
      if maShort.None? || maLong.None? {
        assert signal.None?;
        return;
      }
      var s, l := maShort.value, maLong.value;
      var side := "";
      if s > l && p > s {
        side := "long";
      } else if s < l && p < s {
        side := "short";
      } else {
        assert signal.None?;
        return;
      }
      assert signal == Some(side);
      if p == 0.0 {
        return;
      }
      var rsi := CalculateRsi(priceHistory, config.rsiPeriod);
      ghost var scored := OpenIfStrong(config, spec, st, side, s, l, rsi, p, env, fmt);
      assert Entered(config, spec, st, env, fmt) == scored;
      var strength := SignalStrength(config, side, s, l, rsi, p, env.utcHour);
      if config.useSignalFilter && (strength as real) < config.minSignalStrength {
        assert scored == st;
        return;
      }
      assert scored == Opened(config, spec, st, side, env, fmt);
      OpenPosition(side, env, fmt);
    }

    /** `on_tick`: `lasts` holds the ticker entries' last prices and `now`
        the clock. */
    method OnTick(lasts: seq<Option<real>>, now: real, env: TickEnv, fmt: Format)
      requires Valid()
      modifies this
      ensures Valid()
      ensures State() == Tick(config, spec, old(State()), lasts, now, env, fmt)
    {
      if lasts == [] {
        return;
      }
      var last := lasts[0].GetOr(0.0);
      if last <= 0.0 {
        return;
      }
      ghost var st := State();
      assert TickerPrice(lasts) == Some(last);
      BufferPrice(last);
      if now - lastCheckTime < 30.0 {
        assert Tick(config, spec, st, lasts, now, env, fmt) == State();
        return;
      }
      lastCheckTime := now;
      assert Tick(config, spec, st, lasts, now, env, fmt) == Analysed(config, spec, State(), env, fmt);
      Analyse(env, fmt);
    }

    /** A usable price becomes the current price and joins the buffer of
        the last 100 prices. */
    method BufferPrice(last: real)
      requires Valid()
      modifies this
      ensures Valid()
      ensures State() == old(State()).(price := Some(last), history := Pushed(old(priceHistory), last, HistoryCap))
    {
      PushedBounded(priceHistory, last, HistoryCap);
      currentPrice := Some(last);
      priceHistory := priceHistory + [last];
      if |priceHistory| > HistoryCap {
        priceHistory := priceHistory[1..];
      }
    }

    /** The analysis `on_tick` runs once it is due: the position read
        back, then the exit check or the entry check. */
    method Analyse(env: TickEnv, fmt: Format)
      requires Valid()
      modifies this
      ensures Valid()
      ensures State() == Analysed(config, spec, old(State()), env, fmt)
    {
      ghost var st2 := State();
      UpdatePosition(env.positions);
      ghost var st3 := State();
      if currentPosition.Some? {
        CheckExitConditions(env, fmt);
        assert Analysed(config, spec, st2, env, fmt) == Exited(config, st3, env, fmt);
      } else {
        CheckEntrySignals(env, fmt);
        assert Analysed(config, spec, st2, env, fmt) == Entered(config, spec, st3, env, fmt);
      }
    }

    /** `get_status`. */
    function Status(): (r: SmartStatus)
      requires StatsValid(Stats())
      reads this
      ensures 0.0 <= r.winRate <= 1.0
      ensures r.totalTrades == 0 ==> r.winRate == 0.0
      ensures r.winningTrades <= r.totalTrades
    {
      SmartStatus(config.symbol, currentPrice, currentPosition, totalTrades, winningTrades, WinRate(Stats()),
                  consecutiveWins, consecutiveLosses, trailingStopActive)
    }
  }
}
