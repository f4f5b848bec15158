/** The advanced strategy: Bollinger-band entries on the 15-minute closes,
    confirmed by a 0-100 signal strength built from the trend agreement of
    three timeframes, the RSI, the order-book pressure, the volume and the
    funding rate; positions sized by the strength, the trade record and
    the average true range; and a tiered exit: the stop loss first, then
    three profit levels that each close part of the position once, then a
    trailing exit on the best profit rate seen. */
module AdvancedStrategy {
  import opened Wrappers
  import opened Builtins
  import OkxClient
  import opened Market
  import Indicators

  datatype AdvancedConfig = AdvancedConfig(
    symbol: string, basePositionSize: real, leverage: int,
    useMultiTimeframe: bool, useOrderbook: bool, useFundingRate: bool, useVolumeConfirm: bool,
    baseStopLoss: real)

  const DefaultConfig := AdvancedConfig("PEPE-USDT-SWAP", 5000000.0, 50, true, true, true, true, 0.025)

  const DefaultSpec := ContractSpec(10000000.0, 0.1, 0.1, false)

  /** The 1-minute buffer's capacity. */
  const HistoryCap := 100

  /** A profit level: the profit rate that triggers it and the fraction of
      the position then closed. */
  datatype Level = Level(target: real, ratio: real)

  /** `profit_levels`, fixed in the constructor. */
  const ProfitLevels := [Level(0.03, 0.3), Level(0.05, 0.4), Level(0.08, 0.3)]

  /** The order-book snapshot's level sizes, best level first. */
  datatype Book = Book(bids: seq<real>, asks: seq<real>)

  /** What the outside world supplies to one analysis: the 5- and
      15-minute candles, the order book and funding rate fetched (None
      when the request raised or was refused), the positions read first,
      the answer to the order placed, the positions read again after an
      order, and the standard deviation the statistics library
      computes. */
  datatype TickEnv = TickEnv(
    candles5m: CandlesAnswer, candles15m: CandlesAnswer, book: Option<Book>, funding: Option<real>,
    positions: PositionsAnswer, order: OrderOutcome, positionsAfter: PositionsAnswer,
    stdev: seq<real> -> real)

  datatype StrategyState = StrategyState(
    prices1m: seq<real>, prices5m: seq<real>, prices15m: seq<real>, volumes: seq<real>,
    book: Option<Book>, fundingRate: real, position: Option<Position>, stats: TradeStats,
    targetsHit: seq<nat>, highest: real, lastCheck: real, sent: seq<OkxClient.ApiCall>)

  const Initial := StrategyState([], [], [], [], None, 0.0, None, NoTrades, [], 0.0, 0.0, [])

  /** The levels hit so far are 0, 1, ... in order: each at most once. */
  predicate HitPrefix(hit: seq<nat>)
  {
    |hit| <= |ProfitLevels| && forall j :: 0 <= j < |hit| ==> hit[j] == j
  }

  /** The buffer within its cap, a long or short position, consistent
      statistics, the levels hit a prefix of the levels, and a best profit
      rate of at least zero. */
  predicate Consistent(st: StrategyState)
  {
    |st.prices1m| <= HistoryCap
    && (st.position.Some? ==> st.position.value.side == "long" || st.position.value.side == "short")
    && StatsValid(st.stats)
    && HitPrefix(st.targetsHit)
    && st.highest >= 0.0
  }

  /* ---------------------------------------------------------------------
     Market data
     --------------------------------------------------------------------- */

  /** `_update_multi_timeframe_data`: the closes of each accepted candle
      reply, oldest first, replace the 5- or 15-minute list, and the
      15-minute volumes replace the volume list; a reply without a code
      raises and ends the update, keeping what was already replaced. */
  function FramesUpdated(st: StrategyState, a5: CandlesAnswer, a15: CandlesAnswer): StrategyState
  {
    if CandlesRaise(a5) then st
    else
      var st1 := if CandlesOk(a5) then st.(prices5m := Reversed(Closes(a5.rows))) else st;
      if CandlesRaise(a15) || !CandlesOk(a15) then st1
      else st1.(prices15m := Reversed(Closes(a15.rows)), volumes := Reversed(Volumes(a15.rows)))
  }

  /** An accepted 15-minute reply leaves closes and volumes of equal length,
      oldest first, the newest candle last; nothing else but the 5-minute
      closes changes. */
  lemma FramesOldestFirst(st: StrategyState, a5: CandlesAnswer, a15: CandlesAnswer)
    ensures var r := FramesUpdated(st, a5, a15);
      && r == st.(prices5m := r.prices5m, prices15m := r.prices15m, volumes := r.volumes)
      && (!CandlesRaise(a5) && CandlesOk(a15) ==>
            && |r.prices15m| == |r.volumes| == |a15.rows|
            && r.prices15m[|r.prices15m| - 1] == a15.rows[0].close
            && r.volumes[|r.volumes| - 1] == a15.rows[0].volume
            && forall i :: 0 <= i < |a15.rows| ==> r.prices15m[i] == a15.rows[|a15.rows| - 1 - i].close)
      && (CandlesRaise(a5) ==> r == st)
      && (!CandlesRaise(a5) && !CandlesOk(a5) ==> r.prices5m == st.prices5m)
  {
  }

  /** The fetches of one analysis: the candles, then the order book and
      the funding rate when their options are on. */
  function Refreshed(c: AdvancedConfig, st: StrategyState, env: TickEnv): StrategyState
  {
    var st1 := FramesUpdated(st, env.candles5m, env.candles15m);
    var st2 := if c.useOrderbook && env.book.Some? then st1.(book := env.book) else st1;
    if c.useFundingRate && env.funding.Some? then st2.(fundingRate := env.funding.value) else st2
  }

  /* ---------------------------------------------------------------------
     Indicators
     --------------------------------------------------------------------- */

  /** The bid and ask volume of the ten best levels. */
  function TopVolumes(book: Book): (real, real)
  {
    (Sum(Take(book.bids, 10)), Sum(Take(book.asks, 10)))
  }

  /** `analyze_orderbook_pressure`: the bid share of the ten best levels'
      volume; None without a book or with an empty side, 0 when the volume
      is 0. */
  function Pressure(book: Option<Book>): (r: Option<real>)
    ensures r.None? <==> book.None? || book.value.bids == [] || book.value.asks == []
  {
    if book.None? || book.value.bids == [] || book.value.asks == [] then None
    else
      var (b, a) := TopVolumes(book.value);
      if b + a == 0.0 then Some(0.0) else Some(b / (b + a))
  }

  /** With sizes that are not negative the pressure is a share in [0, 1],
      above one half exactly when the bids outweigh the asks and below it
      exactly when the asks outweigh the bids. */
  lemma PressureShare(book: Book)
    requires book.bids != [] && book.asks != []
    requires forall i :: 0 <= i < |book.bids| ==> book.bids[i] >= 0.0
    requires forall i :: 0 <= i < |book.asks| ==> book.asks[i] >= 0.0
    ensures var r := Pressure(Some(book)).value;
      var (b, a) := TopVolumes(book);
      && 0.0 <= r <= 1.0
      && (b + a > 0.0 ==> (r > 0.5 <==> b > a) && (r < 0.5 <==> b < a))
      && (b + a == 0.0 ==> r == 0.0)
  {
    var (b, a) := TopVolumes(book);
    SumNonNegative(Take(book.bids, 10));
    SumNonNegative(Take(book.asks, 10));
    if b + a > 0.0 {
      Market.QuotientVersusBound(b, b + a, 0.5);
      Market.QuotientVersusBound(b, b + a, 1.0);
      Market.QuotientVersusBound(b, b + a, 0.0);
    }
  }

  /** `calculate_volume_ratio`: the last volume over the mean of the last
      ten; None before ten volumes, 1 when the mean is 0. */
  function VolumeRatio(volumes: seq<real>): (r: Option<real>)
    ensures r.None? <==> |volumes| < 10
  {
    if |volumes| < 10 then None
    else
      var avg := Sum(LastN(volumes, 10)) / 10.0;
      if avg == 0.0 then Some(1.0) else Some(volumes[|volumes| - 1] / avg)
  }

  /** The true ranges max - min of consecutive closes. */
  function TrueRanges(prices: seq<real>): (r: seq<real>)
    ensures |r| == if |prices| <= 1 then 0 else |prices| - 1
  {
    if |prices| <= 1 then []
    else seq(|prices| - 1, i requires 0 <= i < |prices| - 1 => Max(prices[i + 1], prices[i]) - Min(prices[i + 1], prices[i]))
  }

  /** `calculate_atr`: the mean of the last `period` true ranges of the
      15-minute closes; None before period + 1 closes. */
  function Atr(prices: seq<real>, period: int): (r: Option<real>)
    requires period >= 1
    ensures r.Some? <==> |prices| >= period + 1
  {
    if |prices| < period then None
    else
      var tr := TrueRanges(prices);
      if |tr| < period then None else Some(Sum(LastN(tr, period)) / period as real)
  }

  /** Each true range is the size of a move, so the ATR is never negative
      and never more than the largest of the last `period` moves. */
  lemma AtrBounds(prices: seq<real>, period: int, m: real)
    requires period >= 1 && |prices| >= period + 1 && m >= 0.0
    requires forall i :: |prices| - period - 1 <= i < |prices| - 1 ==> Abs(prices[i + 1] - prices[i]) <= m
    ensures 0.0 <= Atr(prices, period).value <= m
  {
    var tr := TrueRanges(prices);
    var w := LastN(tr, period);
    forall i | 0 <= i < |w|
      ensures 0.0 <= w[i] <= m
    {
      var j := |tr| - period + i;
      assert w[i] == tr[j];
      assert tr[j] == Abs(prices[j + 1] - prices[j]);
    }
    MeanBounds(w, 0.0, m);
  }

  /** The loop of `calculate_atr`. */
  method CalculateAtr(prices: seq<real>, period: int) returns (r: Option<real>)
    requires period >= 1
    ensures r == Atr(prices, period)
  {
    if |prices| < period {
      return None;
    }
    var ranges: seq<real> := [];
    var i := 1;
    while i < |prices|
      invariant 1 <= i <= |prices|
      invariant |ranges| == i - 1
      invariant forall j :: 0 <= j < i - 1 ==> ranges[j] == TrueRanges(prices)[j]
    {
      var high := Max(prices[i], prices[i - 1]);
      var low := Min(prices[i], prices[i - 1]);
      ranges := ranges + [high - low];
      i := i + 1;
    }
    assert ranges == TrueRanges(prices);
    if |ranges| < period {
      return None;
    }
    return Some(Sum(ranges[|ranges| - period..]) / period as real);
  }

  /* ---------------------------------------------------------------------
     Signal strength
     --------------------------------------------------------------------- */

  /** The weights of the 1-, 5- and 15-minute timeframes. */
  const TimeframeWeights: seq<real> := [0.2, 0.3, 0.5]

  /** A timeframe of at least 20 closes whose 5-close average is above
      (long) or below (short) its 15-close average. */
  predicate Agrees(prices: seq<real>, side: string)
  {
    |prices| >= 20
    && var s, l := Indicators.MovingAverage(prices, 5).value, Indicators.MovingAverage(prices, 15).value;
       (side == "long" && s > l) || (side == "short" && s < l)
  }

  function FramePoints(prices: seq<real>, side: string, weight: real): real
  {
    if Agrees(prices, side) then 100.0 * weight else 0.0
  }

  /** The weighted points of the timeframes, in order. */
  function WeightedScore(frames: seq<seq<real>>, weights: seq<real>, side: string): real
    requires |frames| == |weights|
    decreases |frames|
  {
    if frames == [] then 0.0
    else
      var n := |frames| - 1;
      WeightedScore(frames[..n], weights[..n], side) + FramePoints(frames[n], side, weights[n])
  }

  function Frames(st: StrategyState): seq<seq<real>>
  {
    [st.prices1m, st.prices5m, st.prices15m]
  }

  /** `calculate_multi_timeframe_score`. */
  function MtfScore(st: StrategyState, side: string): real
  {
    WeightedScore(Frames(st), TimeframeWeights, side)
  }

  /** The score lies in [0, 100] and is 100 exactly when all three
      timeframes agree with the side. */
  lemma MtfScoreRange(st: StrategyState, side: string)
    ensures 0.0 <= MtfScore(st, side) <= 100.0
    ensures MtfScore(st, side) == 100.0 <==>
      Agrees(st.prices1m, side) && Agrees(st.prices5m, side) && Agrees(st.prices15m, side)
  {
    var f, w := Frames(st), TimeframeWeights;
    var f2, w2 := [st.prices1m, st.prices5m], [0.2, 0.3];
    assert f[..2] == f2 && w[..2] == w2;
    assert f2[..1] == [st.prices1m] && w2[..1] == [0.2];
    assert [st.prices1m][..0] == [] && [0.2][..0] == [];
    assert WeightedScore([st.prices1m], [0.2], side) == FramePoints(st.prices1m, side, 0.2);
    assert WeightedScore(f2, w2, side) == FramePoints(st.prices1m, side, 0.2) + FramePoints(st.prices5m, side, 0.3);
    assert MtfScore(st, side)
      == FramePoints(st.prices1m, side, 0.2) + FramePoints(st.prices5m, side, 0.3) + FramePoints(st.prices15m, side, 0.5);
  }

  /** The loop of `calculate_multi_timeframe_score` over the timeframes. */
  method CalculateMtfScore(frames: seq<seq<real>>, weights: seq<real>, side: string) returns (score: real)
    requires |frames| == |weights|
    ensures score == WeightedScore(frames, weights, side)
  {
    score := 0.0;
    var i := 0;
    while i < |frames|
      invariant 0 <= i <= |frames|
      invariant score == WeightedScore(frames[..i], weights[..i], side)
    {
      assert frames[..i + 1][..i] == frames[..i] && weights[..i + 1][..i] == weights[..i];
      var prices := frames[i];
      if |prices| >= 20 {
        var maShort := Indicators.MovingAverage(prices, 5).value;
        var maLong := Indicators.MovingAverage(prices, 15).value;
        if side == "long" && maShort > maLong {
          score := score + 100.0 * weights[i];
        } else if side == "short" && maShort < maLong {
          score := score + 100.0 * weights[i];
        }
      }
      i := i + 1;
    }
    assert frames[..i] == frames && weights[..i] == weights;
  }

  /** The RSI of the 1-minute prices over 14 moves, once 20 are
      buffered. */
  function MinuteRsi(prices1m: seq<real>): Option<real>
  {
    if |prices1m| < 20 then None else Indicators.Rsi(prices1m, 14)
  }

  /** `if rsi:` is false for an RSI of exactly 0, which then scores
      nothing. */
  function RsiPoints(side: string, rsi: Option<real>): (r: real)
    ensures r in {0.0, 15.0, 20.0}
    ensures r > 0.0 ==>
      (rsi.Some? && rsi.value != 0.0 && ((side == "long" && rsi.value < 50.0) || (side == "short" && rsi.value > 50.0)))
  {
    if rsi.None? || rsi.value == 0.0 then 0.0
    else if side == "long" && rsi.value < 40.0 then 20.0
    else if side == "long" && rsi.value < 50.0 then 15.0
    else if side == "short" && rsi.value > 60.0 then 20.0
    else if side == "short" && rsi.value > 50.0 then 15.0
    else 0.0
  }

  function BookPoints(side: string, pressure: Option<real>): (r: real)
    ensures r in {0.0, 10.0, 20.0}
    ensures r > 0.0 ==>
      (pressure.Some? && ((side == "long" && pressure.value > 0.5) || (side == "short" && pressure.value < 0.5)))
  {
    if pressure.None? then 0.0
    else if side == "long" && pressure.value > 0.55 then 20.0
    else if side == "long" && pressure.value > 0.5 then 10.0
    else if side == "short" && pressure.value < 0.45 then 20.0
    else if side == "short" && pressure.value < 0.5 then 10.0
    else 0.0
  }

  function VolumePoints(ratio: Option<real>): (r: real)
    ensures r in {0.0, 5.0, 10.0}
    ensures r > 0.0 <==> ratio.Some? && ratio.value > 1.2
  {
    if ratio.Some? && ratio.value > 1.5 then 10.0
    else if ratio.Some? && ratio.value > 1.2 then 5.0
    else 0.0
  }

  /** `if self.funding_rate:` skips a rate of exactly 0. */
  function FundingPoints(side: string, rate: real): (r: real)
    ensures r in {0.0, 5.0, 10.0}
  {
    if rate == 0.0 then 0.0
    else if side == "long" && rate < 0.0 then 10.0
    else if side == "short" && rate > 0.0 then 10.0
    else if side == "long" && rate < 0.0001 then 5.0
    else if side == "short" && rate > 0.0001 then 5.0
    else 0.0
  }

  /** A short is paid the full 10 points for any positive rate, so its
      5-point case can never apply; a long gets 5 exactly for a positive
      rate below 0.01%. */
  lemma FundingPointsCases(rate: real)
    ensures FundingPoints("short", rate) == (if rate > 0.0 then 10.0 else 0.0)
    ensures FundingPoints("long", rate) == 5.0 <==> 0.0 < rate < 0.0001
    ensures FundingPoints("long", rate) == 10.0 <==> rate < 0.0
  {
  }

  /** The sum of the five components before the cap. */
  function RawStrength(st: StrategyState, side: string): real
  {
    MtfScore(st, side) * 0.4 + RsiPoints(side, MinuteRsi(st.prices1m)) + BookPoints(side, Pressure(st.book))
    + VolumePoints(VolumeRatio(st.volumes)) + FundingPoints(side, st.fundingRate)
  }

  /** `calculate_signal_strength`: min(100, score). */
  function SignalStrength(st: StrategyState, side: string): real
  {
    Min(100.0, RawStrength(st, side))
  }

  /** The strength lies in [0, 100]; the components add up to at most 100
      (40 + 20 + 20 + 10 + 10), so the cap never changes the score. */
  lemma SignalStrengthRange(st: StrategyState, side: string)
    ensures 0.0 <= RawStrength(st, side) <= 100.0
    ensures SignalStrength(st, side) == RawStrength(st, side)
  {
    MtfScoreRange(st, side);
    var m := MtfScore(st, side);
    var a := RsiPoints(side, MinuteRsi(st.prices1m));
    var b := BookPoints(side, Pressure(st.book));
    var v := VolumePoints(VolumeRatio(st.volumes));
    var f := FundingPoints(side, st.fundingRate);
    assert RawStrength(st, side) == m * 0.4 + a + b + v + f;
    assert 0.0 <= m * 0.4 <= 40.0;
  }

  /* ---------------------------------------------------------------------
     Position size
     --------------------------------------------------------------------- */

  function StrengthFactor(strength: real): (r: real)
    ensures 0.6 <= r <= 1.5
  {
    if strength >= 80.0 then 1.5 else if strength >= 70.0 then 1.2 else if strength < 50.0 then 0.6 else 1.0
  }

  /** A stronger signal never gets a smaller factor. */
  lemma StrengthFactorMonotone(s1: real, s2: real)
    requires s1 <= s2
    ensures StrengthFactor(s1) <= StrengthFactor(s2)
  {
  }

  /** The win-rate factor, once five trades are recorded. */
  function RecordFactor(s: TradeStats): (r: real)
    requires StatsValid(s)
    ensures 0.7 <= r <= 1.3
  {
    if s.total >= 5 then
      var wr := WinRate(s);
      if wr >= 0.6 then 1.3 else if wr < 0.4 then 0.7 else 1.0
    else 1.0
  }

  function StreakFactor(s: TradeStats): (r: real)
    ensures 0.6 <= r <= 1.2
  {
    if s.wins >= 3 then 1.2 else if s.losses >= 2 then 0.6 else 1.0
  }

  /** The volatility factor: the ATR as a percentage of the last 15-minute
      close, above 8% shrinking and below 3% growing the size; no ATR or
      an ATR of 0 leaves it alone, and a last close of 0 raises. */
  function VolatilityFactor(prices15m: seq<real>): (r: Option<real>)
    ensures r.None? <==> Atr(prices15m, 14).Some? && Atr(prices15m, 14).value != 0.0
                         && prices15m[|prices15m| - 1] == 0.0
    ensures r.Some? ==> 0.8 <= r.value <= 1.1
  {
    match Atr(prices15m, 14)
    case None => Some(1.0)
    case Some(atr) =>
      if atr == 0.0 then Some(1.0)
      else
        var price := prices15m[|prices15m| - 1];
        if price == 0.0 then None
        else
          var pct := atr / price * 100.0;
          if pct > 8.0 then Some(0.8) else if pct < 3.0 then Some(1.1) else Some(1.0)
  }

  /** The volatility part of `calculate_dynamic_position_size`. */
  method CalculateVolatilityFactor(prices15m: seq<real>) returns (r: Option<real>)
    ensures r == VolatilityFactor(prices15m)
  {
    var atr := CalculateAtr(prices15m, 14);
    if atr.None? || atr.value == 0.0 {
      return Some(1.0);
    }
    var price := prices15m[|prices15m| - 1];
    if price == 0.0 {
      return None;
    }
    var pct := atr.value / price * 100.0;
    if pct > 8.0 {
      r := Some(0.8);
    } else if pct < 3.0 {
      r := Some(1.1);
    } else {
      r := Some(1.0);
    }
  }

  /** The multiplier 1.0 scaled by the four factors in turn, before the
      clamp. */
  function Multiplier(strength: real, record: real, streak: real, volatility: real): real
  {
    1.0 * strength * record * streak * volatility
  }

  /** The base size times the multiplier clamped to 0.3..2. */
  function ScaledSize(base: real, m: real): real
  {
    base * Clamp(0.3, 2.0, m)
  }

  /** The size stays within 0.3 and 2 times the base, and never shrinks
      as the multiplier grows. */
  lemma ScaledSizeBounds(base: real, m1: real, m2: real)
    requires base >= 0.0 && m1 <= m2
    ensures 0.3 * base <= ScaledSize(base, m1) <= 2.0 * base
    ensures ScaledSize(base, m1) <= ScaledSize(base, m2)
  {
    var c1 := Clamp(0.3, 2.0, m1);
    ScaleBetween(base, c1, 0.3, 2.0);
    assert base * c1 <= 2.0 * base;
    assert ScaledSize(base, m1) == base * c1;
    ClampMonotone(0.3, 2.0, m1, m2);
    MulMonotone(base, Clamp(0.3, 2.0, m1), Clamp(0.3, 2.0, m2));
  }

  /** `calculate_dynamic_position_size`. */
  function DynamicSize(c: AdvancedConfig, s: TradeStats, strength: real, prices15m: seq<real>): Option<real>
    requires StatsValid(s)
  {
    match VolatilityFactor(prices15m)
    case None => None
    case Some(v) =>
      Some(ScaledSize(c.basePositionSize, Multiplier(StrengthFactor(strength), RecordFactor(s), StreakFactor(s), v)))
  }

  /** The size stays within 0.3 and 2 times the base, and a stronger
      signal never gives a smaller size. */
  lemma DynamicSizeBounds(c: AdvancedConfig, s: TradeStats, s1: real, s2: real, prices15m: seq<real>)
    requires StatsValid(s) && c.basePositionSize >= 0.0 && s1 <= s2
    requires VolatilityFactor(prices15m).Some?
    ensures var r := DynamicSize(c, s, s1, prices15m).value;
      0.3 * c.basePositionSize <= r <= 2.0 * c.basePositionSize
    ensures DynamicSize(c, s, s1, prices15m).value <= DynamicSize(c, s, s2, prices15m).value
  {
    StrengthFactorMonotone(s1, s2);
    MultiplierMonotone(StrengthFactor(s1), StrengthFactor(s2), RecordFactor(s), StreakFactor(s),
                       VolatilityFactor(prices15m).value);
    ScaledSizeBounds(c.basePositionSize,
                     Multiplier(StrengthFactor(s1), RecordFactor(s), StreakFactor(s), VolatilityFactor(prices15m).value),
                     Multiplier(StrengthFactor(s2), RecordFactor(s), StreakFactor(s), VolatilityFactor(prices15m).value));
  }

  lemma MultiplierMonotone(a1: real, a2: real, b: real, d: real, v: real)
    requires a1 <= a2 && b >= 0.0 && d >= 0.0 && v >= 0.0
    ensures Multiplier(a1, b, d, v) <= Multiplier(a2, b, d, v)
  {
    MulMonotone(b, a1, a2);
    assert a1 * b <= a2 * b;
    MulMonotone(d, a1 * b, a2 * b);
    assert a1 * b * d <= a2 * b * d;
    MulMonotone(v, a1 * b * d, a2 * b * d);
  }

  /* ---------------------------------------------------------------------
     Closing
     --------------------------------------------------------------------- */

  /** The quantity closed: the fraction of the held contracts rounded to
      the size step, or all of them when that falls below the minimum; a
      zero size step raises. */
  function CloseQuantity(total: real, ratio: real, spec: ContractSpec): (r: Option<real>)
    ensures r.Some? <==> spec.lotSize != 0.0
    ensures r.Some? ==> r.value >= spec.minSize || r.value == total
  {
    if spec.lotSize == 0.0 then None
    else
      var rounded := LotRounded(total * ratio, spec.lotSize);
      Some(if rounded < spec.minSize then total else rounded)
  }

  /** `_close_position`: a market order for the quantity; when the reply's
      code is '0' and at least 99% was to be closed, the trade is tallied
      and the position, the levels hit and the best rate are reset. */
  function Closed(c: AdvancedConfig, spec: ContractSpec, st: StrategyState, ratio: real, rate: real,
                  env: TickEnv, fmt: Format): StrategyState
  {
    match st.position
    case None => st
    case Some(pos) =>
      match CloseQuantity(pos.contracts, ratio, spec)
      case None => st
      case Some(q) =>
        var st1 := st.(sent := st.sent + [MarketOrder(c.symbol, CloseSide(pos.side), fmt.ofReal(q))]);
        if CodeOk(env.order) && ratio >= 0.99 then
          st1.(stats := Tallied(st.stats, rate), position := None, targetsHit := [], highest := 0.0)
        else st1
  }

  /** A close sends one order at most; the statistics change, by one
      tallied trade, exactly when the order was accepted and at least 99%
      was to be closed, and only then is the position cleared. */
  lemma ClosedTalliesFullOnly(c: AdvancedConfig, spec: ContractSpec, st: StrategyState, ratio: real, rate: real,
                              env: TickEnv, fmt: Format)
    requires Consistent(st)
    ensures var r := Closed(c, spec, st, ratio, rate, env, fmt);
      && Consistent(r) && AtMostOneMarketOrder(c.symbol, st.sent, r.sent) && r.prices1m == st.prices1m
      && (var full := st.position.Some? && spec.lotSize != 0.0 && CodeOk(env.order) && ratio >= 0.99;
          && (full ==> r.stats == Tallied(st.stats, rate) && r.position.None? && r.targetsHit == [])
          && (!full ==> r == st.(sent := r.sent)))
  {
    TalliedKeepsValid(st.stats, rate);
    NothingAppended(c.symbol, st.sent);
    if st.position.Some? && spec.lotSize != 0.0 {
      var pos := st.position.value;
      AppendedMarketOrder(st.sent, c.symbol, CloseSide(pos.side),
                          fmt.ofReal(CloseQuantity(pos.contracts, ratio, spec).value));
    }
  }

  /** Every profit level closes less than 99%, so a level exit never
      tallies the trade or clears the position itself. */
  lemma LevelCloseIsPartial(c: AdvancedConfig, spec: ContractSpec, st: StrategyState, i: nat, rate: real,
                            env: TickEnv, fmt: Format)
    requires i < |ProfitLevels|
    ensures ProfitLevels[i].ratio < 0.99
    ensures var r := Closed(c, spec, st, ProfitLevels[i].ratio, rate, env, fmt);
      r.stats == st.stats && r.position == st.position && r.targetsHit == st.targetsHit
  {
  }

  /* ---------------------------------------------------------------------
     The exit check
     --------------------------------------------------------------------- */

  /** The first level from i on that is not yet hit and whose target the
      rate reaches. */
  function FirstLevel(hit: seq<nat>, rate: real, i: nat): (r: Option<nat>)
    decreases |ProfitLevels| - i
    ensures r.Some? ==> i <= r.value < |ProfitLevels| && r.value !in hit && rate >= ProfitLevels[r.value].target
  {
    if i >= |ProfitLevels| then None
    else if i in hit then FirstLevel(hit, rate, i + 1)
    else if rate >= ProfitLevels[i].target then Some(i)
    else FirstLevel(hit, rate, i + 1)
  }

  /** With the levels hit a prefix, the level that fires is the next one,
      when the rate reaches its target: the levels fire in order. */
  lemma {:induction false} NextLevel(hit: seq<nat>, rate: real, i: nat)
    requires HitPrefix(hit) && i <= |hit|
    ensures FirstLevel(hit, rate, i)
         == if |hit| < |ProfitLevels| && rate >= ProfitLevels[|hit|].target then Some(|hit|) else None
    decreases |hit| - i
  {
    if i < |hit| {
      assert hit[i] == i;
      NextLevel(hit, rate, i + 1);
    } else if i < |ProfitLevels| && rate < ProfitLevels[i].target {
      NoLevelAbove(hit, rate, i + 1);
    }
  }

  lemma {:induction false} NoLevelAbove(hit: seq<nat>, rate: real, i: nat)
    requires HitPrefix(hit) && 1 <= i && |hit| < i
    requires i <= |ProfitLevels| ==> rate < ProfitLevels[i - 1].target
    ensures FirstLevel(hit, rate, i) == None
    decreases |ProfitLevels| - i
  {
    if i < |ProfitLevels| {
      assert i !in hit;
      NoLevelAbove(hit, rate, i + 1);
    }
  }

  /** A level's close: the level is recorded as hit before the order, and
      after a partial close the position is read again. */
  function LevelClosed(c: AdvancedConfig, spec: ContractSpec, st: StrategyState, i: nat, rate: real,
                       env: TickEnv, fmt: Format): StrategyState
    requires i < |ProfitLevels|
  {
    var st2 := Closed(c, spec, st.(targetsHit := st.targetsHit + [i]), ProfitLevels[i].ratio, rate, env, fmt);
    if ProfitLevels[i].ratio < 1.0 then st2.(position := ReadPosition(st2.position, env.positionsAfter)) else st2
  }

  /** `_check_exit_conditions` at the last 1-minute price: the best rate
      follows the rate; the stop loss closes everything; otherwise the
      first level not yet hit whose target is reached closes its fraction;
      otherwise a drawdown of 2 points from a best rate above 3% closes
      everything.  A missing or zero price does nothing, and a zero entry
      price raises and ends the check. */
  function Exited(c: AdvancedConfig, spec: ContractSpec, st: StrategyState, env: TickEnv, fmt: Format): StrategyState
  {
    if st.position.None? || st.prices1m == [] then st
    else
      var pos, p := st.position.value, st.prices1m[|st.prices1m| - 1];
      if p == 0.0 then st
      else
        match ProfitRate(pos, p)
        case None => st
        case Some(rate) => ExitRules(c, spec, st.(highest := Max(st.highest, rate)), rate, env, fmt)
  }

  /** The exit rules at a profit rate, once the best rate is updated. */
  function ExitRules(c: AdvancedConfig, spec: ContractSpec, st: StrategyState, rate: real, env: TickEnv,
                     fmt: Format): StrategyState
  {
    if rate <= -c.baseStopLoss then Closed(c, spec, st, 1.0, rate, env, fmt)
    else
      match FirstLevel(st.targetsHit, rate, 0)
      case Some(i) => LevelClosed(c, spec, st, i, rate, env, fmt)
      case None =>
        if st.highest > 0.03 && st.highest - rate >= 0.02 then Closed(c, spec, st, 1.0, rate, env, fmt)
        else st
  }

  /** The order of the exit rules: the stop loss first, for the whole
      position; then the next level in order; then the trailing exit. */
  lemma ExitedTiers(c: AdvancedConfig, spec: ContractSpec, st: StrategyState, env: TickEnv, fmt: Format)
    requires Consistent(st) && st.position.Some? && st.prices1m != []
    requires st.prices1m[|st.prices1m| - 1] != 0.0 && st.position.value.entryPrice != 0.0
    ensures var rate := ProfitRate(st.position.value, st.prices1m[|st.prices1m| - 1]).value;
      var st1 := st.(highest := Max(st.highest, rate));
      var k := |st.targetsHit|;
      var r := Exited(c, spec, st, env, fmt);
      && (rate <= -c.baseStopLoss ==> r == Closed(c, spec, st1, 1.0, rate, env, fmt))
      && (rate > -c.baseStopLoss && k < |ProfitLevels| && rate >= ProfitLevels[k].target ==>
            r == LevelClosed(c, spec, st1, k, rate, env, fmt))
      && (rate > -c.baseStopLoss && !(k < |ProfitLevels| && rate >= ProfitLevels[k].target) ==>
            r == if st1.highest > 0.03 && st1.highest - rate >= 0.02 then Closed(c, spec, st1, 1.0, rate, env, fmt)
                 else st1)
  {
    var rate := ProfitRate(st.position.value, st.prices1m[|st.prices1m| - 1]).value;
    NextLevel(st.targetsHit, rate, 0);
  }

  /** What an exit check can do: at most one order, and the statistics
      unchanged or one trade tallied. */
  predicate ExitStep(c: AdvancedConfig, st: StrategyState, r: StrategyState)
  {
    Consistent(r) && AtMostOneMarketOrder(c.symbol, st.sent, r.sent) && r.prices1m == st.prices1m
    && (r.stats == st.stats || r.stats.total == st.stats.total + 1)
  }

  lemma LevelClosedOneOrder(c: AdvancedConfig, spec: ContractSpec, st: StrategyState, rate: real,
                            env: TickEnv, fmt: Format)
    requires Consistent(st) && |st.targetsHit| < |ProfitLevels|
    ensures var r := LevelClosed(c, spec, st, |st.targetsHit|, rate, env, fmt);
      ExitStep(c, st, r) && r.stats == st.stats && r.targetsHit == st.targetsHit + [|st.targetsHit|]
  {
    var k := |st.targetsHit|;
    var st1 := st.(targetsHit := st.targetsHit + [k]);
    assert Consistent(st1);
    ClosedTalliesFullOnly(c, spec, st1, ProfitLevels[k].ratio, rate, env, fmt);
    var st2 := Closed(c, spec, st1, ProfitLevels[k].ratio, rate, env, fmt);
    ReadPositionShape(st2.position, env.positionsAfter);
  }

  lemma ExitedOneOrder(c: AdvancedConfig, spec: ContractSpec, st: StrategyState, env: TickEnv, fmt: Format)
    requires Consistent(st)
    ensures ExitStep(c, st, Exited(c, spec, st, env, fmt))
  {
    NothingAppended(c.symbol, st.sent);
    if st.position.None? || st.prices1m == [] {
      return;
    }
    var pos, p := st.position.value, st.prices1m[|st.prices1m| - 1];
    if p == 0.0 || pos.entryPrice == 0.0 {
      return;
    }
    var rate := ProfitRate(pos, p).value;
    var st1 := st.(highest := Max(st.highest, rate));
    assert Consistent(st1);
    NextLevel(st.targetsHit, rate, 0);
    TalliedKeepsValid(st.stats, rate);
    if rate <= -c.baseStopLoss {
      ClosedTalliesFullOnly(c, spec, st1, 1.0, rate, env, fmt);
      assert Exited(c, spec, st, env, fmt) == Closed(c, spec, st1, 1.0, rate, env, fmt);
    } else if FirstLevel(st1.targetsHit, rate, 0).Some? {
      LevelClosedOneOrder(c, spec, st1, rate, env, fmt);
      assert Exited(c, spec, st, env, fmt) == LevelClosed(c, spec, st1, |st.targetsHit|, rate, env, fmt);
    } else if st1.highest > 0.03 && st1.highest - rate >= 0.02 {
      ClosedTalliesFullOnly(c, spec, st1, 1.0, rate, env, fmt);
      assert Exited(c, spec, st, env, fmt) == Closed(c, spec, st1, 1.0, rate, env, fmt);
    } else {
      assert Exited(c, spec, st, env, fmt) == st1;
    }
  }

  /** Across an exit check each level fires at most once and at most one
      fires: the levels hit stay as they were, gain the next level (whose
      target the rate reached), or are cleared by a full close; and the
      best rate never falls except when a full close resets it. */
  lemma ExitedLevelsOnce(c: AdvancedConfig, spec: ContractSpec, st: StrategyState, env: TickEnv, fmt: Format)
    requires Consistent(st)
    ensures var r := Exited(c, spec, st, env, fmt);
      var k := |st.targetsHit|;
      && (|| r.targetsHit == st.targetsHit
          || (k < |ProfitLevels| && r.targetsHit == st.targetsHit + [k] && k !in st.targetsHit
              && ProfitRate(st.position.value, st.prices1m[|st.prices1m| - 1]).value >= ProfitLevels[k].target)
          || (r.targetsHit == [] && r.position.None? && r.stats.total == st.stats.total + 1))
      && (r.highest >= st.highest || (r.highest == 0.0 && r.position.None? && r.stats.total == st.stats.total + 1))
  {
    if st.position.None? || st.prices1m == [] {
      return;
    }
    var pos, p := st.position.value, st.prices1m[|st.prices1m| - 1];
    if p == 0.0 || pos.entryPrice == 0.0 {
      return;
    }
    var rate := ProfitRate(pos, p).value;
    var st1 := st.(highest := Max(st.highest, rate));
    assert Consistent(st1);
    NextLevel(st.targetsHit, rate, 0);
    if rate <= -c.baseStopLoss {
      ClosedTalliesFullOnly(c, spec, st1, 1.0, rate, env, fmt);
      assert Exited(c, spec, st, env, fmt) == Closed(c, spec, st1, 1.0, rate, env, fmt);
    } else if FirstLevel(st1.targetsHit, rate, 0).Some? {
      var k := |st.targetsHit|;
      assert forall j :: 0 <= j < k ==> st.targetsHit[j] != k;
      LevelClosedOneOrder(c, spec, st1, rate, env, fmt);
      LevelCloseIsPartial(c, spec, st1.(targetsHit := st1.targetsHit + [k]), k, rate, env, fmt);
      assert Exited(c, spec, st, env, fmt) == LevelClosed(c, spec, st1, k, rate, env, fmt);
    } else if st1.highest > 0.03 && st1.highest - rate >= 0.02 {
      ClosedTalliesFullOnly(c, spec, st1, 1.0, rate, env, fmt);
      assert Exited(c, spec, st, env, fmt) == Closed(c, spec, st1, 1.0, rate, env, fmt);
    } else {
      assert Exited(c, spec, st, env, fmt) == st1;
    }
  }

  /* ---------------------------------------------------------------------
     Opening and the entry check
     --------------------------------------------------------------------- */

  /** `_open_position`: the dynamic size in contracts, a market order, and
      when the reply's code is '0' the levels and best rate reset and the
      position read again.  A raising size calculation places nothing. */
  function Opened(c: AdvancedConfig, spec: ContractSpec, st: StrategyState, side: string, strength: real,
                  env: TickEnv, fmt: Format): StrategyState
    requires StatsValid(st.stats)
  {
    match DynamicSize(c, st.stats, strength, st.prices15m)
    case None => st
    case Some(size) =>
      match OpenContracts(size, spec)
      case None => st
      case Some(n) =>
        var st1 := st.(sent := st.sent + [MarketOrder(c.symbol, OpenSide(side), fmt.ofReal(n))]);
        if CodeOk(env.order) then
          st1.(targetsHit := [], highest := 0.0, position := ReadPosition(st.position, env.positionsAfter))
        else st1
  }

  /** The bands of the last 20 15-minute closes. */
  function EntryBands(st: StrategyState, env: TickEnv): Indicators.Bands
    requires |st.prices15m| >= 20
  {
    Indicators.BollingerBands(st.prices15m, 20, env.stdev(LastN(st.prices15m, 20))).value
  }

  /** A long entry: the last close within 1% above the lower band and a
      strength of at least 60 for a long. */
  predicate LongEntry(st: StrategyState, env: TickEnv)
  {
    |st.prices15m| >= 20
    && st.prices15m[|st.prices15m| - 1] <= EntryBands(st, env).lower * 1.01
    && SignalStrength(st, "long") >= 60.0
  }

  predicate ShortEntry(st: StrategyState, env: TickEnv)
  {
    |st.prices15m| >= 20
    && st.prices15m[|st.prices15m| - 1] >= EntryBands(st, env).upper * 0.99
    && SignalStrength(st, "short") >= 60.0
  }

  /** `_check_entry_signals`: nothing before 20 15-minute closes; a long
      near the lower band with enough strength; otherwise a short near the
      upper band with enough strength. */
  function Entered(c: AdvancedConfig, spec: ContractSpec, st: StrategyState, env: TickEnv, fmt: Format): StrategyState
    requires StatsValid(st.stats)
  {
    if |st.prices15m| < 20 then st
    else
      var p := st.prices15m[|st.prices15m| - 1];
      var bands := EntryBands(st, env);
      if p <= bands.lower * 1.01 && SignalStrength(st, "long") >= 60.0 then
        Opened(c, spec, st, "long", SignalStrength(st, "long"), env, fmt)
      else if p >= bands.upper * 0.99 && SignalStrength(st, "short") >= 60.0 then
        Opened(c, spec, st, "short", SignalStrength(st, "short"), env, fmt)
      else st
  }

  /** An order is sent only on an entry condition: a buy on a long entry,
      a sell on a short entry that is not also a long entry (the long is
      checked first). */
  lemma EnteredOnBands(c: AdvancedConfig, spec: ContractSpec, st: StrategyState, env: TickEnv, fmt: Format)
    requires StatsValid(st.stats)
    ensures var r := Entered(c, spec, st, env, fmt);
      r.sent != st.sent ==>
        && |r.sent| == |st.sent| + 1
        && (LongEntry(st, env) ==> OkxClient.Lookup(r.sent[|st.sent|].data, "side") == Some("buy"))
        && (!LongEntry(st, env) ==>
              ShortEntry(st, env) && OkxClient.Lookup(r.sent[|st.sent|].data, "side") == Some("sell"))
  {
    var r := Entered(c, spec, st, env, fmt);
    if |st.prices15m| < 20 {
      assert r == st;
    } else if LongEntry(st, env) {
      assert r == Opened(c, spec, st, "long", SignalStrength(st, "long"), env, fmt);
      OpenedOrder(c, spec, st, "long", SignalStrength(st, "long"), env, fmt);
    } else if ShortEntry(st, env) {
      assert r == Opened(c, spec, st, "short", SignalStrength(st, "short"), env, fmt);
      OpenedOrder(c, spec, st, "short", SignalStrength(st, "short"), env, fmt);
    } else {
      assert r == st;
    }
  }

  /** An open sends nothing or one market order on the side's order
      side. */
  lemma OpenedOrder(c: AdvancedConfig, spec: ContractSpec, st: StrategyState, side: string, strength: real,
                    env: TickEnv, fmt: Format)
    requires StatsValid(st.stats)
    ensures var r := Opened(c, spec, st, side, strength, env, fmt);
      r.sent == st.sent
      || (|r.sent| == |st.sent| + 1 && OkxClient.Lookup(r.sent[|st.sent|].data, "side") == Some(OpenSide(side)))
  {
    var r := Opened(c, spec, st, side, strength, env, fmt);
    if r.sent != st.sent {
      var size := DynamicSize(c, st.stats, strength, st.prices15m).value;
      var n := OpenContracts(size, spec).value;
      MarketOrderFields(c.symbol, OpenSide(side), fmt.ofReal(n));
      assert r.sent == st.sent + [MarketOrder(c.symbol, OpenSide(side), fmt.ofReal(n))];
    }
  }

  lemma OpenedOneOrder(c: AdvancedConfig, spec: ContractSpec, st: StrategyState, side: string, strength: real,
                       env: TickEnv, fmt: Format)
    requires Consistent(st)
    ensures var r := Opened(c, spec, st, side, strength, env, fmt);
      Consistent(r) && AtMostOneMarketOrder(c.symbol, st.sent, r.sent) && r.stats == st.stats
      && r.prices1m == st.prices1m
  {
    ReadPositionShape(st.position, env.positionsAfter);
    var r := Opened(c, spec, st, side, strength, env, fmt);
    if r.sent != st.sent {
      var size := DynamicSize(c, st.stats, strength, st.prices15m).value;
      AppendedMarketOrder(st.sent, c.symbol, OpenSide(side), fmt.ofReal(OpenContracts(size, spec).value));
    } else {
      NothingAppended(c.symbol, st.sent);
    }
  }

  lemma EnteredOneOrder(c: AdvancedConfig, spec: ContractSpec, st: StrategyState, env: TickEnv, fmt: Format)
    requires Consistent(st)
    ensures var r := Entered(c, spec, st, env, fmt);
      Consistent(r) && AtMostOneMarketOrder(c.symbol, st.sent, r.sent) && r.stats == st.stats
      && r.prices1m == st.prices1m
  {
    NothingAppended(c.symbol, st.sent);
    var r := Entered(c, spec, st, env, fmt);
    if |st.prices15m| < 20 {
      assert r == st;
    } else if LongEntry(st, env) {
      assert r == Opened(c, spec, st, "long", SignalStrength(st, "long"), env, fmt);
      OpenedOneOrder(c, spec, st, "long", SignalStrength(st, "long"), env, fmt);
    } else if ShortEntry(st, env) {
      assert r == Opened(c, spec, st, "short", SignalStrength(st, "short"), env, fmt);
      OpenedOneOrder(c, spec, st, "short", SignalStrength(st, "short"), env, fmt);
    } else {
      assert r == st;
    }
  }

  /* ---------------------------------------------------------------------
     The tick
     --------------------------------------------------------------------- */

  function Analysed(c: AdvancedConfig, spec: ContractSpec, st: StrategyState, env: TickEnv, fmt: Format): StrategyState
    requires StatsValid(st.stats)
  {
    var st1 := Refreshed(c, st, env);
    var st2 := st1.(position := ReadPosition(st1.position, env.positions));
    if st2.position.Some? then Exited(c, spec, st2, env, fmt) else Entered(c, spec, st2, env, fmt)
  }

  /** `on_tick`: a positive last price joins the 1-minute buffer (cap
      100); at most every 30 seconds the market data and the position are
      fetched, then the exit or the entry check runs. */
  function Tick(c: AdvancedConfig, spec: ContractSpec, st: StrategyState, lasts: seq<Option<real>>, now: real,
                env: TickEnv, fmt: Format): StrategyState
    requires StatsValid(st.stats)
  {
    match TickerPrice(lasts)
    case None => st
    case Some(p) =>
      var st1 := st.(prices1m := Pushed(st.prices1m, p, HistoryCap));
      if !Due(now, st1.lastCheck) then st1
      else Analysed(c, spec, st1.(lastCheck := now), env, fmt)
  }

  /** A tick keeps the state consistent, sends at most one market order on
      the symbol, and changes the statistics only by tallying one closed
      trade. */
  lemma TickAtMostOneOrder(c: AdvancedConfig, spec: ContractSpec, st: StrategyState, lasts: seq<Option<real>>,
                           now: real, env: TickEnv, fmt: Format)
    requires Consistent(st)
    ensures var r := Tick(c, spec, st, lasts, now, env, fmt);
      && Consistent(r) && AtMostOneMarketOrder(c.symbol, st.sent, r.sent)
      && (r.stats == st.stats || r.stats.total == st.stats.total + 1)
  {
    NothingAppended(c.symbol, st.sent);
    match TickerPrice(lasts)
    case None =>
    case Some(p) =>
      PushedBounded(st.prices1m, p, HistoryCap);
      var st1 := st.(prices1m := Pushed(st.prices1m, p, HistoryCap));
      if Due(now, st1.lastCheck) {
        var st2 := Refreshed(c, st1.(lastCheck := now), env);
        FramesOldestFirst(st1.(lastCheck := now), env.candles5m, env.candles15m);
        var st3 := st2.(position := ReadPosition(st2.position, env.positions));
        ReadPositionShape(st2.position, env.positions);
        assert Consistent(st3);
        if st3.position.Some? {
          ExitedOneOrder(c, spec, st3, env, fmt);
          assert Tick(c, spec, st, lasts, now, env, fmt) == Exited(c, spec, st3, env, fmt);
        } else {
          EnteredOneOrder(c, spec, st3, env, fmt);
          assert Tick(c, spec, st, lasts, now, env, fmt) == Entered(c, spec, st3, env, fmt);
        }
      } else {
        assert Tick(c, spec, st, lasts, now, env, fmt) == st1;
      }
  }

  /** The 1-minute buffer keeps the newest 100 prices; a missing or
      non-positive price changes nothing; within 30 seconds of the last
      analysis no order is sent. */
  lemma TickBuffersPrice(c: AdvancedConfig, spec: ContractSpec, st: StrategyState, lasts: seq<Option<real>>,
                         now: real, env: TickEnv, fmt: Format)
    requires Consistent(st)
    ensures TickerPrice(lasts).None? ==> Tick(c, spec, st, lasts, now, env, fmt) == st
    ensures TickerPrice(lasts).Some? && now - st.lastCheck < 30.0 ==>
      Tick(c, spec, st, lasts, now, env, fmt).sent == st.sent
    ensures TickerPrice(lasts).Some? ==>
      var n := if |st.prices1m| < HistoryCap then |st.prices1m| + 1 else HistoryCap;
      Tick(c, spec, st, lasts, now, env, fmt).prices1m == LastN(st.prices1m + [lasts[0].value], n)
  {
    if TickerPrice(lasts).Some? {
      var p := lasts[0].value;
      PushedBounded(st.prices1m, p, HistoryCap);
      var st1 := st.(prices1m := Pushed(st.prices1m, p, HistoryCap));
      if Due(now, st1.lastCheck) {
        var st2 := Refreshed(c, st1.(lastCheck := now), env);
        FramesOldestFirst(st1.(lastCheck := now), env.candles5m, env.candles15m);
        var st3 := st2.(position := ReadPosition(st2.position, env.positions));
        ReadPositionShape(st2.position, env.positions);
        assert Consistent(st3);
        if st3.position.Some? {
          ExitedOneOrder(c, spec, st3, env, fmt);
        } else {
          EnteredOneOrder(c, spec, st3, env, fmt);
        }
      }
    }
  }

  /* ---------------------------------------------------------------------
     The strategy object
     --------------------------------------------------------------------- */

  /** `get_status`. */
  datatype AdvancedStatus = AdvancedStatus(symbol: string, position: Option<Position>, totalTrades: nat,
                                           winRate: real, fundingRate: real)

  class AdvancedStrategy {
    const config: AdvancedConfig
    const spec: ContractSpec
    var prices1m: seq<real>
    var prices5m: seq<real>
    var prices15m: seq<real>
    var volumeData: seq<real>
    var orderbookData: Option<Book>
    var fundingRate: real
    var currentPosition: Option<Position>
    var totalTrades: nat
    var winningTrades: nat
    var consecutiveWins: nat
    var consecutiveLosses: nat
    var profitTargetsHit: seq<nat>
    var highestProfitRate: real
    var lastCheckTime: real
    var sent: seq<OkxClient.ApiCall>

    ghost predicate Valid()
      reads this
    {
      Consistent(State())
    }

    function Stats(): TradeStats
      reads this
    {
      TradeStats(totalTrades, winningTrades, consecutiveWins, consecutiveLosses)
    }

    function State(): StrategyState
      reads this
    {
      StrategyState(prices1m, prices5m, prices15m, volumeData, orderbookData, fundingRate, currentPosition,
                    Stats(), profitTargetsHit, highestProfitRate, lastCheckTime, sent)
    }

    constructor (config: AdvancedConfig, instruments: Option<seq<Instrument>>)
      ensures Valid() && this.config == config
      ensures spec == LoadSpec(config.symbol, instruments, DefaultSpec)
      ensures State() == Initial
    {
      this.config := config;
      spec := LoadSpec(config.symbol, instruments, DefaultSpec);
      prices1m, prices5m, prices15m, volumeData := [], [], [], [];
      orderbookData := None;
      fundingRate := 0.0;
      currentPosition := None;
      totalTrades, winningTrades, consecutiveWins, consecutiveLosses := 0, 0, 0, 0;
      profitTargetsHit := [];
      highestProfitRate := 0.0;
      lastCheckTime := 0.0;
      sent := [];
    }

    method UpdateMultiTimeframeData(a5: CandlesAnswer, a15: CandlesAnswer)
      requires Valid()
      modifies this
      ensures Valid()
      ensures State() == FramesUpdated(old(State()), a5, a15)
    {
      if CandlesRaise(a5) {
        return;
      }
      if CandlesOk(a5) {
        prices5m := Reversed(Closes(a5.rows));
      }
      if CandlesRaise(a15) || !CandlesOk(a15) {
        return;
      }
      prices15m := Reversed(Closes(a15.rows));
      volumeData := Reversed(Volumes(a15.rows));
    }

    method UpdateOrderbookData(book: Option<Book>)
      requires Valid()
      modifies this
      ensures Valid()
      ensures State() == old(State()).(book := if book.Some? then book else old(orderbookData))
    {
      if book.Some? {
        orderbookData := book;
      }
    }

    method UpdateFundingRate(rate: Option<real>)
      requires Valid()
      modifies this
      ensures Valid()
      ensures State() == old(State()).(fundingRate := if rate.Some? then rate.value else old(fundingRate))
    {
      if rate.Some? {
        fundingRate := rate.value;
      }
    }

    method UpdatePosition(answer: PositionsAnswer)
      requires Valid()
      modifies this
      ensures Valid()
      ensures State() == old(State()).(position := ReadPosition(old(currentPosition), answer))
    {
      ReadPositionShape(currentPosition, answer);
      match answer
      case PositionsRaised =>
      case PositionsReply(code, entries) =>
        if code.None? {
          // the lookup of 'code' raises and the handler keeps the position
        } else if code == Some("0") && entries != [] {
          currentPosition := FindOpenPosition(entries);
        } else {
          currentPosition := None;
        }
    }

    /** `calculate_signal_strength`. */
    method CalculateSignalStrength(side: string) returns (r: real)
      ensures r == SignalStrength(State(), side)
    {
      var mtf := CalculateMtfScore([prices1m, prices5m, prices15m], TimeframeWeights, side);
      var score := mtf * 0.4;
      var rsi: Option<real> := None;
      if |prices1m| >= 20 {
        rsi := Indicators.CalculateRsi(prices1m, 14);
      }
      score := score + RsiPoints(side, rsi);
      score := score + BookPoints(side, Pressure(orderbookData));
      score := score + VolumePoints(VolumeRatio(volumeData));
      score := score + FundingPoints(side, fundingRate);
      r := Min(100.0, score);
    }

    /** `calculate_dynamic_position_size`; None when it raises. */
    method CalculateDynamicPositionSize(strength: real) returns (r: Option<real>)
      requires StatsValid(Stats())
      ensures r == DynamicSize(config, Stats(), strength, prices15m)
    {
      var v := CalculateVolatilityFactor(prices15m);
      if v.None? {
        return None;
      }
      var m := Multiplier(StrengthFactor(strength), RecordFactor(Stats()), StreakFactor(Stats()), v.value);
      r := Some(ScaledSize(config.basePositionSize, m));
    }

    method ClosePosition(ratio: real, rate: real, env: TickEnv, fmt: Format)
      requires Valid()
      modifies this
      ensures Valid()
      ensures State() == Closed(config, spec, old(State()), ratio, rate, env, fmt)
    {
      if currentPosition.None? {
        return;
      }
      if spec.lotSize == 0.0 {
        assert CloseQuantity(currentPosition.value.contracts, ratio, spec).None?;
        return;
      }
      ghost var st := State();
      TalliedKeepsValid(st.stats, rate);
      var pos := currentPosition.value;
      var quantity := CloseQuantity(pos.contracts, ratio, spec).value;
      var call := MarketOrder(config.symbol, CloseSide(pos.side), fmt.ofReal(quantity));
      sent := sent + [call];
      if !CodeOk(env.order) || ratio < 0.99 {
        assert State() == st.(sent := st.sent + [call]);
        return;
      }
      RecordFullClose(rate);
      assert State() == st.(sent := st.sent + [call], stats := Tallied(st.stats, rate), position := None,
                            targetsHit := [], highest := 0.0);
    }

    /** The end of `_close_position` after an accepted full close: the
        trade is tallied and the position, the levels hit and the best
        rate are reset. */
    method RecordFullClose(rate: real)
      requires StatsValid(Stats())
      modifies this
      ensures State() == old(State()).(stats := Tallied(old(Stats()), rate), position := None, targetsHit := [],
                                       highest := 0.0)
    {
      RecordTrade(rate);
      currentPosition := None;
      profitTargetsHit := [];
      highestProfitRate := 0.0;
    }

    /** The statistics of `_close_position` after an accepted full close. */
    method RecordTrade(rate: real)
      modifies this`totalTrades, this`winningTrades, this`consecutiveWins, this`consecutiveLosses
      ensures Stats() == Tallied(old(Stats()), rate)
    {
      totalTrades := totalTrades + 1;
      if rate > 0.0 {
        winningTrades := winningTrades + 1;
        consecutiveWins := consecutiveWins + 1;
        consecutiveLosses := 0;
      } else {
        consecutiveWins := 0;
        consecutiveLosses := consecutiveLosses + 1;
      }
    }

    method CheckExitConditions(env: TickEnv, fmt: Format)
      requires Valid()
      modifies this
      ensures Valid()
      ensures State() == Exited(config, spec, old(State()), env, fmt)
    {
      if currentPosition.None? || prices1m == [] {
        return;
      }
      var pos, p := currentPosition.value, prices1m[|prices1m| - 1];
      if p == 0.0 || pos.entryPrice == 0.0 {
        return;
      }
      var e := pos.entryPrice;
      var rate := if pos.side == "long" then (p - e) / e else (e - p) / e;
      assert ProfitRate(pos, p) == Some(rate);
      if rate > highestProfitRate {
        highestProfitRate := rate;
      }
      assert State() == old(State()).(highest := Max(old(highestProfitRate), rate));
      ApplyExitRules(rate, env, fmt);
    }

    /** The stop loss, the profit levels and the trailing exit of
        `_check_exit_conditions`, in that order. */
    method ApplyExitRules(rate: real, env: TickEnv, fmt: Format)
      requires Valid()
      modifies this
      ensures Valid()
      ensures State() == ExitRules(config, spec, old(State()), rate, env, fmt)
    {
      if rate <= -config.baseStopLoss {
        ClosePosition(1.0, rate, env, fmt);
        return;
      }
      NextLevel(profitTargetsHit, rate, 0);
      var i := 0;
      while i < |ProfitLevels|
        invariant 0 <= i <= |ProfitLevels|
        invariant State() == old(State())
        invariant FirstLevel(profitTargetsHit, rate, i) == FirstLevel(profitTargetsHit, rate, 0)
      {
        if i !in profitTargetsHit && rate >= ProfitLevels[i].target {
          assert i == |profitTargetsHit|;
          ExitLevel(i, rate, env, fmt);
          return;
        }
        i := i + 1;
      }
      if highestProfitRate > 0.03 {
        var drawdown := highestProfitRate - rate;
        if drawdown >= 0.02 {
          ClosePosition(1.0, rate, env, fmt);
        }
      }
    }

    /** A profit level's exit in `_check_exit_conditions`: the level is
        recorded, its fraction closed, and after a partial close the
        position read again. */
    method ExitLevel(i: nat, rate: real, env: TickEnv, fmt: Format)
      requires Valid() && i == |profitTargetsHit| < |ProfitLevels|
      modifies this
      ensures Valid()
      ensures State() == LevelClosed(config, spec, old(State()), i, rate, env, fmt)
    {
      ghost var st := State();
      profitTargetsHit := profitTargetsHit + [i];
      assert State() == st.(targetsHit := st.targetsHit + [i]);
      ClosePosition(ProfitLevels[i].ratio, rate, env, fmt);
      if ProfitLevels[i].ratio < 1.0 {
        UpdatePosition(env.positionsAfter);
      }
    }

    method OpenPosition(side: string, strength: real, env: TickEnv, fmt: Format)
      requires Valid()
      modifies this
      ensures Valid()
      ensures State() == Opened(config, spec, old(State()), side, strength, env, fmt)
    {
      var size := CalculateDynamicPositionSize(strength);
      if size.None? || spec.contractValue == 0.0 || spec.lotSize == 0.0 {
        return;
      }
      var contracts := OrderSize(size.value / spec.contractValue, spec);
      sent := sent + [MarketOrder(config.symbol, OpenSide(side), fmt.ofReal(contracts))];
      if CodeOk(env.order) {
        profitTargetsHit := [];
        highestProfitRate := 0.0;
        UpdatePosition(env.positionsAfter);
      }
    }

    method CheckEntrySignals(env: TickEnv, fmt: Format)
      requires Valid()
      modifies this
      ensures Valid()
      ensures State() == Entered(config, spec, old(State()), env, fmt)
    {
      if |prices15m| < 20 {
        return;
      }
      ghost var st := State();
      var p := prices15m[|prices15m| - 1];
      var bands := Indicators.BollingerBands(prices15m, 20, env.stdev(LastN(prices15m, 20))).value;
      assert bands == EntryBands(st, env);
      if p <= bands.lower * 1.01 {
        var strength := CalculateSignalStrength("long");
        if strength >= 60.0 {
          OpenPosition("long", strength, env, fmt);
          return;
        }
      }
      if p >= bands.upper * 0.99 {
        var strength := CalculateSignalStrength("short");
        if strength >= 60.0 {
          OpenPosition("short", strength, env, fmt);
          return;
        }
      }
    }

    /** `on_tick`: `lasts` holds the ticker entries' last prices and `now`
        the clock. */
    method OnTick(lasts: seq<Option<real>>, now: real, env: TickEnv, fmt: Format)
      requires Valid()
      modifies this
      ensures Valid()
      ensures State() == Tick(config, spec, old(State()), lasts, now, env, fmt)
    {
      if lasts == [] {
        return;
      }
      var last := lasts[0].GetOr(0.0);
      if last <= 0.0 {
        return;
      }
      assert TickerPrice(lasts) == Some(last);
      PushPrice(last);
      if now - lastCheckTime < 30.0 {
        return;
      }
      lastCheckTime := now;
      Analyse(env, fmt);
    }

    /** The 1-minute buffer update of `on_tick`. */
    method PushPrice(price: real)
      requires Valid()
      modifies this
      ensures Valid()
      ensures State() == old(State()).(prices1m := Pushed(old(prices1m), price, HistoryCap))
    {
      PushedBounded(prices1m, price, HistoryCap);
      prices1m := prices1m + [price];
      if |prices1m| > HistoryCap {
        prices1m := prices1m[1..];
      }
    }

    /** The part of `on_tick` after the throttle: the market data and the
        position are fetched, then the exit or the entry check runs. */
    method Analyse(env: TickEnv, fmt: Format)
      requires Valid()
      modifies this
      ensures Valid()
      ensures State() == Analysed(config, spec, old(State()), env, fmt)
    {
      RefreshMarketData(env);
      UpdatePosition(env.positions);
      if currentPosition.Some? {
        CheckExitConditions(env, fmt);
      } else {
        CheckEntrySignals(env, fmt);
      }
    }

    /** The fetches of `on_tick`: the candles, then the order book and the
        funding rate when their options are on. */
    method RefreshMarketData(env: TickEnv)
      requires Valid()
      modifies this
      ensures Valid()
      ensures State() == Refreshed(config, old(State()), env)
    {
      UpdateMultiTimeframeData(env.candles5m, env.candles15m);
      if config.useOrderbook {
        UpdateOrderbookData(env.book);
      }
      if config.useFundingRate {
        UpdateFundingRate(env.funding);
      }
    }

    /** `get_status`. */
    function Status(): (r: AdvancedStatus)
      requires StatsValid(Stats())
      reads this
      ensures 0.0 <= r.winRate <= 1.0
      ensures r.totalTrades == 0 ==> r.winRate == 0.0
    {
      AdvancedStatus(config.symbol, currentPosition, totalTrades, WinRate(Stats()), fundingRate)
    }
  }
}
