/** The risk manager: limits on position size, leverage, open positions,
    trades per hour, daily loss and drawdown; a streak counter that puts
    trading in a cooldown after too many losses in a row; and the sizing
    rules that scale a position by the recent win rate or by the distance
    to the stop.  The clock is an explicit parameter: `now` in seconds and
    `today` as a day number. */
module RiskManager {
  import opened Wrappers
  import opened Builtins
  import Helpers

  /** The limits read from the configuration, with the source's defaults
      in `Defaults`. */
  datatype RiskParams = RiskParams(
    maxPositionSize: real,
    stopLossRate: real,
    takeProfitRate: real,
    maxDailyLoss: real,
    maxDrawdown: real,
    maxLeverage: int,
    maxConsecutiveLosses: int,
    consecutiveLossCooldown: real,
    maxPositions: int,
    maxCorrelationExposure: real,
    winRateThreshold: real,
    reduceSizeOnLoss: bool,
    positionScalingFactor: real,
    maxHourlyTrades: int)

  const Defaults := RiskParams(0.1, 0.05, 0.10, 500.0, 0.20, 10, 5, 3600.0, 3, 0.5, 0.5, true, 0.5, 10)

  /** One recorded trade. */
  datatype TradeRecord = TradeRecord(timestamp: real, side: string, price: real, size: real,
                                     pnl: real, symbol: Option<string>)

  const OneHour: real := 3600.0

  /* ---------------------------------------------------------------------
     The pure checks
     --------------------------------------------------------------------- */

  /** `check_position_size`. */
  predicate SizeWithinLimit(p: RiskParams, size: real): (r: bool)
    ensures r <==> -p.maxPositionSize <= size <= p.maxPositionSize
  {
    Abs(size) <= p.maxPositionSize
  }

  /** `check_stop_loss`: the loss rate of a long or a short (side matched
      without regard to case) has reached the stop-loss rate; any other
      side never stops, and a zero entry price raises. */
  function StopLossHit(p: RiskParams, entry: real, current: real, side: string)
    : (r: Result<bool, Helpers.HelperError>)
    ensures r.Err? <==> (Lower(side) == "long" || Lower(side) == "short") && entry == 0.0
    ensures r.Err? ==> r.error == Helpers.ZeroDivisionError
    ensures Lower(side) != "long" && Lower(side) != "short" ==> r == Ok(false)
  {
    if Lower(side) == "long" then
      if entry == 0.0 then Err(Helpers.ZeroDivisionError) else Ok((entry - current) / entry >= p.stopLossRate)
    else if Lower(side) == "short" then
      if entry == 0.0 then Err(Helpers.ZeroDivisionError) else Ok((current - entry) / entry >= p.stopLossRate)
    else Ok(false)
  }

  /** `check_take_profit`: the same with the profit rate. */
  function TakeProfitHit(p: RiskParams, entry: real, current: real, side: string)
    : (r: Result<bool, Helpers.HelperError>)
    ensures r.Err? <==> (Lower(side) == "long" || Lower(side) == "short") && entry == 0.0
    ensures r.Err? ==> r.error == Helpers.ZeroDivisionError
    ensures Lower(side) != "long" && Lower(side) != "short" ==> r == Ok(false)
  {
    if Lower(side) == "long" then
      if entry == 0.0 then Err(Helpers.ZeroDivisionError) else Ok((current - entry) / entry >= p.takeProfitRate)
    else if Lower(side) == "short" then
      if entry == 0.0 then Err(Helpers.ZeroDivisionError) else Ok((entry - current) / entry >= p.takeProfitRate)
    else Ok(false)
  }

  /** For a long or a short, the stop loss fires exactly when the profit
      rate of `calculate_pnl_rate` has fallen to minus the stop-loss rate,
      and the take profit exactly when it has risen to the take-profit
      rate. */
  lemma StopsFollowPnlRate(p: RiskParams, entry: real, current: real, side: string)
    requires Lower(side) == "long" || Lower(side) == "short"
    requires entry != 0.0
    ensures Helpers.PnlRate(entry, current, side).Ok?
    ensures StopLossHit(p, entry, current, side)
         == Ok(Helpers.PnlRate(entry, current, side).value <= -p.stopLossRate)
    ensures TakeProfitHit(p, entry, current, side)
         == Ok(Helpers.PnlRate(entry, current, side).value >= p.takeProfitRate)
  {
    if Lower(side) == "long" {
      assert (entry - current) / entry == -((current - entry) / entry);
    } else {
      assert (current - entry) / entry == -((entry - current) / entry);
    }
  }

  /** With positive rates, a position is never at its stop loss and its
      take profit at once. */
  lemma StopAndTakeExclusive(p: RiskParams, entry: real, current: real, side: string)
    requires p.stopLossRate > 0.0 && p.takeProfitRate > 0.0
    ensures !(StopLossHit(p, entry, current, side) == Ok(true)
              && TakeProfitHit(p, entry, current, side) == Ok(true))
  {
    if (Lower(side) == "long" || Lower(side) == "short") && entry != 0.0 {
      StopsFollowPnlRate(p, entry, current, side);
    }
  }

  /** For a long, a lower price can only keep a triggered stop loss
      triggered (with a positive entry price). */
  lemma LongStopLossMonotone(p: RiskParams, entry: real, current: real, lower: real)
    requires entry > 0.0 && lower <= current
    requires StopLossHit(p, entry, current, "long") == Ok(true)
    ensures StopLossHit(p, entry, lower, "long") == Ok(true)
  {
    assert Lower("long") == "long";
    assert (entry - current) / entry <= (entry - lower) / entry;
  }

  /** `check_max_drawdown`: nothing to check before a peak is known,
      otherwise the fall from the peak must stay below the limit. */
  predicate DrawdownWithinLimit(p: RiskParams, peak: real, current: real): (r: bool)
    ensures peak == 0.0 ==> r
    ensures peak > 0.0 ==> (r <==> current > peak * (1.0 - p.maxDrawdown))
  {
    peak == 0.0 || (peak - current) / peak < p.maxDrawdown
  }

  /** The positions `check_position_count` counts: non-zero sizes only. */
  function ActiveCount(positions: map<string, real>): nat
  {
    |set s | s in positions && positions[s] != 0.0|
  }

  /** `get_total_exposure`: the sum of the absolute sizes. */
  ghost function TotalExposure(positions: map<string, real>): (r: real)
    ensures r >= 0.0
    ensures r == 0.0 <==> forall s :: s in positions ==> positions[s] == 0.0
    decreases |positions|
  {
    if |positions| == 0 then 0.0
    else
      var s :| s in positions;
      var rest := positions - {s};
      assert forall t :: t in positions <==> t == s || t in rest;
      Abs(positions[s]) + TotalExposure(rest)
  }

  /** `get_position_size_by_risk`: the size whose loss at the stop is the
      given share of the balance, capped at the maximum size; zero when
      the stop sits at the entry. */
  function SizeByRisk(p: RiskParams, balance: real, entry: real, stop: real, riskPerTrade: real): (r: real)
    ensures entry == stop ==> r == 0.0
    ensures entry != stop ==> r <= p.maxPositionSize
  {
    var riskAmount := balance * riskPerTrade;
    var priceRisk := Abs(entry - stop);
    if priceRisk == 0.0 then 0.0
    else Min(riskAmount / priceRisk, p.maxPositionSize)
  }

  /** The loss taken at the stop never exceeds the risk budget, and equals
      it whenever the cap does not bind. */
  lemma SizeByRiskBudget(p: RiskParams, balance: real, entry: real, stop: real, riskPerTrade: real)
    requires entry != stop
    ensures SizeByRisk(p, balance, entry, stop, riskPerTrade) * Abs(entry - stop) <= balance * riskPerTrade
    ensures balance * riskPerTrade / Abs(entry - stop) <= p.maxPositionSize ==>
      SizeByRisk(p, balance, entry, stop, riskPerTrade) * Abs(entry - stop) == balance * riskPerTrade
  {
    var ra := balance * riskPerTrade;
    var pr := Abs(entry - stop);
    var r := SizeByRisk(p, balance, entry, stop, riskPerTrade);
    Helpers.DivMulCancel(ra, pr);
    assert r <= ra / pr;
    LeMulPositive(r, ra / pr, pr);
  }

  lemma LeMulPositive(a: real, b: real, m: real)
    requires m > 0.0 && a <= b
    ensures a * m <= b * m
  {
  }

  /* ---------------------------------------------------------------------
     Win rate and the adjusted size
     --------------------------------------------------------------------- */

  /** The number of trades with a positive pnl. */
  function WinCount(trades: seq<TradeRecord>): (n: nat)
    ensures n <= |trades|
  {
    if trades == [] then 0
    else WinCount(trades[..|trades| - 1]) + (if trades[|trades| - 1].pnl > 0.0 then 1 else 0)
  }

  /** The last ten trades, or all of them when there are fewer. */
  function RecentTrades(trades: seq<TradeRecord>): (r: seq<TradeRecord>)
    ensures |r| == if |trades| >= 10 then 10 else |trades|
    ensures forall i :: 0 <= i < |r| ==> r[i] == trades[|trades| - |r| + i]
  {
    if |trades| >= 10 then LastN(trades, 10) else trades
  }

  /** The share of winners, 0.5 for no trades. */
  function WinRate(trades: seq<TradeRecord>): (r: real)
    ensures 0.0 <= r <= 1.0
    ensures trades == [] ==> r == 0.5
  {
    if trades == [] then 0.5 else WinCount(trades) as real / |trades| as real
  }

  /** `get_adjusted_position_size`: after at least five trades today, a
      win rate over the recent trades below the threshold scales the size
      down; otherwise three wins in a row scale it up, but never past the
      maximum size. */
  function AdjustedSize(p: RiskParams, dailyTrades: seq<TradeRecord>, consecutiveWins: nat, base: real): (r: real)
    ensures !p.reduceSizeOnLoss || |dailyTrades| < 5 ==> r == base
  {
    if !p.reduceSizeOnLoss || |dailyTrades| < 5 then base
    else if WinRate(RecentTrades(dailyTrades)) < p.winRateThreshold then base * p.positionScalingFactor
    else if consecutiveWins >= 3 then Min(base * Min(1.2, 2.0 - p.positionScalingFactor), p.maxPositionSize)
    else base
  }

  /** With a scaling factor in [0, 1], the adjustment never grows a
      non-negative size by more than 20%, and never past both the base size
      and the maximum; a size grown by a winning streak stays within the
      maximum. */
  lemma AdjustedSizeBounds(p: RiskParams, dailyTrades: seq<TradeRecord>, consecutiveWins: nat, base: real)
    requires base >= 0.0 && 0.0 <= p.positionScalingFactor <= 1.0
    ensures AdjustedSize(p, dailyTrades, consecutiveWins, base) <= 1.2 * base
    ensures AdjustedSize(p, dailyTrades, consecutiveWins, base) <= Max(base, p.maxPositionSize)
    ensures AdjustedSize(p, dailyTrades, consecutiveWins, base) > base ==>
      AdjustedSize(p, dailyTrades, consecutiveWins, base) <= p.maxPositionSize
  {
    var s := p.positionScalingFactor;
    if p.reduceSizeOnLoss && |dailyTrades| >= 5 {
      if WinRate(RecentTrades(dailyTrades)) < p.winRateThreshold {
        LeMulPositiveOrZero(s, 1.0, base);
        assert base * s <= base;
      } else if consecutiveWins >= 3 {
        var adj := Min(1.2, 2.0 - s);
        LeMulPositiveOrZero(adj, 1.2, base);
      }
    }
  }

  lemma LeMulPositiveOrZero(a: real, b: real, m: real)
    requires m >= 0.0 && a <= b
    ensures a * m <= b * m
  {
  }

  /** A win rate below the threshold scales the size down by the factor,
      whatever the streak. */
  lemma LosingRecordScalesDown(p: RiskParams, dailyTrades: seq<TradeRecord>, consecutiveWins: nat, base: real)
    requires p.reduceSizeOnLoss && |dailyTrades| >= 5
    requires WinRate(RecentTrades(dailyTrades)) < p.winRateThreshold
    ensures AdjustedSize(p, dailyTrades, consecutiveWins, base) == base * p.positionScalingFactor
  {
  }

  /** A win rate at or above the threshold with three or more wins in a
      row scales the size up by min(1.2, 2 - factor), capped at the
      maximum size. */
  lemma WinningStreakScalesUp(p: RiskParams, dailyTrades: seq<TradeRecord>, consecutiveWins: nat, base: real)
    requires p.reduceSizeOnLoss && |dailyTrades| >= 5
    requires WinRate(RecentTrades(dailyTrades)) >= p.winRateThreshold && consecutiveWins >= 3
    ensures AdjustedSize(p, dailyTrades, consecutiveWins, base)
            == Min(base * Min(1.2, 2.0 - p.positionScalingFactor), p.maxPositionSize)
  {
  }

  /** A win rate at or above the threshold without a streak of three wins
      leaves the size as it is. */
  lemma SteadyRecordKeepsSize(p: RiskParams, dailyTrades: seq<TradeRecord>, consecutiveWins: nat, base: real)
    requires p.reduceSizeOnLoss && |dailyTrades| >= 5
    requires WinRate(RecentTrades(dailyTrades)) >= p.winRateThreshold && consecutiveWins < 3
    ensures AdjustedSize(p, dailyTrades, consecutiveWins, base) == base
  {
  }

  /* ---------------------------------------------------------------------
     Pruning and the position map
     --------------------------------------------------------------------- */

  /** The trades newer than the cutoff, in their order. */
  function Recent(trades: seq<TradeRecord>, cutoff: real): (r: seq<TradeRecord>)
    ensures |r| <= |trades|
    ensures forall t :: t in r <==> t in trades && t.timestamp > cutoff
  {
    if trades == [] then []
    else
      var last := trades[|trades| - 1];
      var r := Recent(trades[..|trades| - 1], cutoff);
      assert trades == trades[..|trades| - 1] + [last];
      if last.timestamp > cutoff then r + [last] else r
  }

  /** Pruning keeps each newer trade as many times as it occurs, and no
      other: the hourly count is the number of trades in the last hour. */
  lemma {:induction false} RecentCounts(trades: seq<TradeRecord>, cutoff: real)
    ensures forall t :: multiset(Recent(trades, cutoff))[t]
                        == if t.timestamp > cutoff then multiset(trades)[t] else 0
  {
    if trades != [] {
      var s, x := trades[..|trades| - 1], trades[|trades| - 1];
      assert trades == s + [x];
      RecentSnoc(s, x, cutoff);
      RecentCounts(s, cutoff);
    }
  }

  /** Pruning keeps the order: the newer trades of a concatenation are the
      newer trades of its first part followed by those of its second. */
  lemma {:induction false} RecentConcat(a: seq<TradeRecord>, b: seq<TradeRecord>, cutoff: real)
    ensures Recent(a + b, cutoff) == Recent(a, cutoff) + Recent(b, cutoff)
    decreases |b|
  {
    if b == [] {
      assert a + b == a;
    } else {
      var b', x := b[..|b| - 1], b[|b| - 1];
      assert b == b' + [x];
      RecentConcat(a, b', cutoff);
      RecentConcatStep(a, b', x, cutoff);
    }
  }

  /** The step of `RecentConcat`: one more trade at the end of b. */
  lemma RecentConcatStep(a: seq<TradeRecord>, b: seq<TradeRecord>, x: TradeRecord, cutoff: real)
    requires Recent(a + b, cutoff) == Recent(a, cutoff) + Recent(b, cutoff)
    ensures Recent(a + (b + [x]), cutoff) == Recent(a, cutoff) + Recent(b + [x], cutoff)
  {
    var ra, rb := Recent(a, cutoff), Recent(b, cutoff);
    var tail := if x.timestamp > cutoff then [x] else [];
    calc {
      Recent(a + (b + [x]), cutoff);
      { assert a + (b + [x]) == (a + b) + [x]; }
      Recent((a + b) + [x], cutoff);
      { RecentSnoc(a + b, x, cutoff); }
      (ra + rb) + tail;
      ra + (rb + tail);
      { RecentSnoc(b, x, cutoff); }
      ra + Recent(b + [x], cutoff);
    }
  }

  /** One more trade at the end is kept at the end exactly when it is newer
      than the cutoff. */
  lemma RecentSnoc(s: seq<TradeRecord>, x: TradeRecord, cutoff: real)
    ensures Recent(s + [x], cutoff) == Recent(s, cutoff) + if x.timestamp > cutoff then [x] else []
  {
    assert (s + [x])[..|s + [x]| - 1] == s;
  }

  /** `update_position`: a zero size closes a held symbol; any other
      update stores the size, so an unknown symbol with size zero is
      stored as zero. */
  function PositionsAfter(positions: map<string, real>, symbol: string, size: real): map<string, real>
  {
    if size == 0.0 && symbol in positions then positions - {symbol}
    else positions[symbol := size]
  }

  /** The update concerns one symbol only. */
  lemma PositionsAfterLookup(positions: map<string, real>, symbol: string, size: real, other: string)
    ensures symbol in PositionsAfter(positions, symbol, size) <==> !(size == 0.0 && symbol in positions)
    ensures symbol in PositionsAfter(positions, symbol, size) ==> PositionsAfter(positions, symbol, size)[symbol] == size
    ensures other != symbol ==>
      (other in PositionsAfter(positions, symbol, size) <==> other in positions)
      && (other in positions ==> PositionsAfter(positions, symbol, size)[other] == positions[other])
  {
  }

  /** After an update, the symbol counts as open exactly when its new size
      is non-zero, and the other symbols count as before. */
  lemma PositionsAfterCount(positions: map<string, real>, symbol: string, size: real)
    ensures ActiveCount(PositionsAfter(positions, symbol, size))
         == ActiveCount(positions - {symbol}) + (if size != 0.0 then 1 else 0)
  {
    var m := PositionsAfter(positions, symbol, size);
    var rest := positions - {symbol};
    var a := set s | s in m && m[s] != 0.0;
    var b := set s | s in rest && rest[s] != 0.0;
    assert symbol !in b;
    forall s | s != symbol
      ensures s in a <==> s in b
    {
      assert s in m <==> s in rest;
    }
    if size != 0.0 {
      assert a == b + {symbol};
    } else {
      assert a == b;
    }
  }

  /** A zero-size update can only lower the count. */
  lemma ClosingNeverOpens(positions: map<string, real>, symbol: string)
    ensures ActiveCount(PositionsAfter(positions, symbol, 0.0)) <= ActiveCount(positions)
  {
    PositionsAfterCount(positions, symbol, 0.0);
    var a := set s | s in positions - {symbol} && (positions - {symbol})[s] != 0.0;
    var b := set s | s in positions && positions[s] != 0.0;
    assert a <= b;
    SubsetCard(a, b);
  }

  lemma {:induction false} SubsetCard<T>(a: set<T>, b: set<T>)
    requires a <= b
    ensures |a| <= |b|
    decreases |b|
  {
    if a != {} {
      var x :| x in a;
      SubsetCard(a - {x}, b - {x});
    }
  }

  /* ---------------------------------------------------------------------
     The manager
     --------------------------------------------------------------------- */

  /** The cooldown is over, or there is none. */
  predicate CooldownPasses(until: Option<real>, now: real)
  {
    until.None? || now >= until.value
  }

  class RiskManager {
    const params: RiskParams
    var dailyPnl: real
    var dailyTrades: seq<TradeRecord>
    var currentDate: int
    var peakBalance: real
    var currentBalance: real
    var consecutiveLosses: nat
    var consecutiveWins: nat
    var cooldownUntil: Option<real>
    var activePositions: map<string, real>
    var hourlyTrades: seq<TradeRecord>

    /** The peak is never below zero or below the current balance, and at
        most one streak is running. */
    ghost predicate Valid()
      reads this
    {
      0.0 <= peakBalance && currentBalance <= peakBalance
      && (consecutiveWins == 0 || consecutiveLosses == 0)
    }

    constructor (params: RiskParams, today: int)
      ensures Valid() && this.params == params
      ensures dailyPnl == 0.0 && dailyTrades == [] && currentDate == today
      ensures peakBalance == 0.0 && currentBalance == 0.0
      ensures consecutiveLosses == 0 && consecutiveWins == 0 && cooldownUntil == None
      ensures activePositions == map[] && hourlyTrades == []
    {
      this.params := params;
      dailyPnl := 0.0;
      dailyTrades := [];
      currentDate := today;
      peakBalance := 0.0;
      currentBalance := 0.0;
      consecutiveLosses := 0;
      consecutiveWins := 0;
      cooldownUntil := None;
      activePositions := map[];
      hourlyTrades := [];
    }

    /** `reset_daily_stats`: on a new day the daily totals start over. */
    method ResetDailyStats(today: int)
      modifies this`dailyPnl, this`dailyTrades, this`currentDate
      ensures today != old(currentDate) ==> dailyPnl == 0.0 && dailyTrades == [] && currentDate == today
      ensures today == old(currentDate) ==>
        dailyPnl == old(dailyPnl) && dailyTrades == old(dailyTrades) && currentDate == old(currentDate)
    {
      if today != currentDate {
        dailyPnl := 0.0;
        dailyTrades := [];
        currentDate := today;
      }
    }

    /** `update_balance`: the peak follows the balance upward only. */
    method UpdateBalance(balance: real)
      requires Valid()
      modifies this`currentBalance, this`peakBalance
      ensures Valid()
      ensures currentBalance == balance
      ensures peakBalance == Max(old(peakBalance), balance)
      ensures peakBalance >= old(peakBalance)
    {
      currentBalance := balance;
      if balance > peakBalance {
        peakBalance := balance;
      }
    }

    /** `trigger_cooldown`. */
    method TriggerCooldown(now: real)
      modifies this`cooldownUntil
      ensures cooldownUntil == Some(now + params.consecutiveLossCooldown)
    {
      cooldownUntil := Some(now + params.consecutiveLossCooldown);
    }

    /** `record_trade`: after the daily reset, the trade is appended to the
        daily and the hourly lists and its pnl added to the day's total; a
        win extends the winning streak and ends the losing one, a loss the
        other way round, and a loss that brings the losing streak to the
        limit starts the cooldown.  The hourly list then keeps only the last
        hour, which still holds the new trade. */
    method RecordTrade(now: real, today: int, pnl: real, side: string, price: real, size: real,
                       symbol: Option<string>)
      requires Valid()
      modifies this`dailyPnl, this`dailyTrades, this`currentDate, this`hourlyTrades,
               this`consecutiveWins, this`consecutiveLosses, this`cooldownUntil
      ensures Valid()
      ensures var rec := TradeRecord(now, side, price, size, pnl, symbol);
        && dailyTrades == (if today != old(currentDate) then [] else old(dailyTrades)) + [rec]
        && hourlyTrades == Recent(old(hourlyTrades) + [rec], now - OneHour)
        && rec in hourlyTrades
      ensures dailyPnl == (if today != old(currentDate) then 0.0 else old(dailyPnl)) + pnl
      ensures currentDate == today
      ensures pnl > 0.0 ==> consecutiveWins == old(consecutiveWins) + 1 && consecutiveLosses == 0
      ensures pnl < 0.0 ==> consecutiveLosses == old(consecutiveLosses) + 1 && consecutiveWins == 0
      ensures pnl == 0.0 ==>
        consecutiveWins == old(consecutiveWins) && consecutiveLosses == old(consecutiveLosses)
      ensures cooldownUntil == if pnl < 0.0 && consecutiveLosses >= params.maxConsecutiveLosses
        then Some(now + params.consecutiveLossCooldown) else old(cooldownUntil)
    {
      ghost var trades0 := if today != currentDate then [] else dailyTrades;
      ghost var pnl0 := if today != currentDate then 0.0 else dailyPnl;
      ResetDailyStats(today);
      assert dailyTrades == trades0 && dailyPnl == pnl0;
      var rec := TradeRecord(now, side, price, size, pnl, symbol);
      dailyTrades := dailyTrades + [rec];
      hourlyTrades := hourlyTrades + [rec];
      dailyPnl := dailyPnl + pnl;
      UpdateStreaks(now, pnl);
      hourlyTrades := Recent(hourlyTrades, now - OneHour);
      assert rec.timestamp > now - OneHour;
    }

    /** The streak part of `record_trade`: a win extends the winning streak
        and ends the losing one, a loss the other way round, and a loss
        that brings the losing streak to the limit starts the cooldown. */
    method UpdateStreaks(now: real, pnl: real)
      requires consecutiveWins == 0 || consecutiveLosses == 0
      modifies this`consecutiveWins, this`consecutiveLosses, this`cooldownUntil
      ensures consecutiveWins == 0 || consecutiveLosses == 0
      ensures pnl > 0.0 ==> consecutiveWins == old(consecutiveWins) + 1 && consecutiveLosses == 0
      ensures pnl < 0.0 ==> consecutiveLosses == old(consecutiveLosses) + 1 && consecutiveWins == 0
      ensures pnl == 0.0 ==>
        consecutiveWins == old(consecutiveWins) && consecutiveLosses == old(consecutiveLosses)
      ensures cooldownUntil == if pnl < 0.0 && consecutiveLosses >= params.maxConsecutiveLosses
        then Some(now + params.consecutiveLossCooldown) else old(cooldownUntil)
    {
      if pnl > 0.0 {
        consecutiveWins := consecutiveWins + 1;
        consecutiveLosses := 0;
      } else if pnl < 0.0 {
        consecutiveLosses := consecutiveLosses + 1;
        consecutiveWins := 0;
        if consecutiveLosses >= params.maxConsecutiveLosses {
          TriggerCooldown(now);
        }
      }
    }

    /** `check_cooldown`: true with no cooldown or once it is over, in
        which case it is cleared and the losing streak forgotten. */
    method CheckCooldown(now: real) returns (ok: bool)
      requires Valid()
      modifies this`cooldownUntil, this`consecutiveLosses
      ensures Valid()
      ensures ok == CooldownPasses(old(cooldownUntil), now)
      ensures cooldownUntil == if ok then None else old(cooldownUntil)
      ensures consecutiveLosses == if old(cooldownUntil).Some? && ok then 0 else old(consecutiveLosses)
    {
      if cooldownUntil.None? {
        return true;
      }
      if now < cooldownUntil.value {
        return false;
      }
      cooldownUntil := None;
      consecutiveLosses := 0;
      return true;
    }

    /** `check_hourly_trade_limit`: prune to the last hour, then compare. */
    method CheckHourlyTradeLimit(now: real) returns (ok: bool)
      modifies this`hourlyTrades
      ensures hourlyTrades == Recent(old(hourlyTrades), now - OneHour)
      ensures ok <==> |hourlyTrades| < params.maxHourlyTrades
    {
      hourlyTrades := Recent(hourlyTrades, now - OneHour);
      ok := |hourlyTrades| < params.maxHourlyTrades;
    }

    /** `check_daily_loss_limit`: after the daily reset, the day's loss
        must stay short of the limit. */
    method CheckDailyLossLimit(today: int) returns (ok: bool)
      modifies this`dailyPnl, this`dailyTrades, this`currentDate
      ensures today != old(currentDate) ==> dailyPnl == 0.0 && dailyTrades == [] && currentDate == today
      ensures today == old(currentDate) ==>
        dailyPnl == old(dailyPnl) && dailyTrades == old(dailyTrades) && currentDate == old(currentDate)
      ensures ok <==> dailyPnl > -params.maxDailyLoss
    {
      ResetDailyStats(today);
      ok := dailyPnl > -params.maxDailyLoss;
    }

    /** `can_open_position`: the checks run in order (cooldown, losing
        streak, trades this hour, open positions, leverage, daily loss,
        drawdown, adjusted size) and the first that fails refuses the
        position; the side effects of the checks that ran (ending the
        cooldown, pruning the hourly list, the daily reset) remain. */
    method CanOpenPosition(size: real, leverage: int, now: real, today: int) returns (ok: bool)
      requires Valid()
      modifies this`cooldownUntil, this`consecutiveLosses, this`hourlyTrades,
               this`dailyPnl, this`dailyTrades, this`currentDate
      ensures Valid()
      ensures cooldownUntil == if CooldownPasses(old(cooldownUntil), now) then None else old(cooldownUntil)
      ensures consecutiveLosses ==
        if old(cooldownUntil).Some? && CooldownPasses(old(cooldownUntil), now) then 0 else old(consecutiveLosses)
      ensures hourlyTrades ==
        if CooldownPasses(old(cooldownUntil), now) && consecutiveLosses < params.maxConsecutiveLosses
        then Recent(old(hourlyTrades), now - OneHour) else old(hourlyTrades)
      ensures var reached := CooldownPasses(old(cooldownUntil), now)
          && consecutiveLosses < params.maxConsecutiveLosses
          && |hourlyTrades| < params.maxHourlyTrades
          && ActiveCount(activePositions) < params.maxPositions
          && leverage <= params.maxLeverage;
        (dailyPnl, dailyTrades, currentDate) ==
          if reached && today != old(currentDate) then (0.0, [], today)
          else (old(dailyPnl), old(dailyTrades), old(currentDate))
      ensures ok <==>
        && CooldownPasses(old(cooldownUntil), now)
        && consecutiveLosses < params.maxConsecutiveLosses
        && |hourlyTrades| < params.maxHourlyTrades
        && ActiveCount(activePositions) < params.maxPositions
        && leverage <= params.maxLeverage
        && dailyPnl > -params.maxDailyLoss
        && DrawdownWithinLimit(params, peakBalance, currentBalance)
        && SizeWithinLimit(params, AdjustedSize(params, dailyTrades, consecutiveWins, size))
    {
      ok := CheckCooldown(now);
      if !ok {
        return;
      }
      ok := consecutiveLosses < params.maxConsecutiveLosses;
      if !ok {
        return;
      }
      ok := CheckHourlyTradeLimit(now);
      if !ok {
        return;
      }
      ok := ActiveCount(activePositions) < params.maxPositions;
      if !ok {
        return;
      }
      ok := leverage <= params.maxLeverage;
      if !ok {
        return;
      }
      ok := CheckDailyLossLimit(today);
      if !ok {
        return;
      }
      ok := DrawdownWithinLimit(params, peakBalance, currentBalance);
      if !ok {
        return;
      }
      ok := SizeWithinLimit(params, AdjustedSize(params, dailyTrades, consecutiveWins, size));
    }

    /** `update_position`. */
    method UpdatePosition(symbol: string, size: real)
      modifies this`activePositions
      ensures activePositions == PositionsAfter(old(activePositions), symbol, size)
    {
      if size == 0.0 && symbol in activePositions {
        activePositions := activePositions - {symbol};
      } else {
        activePositions := activePositions[symbol := size];
      }
    }

    /** `is_emergency_stop`: the drawdown limit is reached, or the daily
        loss limit, or a cooldown is set while the losing streak is at the
        limit. */
    predicate IsEmergencyStop(): (r: bool)
      reads this
      ensures Valid() ==>
        (r <==> !DrawdownWithinLimit(params, peakBalance, currentBalance)
                || dailyPnl <= -params.maxDailyLoss
                || (cooldownUntil.Some? && consecutiveLosses >= params.maxConsecutiveLosses))
    {
      (peakBalance > 0.0 && (peakBalance - currentBalance) / peakBalance >= params.maxDrawdown)
      || dailyPnl <= -params.maxDailyLoss
      || (cooldownUntil.Some? && consecutiveLosses >= params.maxConsecutiveLosses)
    }

    /** Whatever makes the drawdown or daily loss check refuse a position
        also calls for an emergency stop. */
    lemma EmergencyStopCoversLimits()
      requires Valid()
      ensures !DrawdownWithinLimit(params, peakBalance, currentBalance) ==> IsEmergencyStop()
      ensures dailyPnl <= -params.maxDailyLoss ==> IsEmergencyStop()
    {
    }
  }
}
