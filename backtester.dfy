/** The backtester's grid simulation: evenly spaced price levels over
    [lower, upper]; on each bar every level not held is bought when the
    bar's low reaches it and the balance covers the cost with commission,
    and every held level is sold when the bar's high reaches the next
    level up; after each bar the equity is recorded.  Then the trade
    counts and the win rate are reported. */
module Backtester {
  import opened Wrappers
  import opened Builtins

  /** A candle of the history replayed. */
  datatype Bar = Bar(timestamp: int, open: real, high: real, low: real, close: real)

  datatype Side = Buy | Sell

  /** A trade record; only a sale carries a profit. */
  datatype Trade = Trade(timestamp: int, side: Side, price: real, size: real, commission: real,
                         profit: Option<real>, balance: real)

  /** A held level: the price it was bought at and the size bought. */
  datatype Holding = Holding(price: real, size: real)

  datatype EquityPoint = EquityPoint(timestamp: int, balance: real, positionValue: real, totalEquity: real)

  /** The simulation's state: the balance, the holding of each level
      (None when the level is free), and the trades and the equity curve
      recorded so far. */
  datatype Sim = Sim(balance: real, held: seq<Option<Holding>>, trades: seq<Trade>, curve: seq<EquityPoint>)

  /** The defaults of `config.get` for a key the configuration lacks. */
  const DefaultInitialCapital := 10000.0
  const DefaultCommissionRate := 0.0005

  /* ---------------------------------------------------------------------
     Levels
     --------------------------------------------------------------------- */

  /** numpy's linspace: n values from lower by equal steps of
      (upper - lower) / (n - 1), the last one set to upper; just lower
      when n is 1. */
  function Linspace(lower: real, upper: real, n: nat): (r: seq<real>)
    ensures |r| == n
  {
    if n == 1 then [lower]
    else
      var step := (upper - lower) / (n - 1) as real;
      seq(n, i requires 0 <= i < n => if i == n - 1 then upper else lower + i as real * step)
  }

  /** The levels start at lower, end at upper, rise by equal steps, and
      lie between the bounds. */
  lemma LinspaceShape(lower: real, upper: real, n: nat)
    requires n >= 2 && lower <= upper
    ensures var r := Linspace(lower, upper, n);
      var step := (upper - lower) / (n - 1) as real;
      && r[0] == lower && r[n - 1] == upper
      && (forall i :: 0 <= i < n - 1 ==> r[i + 1] - r[i] == step)
      && (forall i :: 0 <= i < n ==> lower <= r[i] <= upper)
  {
    var r := Linspace(lower, upper, n);
    var d := (n - 1) as real;
    var step := (upper - lower) / d;
    assert step * d == upper - lower;
    assert step >= 0.0;
    forall i | 0 <= i < n - 1
      ensures r[i + 1] - r[i] == step
      ensures lower <= r[i] <= upper
    {
      assert r[i] == lower + i as real * step;
      if i + 1 < n - 1 {
        assert r[i + 1] == lower + (i + 1) as real * step;
        assert (i + 1) as real * step == i as real * step + step;
      } else {
        assert d * step == i as real * step + step;
      }
      MulMonotone(step, 0.0, i as real);
      MulMonotone(step, i as real, d);
    }
  }

  /** The levels of a non-negative range are non-negative. */
  lemma LinspaceNonNegative(lower: real, upper: real, n: nat)
    requires 0.0 <= lower <= upper
    ensures forall i :: 0 <= i < n ==> Linspace(lower, upper, n)[i] >= 0.0
  {
    if n >= 2 {
      LinspaceShape(lower, upper, n);
    }
  }

  /** The worth of a size at a price. */
  function Value(size: real, price: real): real
  {
    size * price
  }

  /** The commission on a size at a price. */
  function Fee(size: real, price: real, rate: real): real
  {
    Value(size, price) * rate
  }

  /** The level a held level sells at: the next one up, or itself for
      the top level. */
  function SellLevel(levels: seq<real>, i: nat): real
    requires i < |levels|
  {
    if i + 1 < |levels| then levels[i + 1] else levels[i]
  }

  /** On evenly rising levels a held level sells one step above the price
      it was bought at, except the top level, which sells at its own
      price. */
  lemma SellLevelStep(lower: real, upper: real, n: nat, i: nat)
    requires n >= 2 && lower <= upper && i < n
    ensures var levels := Linspace(lower, upper, n);
      SellLevel(levels, i) - levels[i] == if i + 1 < n then (upper - lower) / (n - 1) as real else 0.0
  {
    LinspaceShape(lower, upper, n);
  }

  /* ---------------------------------------------------------------------
     The simulation
     --------------------------------------------------------------------- */

  /** The check of level i on a bar.  A free level the low reaches is
      bought when the balance covers size * price plus commission; at a
      zero level numpy's division makes the size infinite and the cost
      NaN, which no balance covers, so that level is never bought.  A held
      level the high reaches at its sell level is sold and freed. */
  function LevelStep(s: Sim, levels: seq<real>, i: nat, bar: Bar, perGrid: real, rate: real): (r: Sim)
    requires i < |levels| == |s.held|
    ensures |r.held| == |s.held| && r.curve == s.curve
    ensures forall j :: 0 <= j < |s.held| && j != i ==> r.held[j] == s.held[j]
  {
    var level := levels[i];
    if s.held[i].None? && bar.low <= level then
      if level == 0.0 then s
      else
        var size := perGrid / level;
        var commission := Fee(size, level, rate);
        var cost := Value(size, level) + commission;
        if s.balance >= cost then
          var left := s.balance - cost;
          Sim(left, s.held[i := Some(Holding(level, size))],
              s.trades + [Trade(bar.timestamp, Buy, level, size, commission, None, left)], s.curve)
        else s
    else if s.held[i].Some? && bar.high >= SellLevel(levels, i) then
      var sellPrice := SellLevel(levels, i);
      var pos := s.held[i].value;
      var commission := Fee(pos.size, sellPrice, rate);
      var revenue := Value(pos.size, sellPrice) - commission;
      var left := s.balance + revenue;
      Sim(left, s.held[i := None],
          s.trades + [Trade(bar.timestamp, Sell, sellPrice, pos.size, commission,
                            Some(revenue - Value(pos.price, pos.size)), left)], s.curve)
    else s
  }

  /** A free non-zero level the bar reaches down to is bought when the
      balance covers its cost: the cost leaves the balance, the level
      holds the size, and a purchase without profit is recorded. */
  lemma LevelStepBuys(s: Sim, levels: seq<real>, i: nat, bar: Bar, perGrid: real, rate: real)
    requires i < |levels| == |s.held|
    requires s.held[i].None? && bar.low <= levels[i] && levels[i] != 0.0
    ensures var size := perGrid / levels[i];
      var commission := Fee(size, levels[i], rate);
      var cost := Value(size, levels[i]) + commission;
      var r := LevelStep(s, levels, i, bar, perGrid, rate);
      s.balance >= cost ==>
        && r.balance == s.balance - cost
        && r.trades == s.trades + [Trade(bar.timestamp, Buy, levels[i], size, commission, None, s.balance - cost)]
        && r.held == s.held[i := Some(Holding(levels[i], size))] && r.curve == s.curve
  {}

  /** A held level whose sell level the bar reaches up to is sold there:
      the revenue net of commission joins the balance, the level is freed,
      and a sale with its profit over the purchase is recorded. */
  lemma LevelStepSells(s: Sim, levels: seq<real>, i: nat, bar: Bar, perGrid: real, rate: real)
    requires i < |levels| == |s.held|
    requires s.held[i].Some? && bar.high >= SellLevel(levels, i)
    ensures var price := SellLevel(levels, i);
      var pos := s.held[i].value;
      var commission := Fee(pos.size, price, rate);
      var revenue := Value(pos.size, price) - commission;
      var r := LevelStep(s, levels, i, bar, perGrid, rate);
      && r.balance == s.balance + revenue
      && r.trades == s.trades + [Trade(bar.timestamp, Sell, price, pos.size, commission,
                                       Some(revenue - Value(pos.price, pos.size)), s.balance + revenue)]
      && r.held == s.held[i := None] && r.curve == s.curve
  {}

  /** The levels from i on, in order. */
  function LevelsPass(s: Sim, levels: seq<real>, i: nat, bar: Bar, perGrid: real, rate: real): (r: Sim)
    requires i <= |levels| == |s.held|
    ensures |r.held| == |s.held| && r.curve == s.curve
    decreases |levels| - i
  {
    if i == |levels| then s
    else LevelsPass(LevelStep(s, levels, i, bar, perGrid, rate), levels, i + 1, bar, perGrid, rate)
  }

  /** The value of the held levels at their purchase prices. */
  function HeldValue(held: seq<Option<Holding>>): real
  {
    if held == [] then 0.0
    else HeldValue(held[..|held| - 1]) + (match held[|held| - 1] case None => 0.0 case Some(h) => Value(h.price, h.size))
  }

  /** One bar: every level is checked, then the equity is recorded. */
  function BarStep(s: Sim, levels: seq<real>, bar: Bar, perGrid: real, rate: real): (r: Sim)
    requires |levels| == |s.held|
    ensures |r.held| == |s.held|
  {
    var s1 := LevelsPass(s, levels, 0, bar, perGrid, rate);
    var value := HeldValue(s1.held);
    s1.(curve := s1.curve + [EquityPoint(bar.timestamp, s1.balance, value, s1.balance + value)])
  }

  /** The bars in order. */
  function Run(s: Sim, levels: seq<real>, bars: seq<Bar>, perGrid: real, rate: real): (r: Sim)
    requires |levels| == |s.held|
    ensures |r.held| == |s.held|
    decreases |bars|
  {
    if bars == [] then s
    else Run(BarStep(s, levels, bars[0], perGrid, rate), levels, bars[1..], perGrid, rate)
  }

  /** `simulate_grid_strategy` from the reset state: a grid of 0 makes
      the split of the investment divide by zero (None); otherwise the run
      over the bars with every level free and the investment split
      evenly. */
  function Simulation(initial: real, rate: real, bars: seq<Bar>, lower: real, upper: real, gridNum: nat,
                      investment: real): Option<Sim>
  {
    if gridNum == 0 then None
    else
      var levels := Linspace(lower, upper, gridNum);
      Some(Run(Sim(initial, seq(gridNum, _ => None), [], []), levels, bars, investment / gridNum as real, rate))
  }

  /* ---------------------------------------------------------------------
     What a level check and a pass change
     --------------------------------------------------------------------- */

  /** How many positions two holding lists of one length differ at. */
  function Changed(a: seq<Option<Holding>>, b: seq<Option<Holding>>): nat
    requires |a| == |b|
  {
    if a == [] then 0 else (if a[0] != b[0] then 1 else 0) + Changed(a[1..], b[1..])
  }

  /** A level check records a trade exactly when it changes the level's
      holding, and adds that trade after the earlier ones. */
  lemma LevelStepTrades(s: Sim, levels: seq<real>, i: nat, bar: Bar, perGrid: real, rate: real)
    requires i < |levels| == |s.held|
    ensures var r := LevelStep(s, levels, i, bar, perGrid, rate);
      && |r.trades| == |s.trades| + (if r.held[i] != s.held[i] then 1 else 0)
      && r.trades[..|s.trades|] == s.trades
  {
    var r := LevelStep(s, levels, i, bar, perGrid, rate);
    if |r.trades| != |s.trades| {
      assert r.trades[..|s.trades|] == s.trades;
    }
  }

  /** Each level changes at most once in a bar, and the trades the pass
      records are exactly one per changed level: a level is never both
      bought and sold on one bar. */
  lemma {:induction false} LevelsPassOneTradePerLevel(s: Sim, levels: seq<real>, i: nat, bar: Bar, perGrid: real,
                                                      rate: real)
    requires i <= |levels| == |s.held|
    ensures var r := LevelsPass(s, levels, i, bar, perGrid, rate);
      && |r.trades| == |s.trades| + Changed(s.held[i..], r.held[i..])
      && r.held[..i] == s.held[..i] && r.trades[..|s.trades|] == s.trades
    decreases |levels| - i
  {
    var r := LevelsPass(s, levels, i, bar, perGrid, rate);
    if i == |levels| {
      ChangedSelf(s.held[i..]);
    } else {
      var s1 := LevelStep(s, levels, i, bar, perGrid, rate);
      LevelStepTrades(s, levels, i, bar, perGrid, rate);
      LevelsPassOneTradePerLevel(s1, levels, i + 1, bar, perGrid, rate);
      assert r == LevelsPass(s1, levels, i + 1, bar, perGrid, rate);
      assert r.held[i] == s1.held[i] by {
        assert r.held[..i + 1][i] == s1.held[..i + 1][i];
      }
      assert s1.held[i + 1..] == s.held[i + 1..];
      assert s.held[i..][1..] == s.held[i + 1..] && r.held[i..][1..] == r.held[i + 1..];
      assert r.held[..i] == s.held[..i] by {
        assert r.held[..i] == r.held[..i + 1][..i];
        assert s1.held[..i] == s.held[..i];
      }
      assert r.trades[..|s.trades|] == s.trades by {
        assert r.trades[..|s.trades|] == r.trades[..|s1.trades|][..|s.trades|];
      }
    }
  }

  lemma {:induction false} ChangedSelf(a: seq<Option<Holding>>)
    ensures Changed(a, a) == 0
    decreases |a|
  {
    if a != [] {
      ChangedSelf(a[1..]);
    }
  }

  /* ---------------------------------------------------------------------
     The balance never goes negative
     --------------------------------------------------------------------- */

  /** Every sale, and no purchase, carries a profit. */
  predicate TradesWellFormed(trades: seq<Trade>)
  {
    forall k :: 0 <= k < |trades| ==> (trades[k].side == Sell <==> trades[k].profit.Some?)
  }

  /** A non-negative balance, holdings of non-negative price and size,
      and well-formed trades. */
  predicate Sound(s: Sim)
  {
    s.balance >= 0.0
    && (forall j :: 0 <= j < |s.held| && s.held[j].Some? ==> s.held[j].value.price >= 0.0 && s.held[j].value.size >= 0.0)
    && TradesWellFormed(s.trades)
  }

  /** Every recorded equity is the balance plus the held value, neither
      of them negative. */
  predicate CurveSound(curve: seq<EquityPoint>)
  {
    forall k :: 0 <= k < |curve| ==>
      curve[k].totalEquity == curve[k].balance + curve[k].positionValue
      && curve[k].balance >= 0.0 && curve[k].positionValue >= 0.0
  }

  /** Levels at or above zero, a non-negative investment and a commission
      rate in [0, 1]. */
  predicate Sane(levels: seq<real>, perGrid: real, rate: real)
  {
    (forall j :: 0 <= j < |levels| ==> levels[j] >= 0.0) && perGrid >= 0.0 && 0.0 <= rate <= 1.0
  }

  /** A sale with commission still returns a non-negative amount. */
  lemma RevenueNonNegative(size: real, price: real, rate: real)
    requires size >= 0.0 && price >= 0.0 && 0.0 <= rate <= 1.0
    ensures Value(size, price) - Fee(size, price, rate) >= 0.0
  {
    var x := Value(size, price);
    assert x >= 0.0;
    MulMonotone(x, rate, 1.0);
  }

  /** A purchase only happens when the balance covers it, and a sale adds
      a non-negative revenue, so a level check keeps the state sound. */
  lemma LevelStepSound(s: Sim, levels: seq<real>, i: nat, bar: Bar, perGrid: real, rate: real)
    requires i < |levels| == |s.held| && Sound(s) && Sane(levels, perGrid, rate)
    ensures Sound(LevelStep(s, levels, i, bar, perGrid, rate))
  {
    var level := levels[i];
    if s.held[i].None? && bar.low <= level && level != 0.0 {
      assert perGrid / level >= 0.0;
    } else if s.held[i].Some? {
      var pos := s.held[i].value;
      RevenueNonNegative(pos.size, SellLevel(levels, i), rate);
    }
  }

  lemma {:induction false} LevelsPassSound(s: Sim, levels: seq<real>, i: nat, bar: Bar, perGrid: real, rate: real)
    requires i <= |levels| == |s.held| && Sound(s) && Sane(levels, perGrid, rate)
    ensures Sound(LevelsPass(s, levels, i, bar, perGrid, rate))
    decreases |levels| - i
  {
    if i < |levels| {
      LevelStepSound(s, levels, i, bar, perGrid, rate);
      LevelsPassSound(LevelStep(s, levels, i, bar, perGrid, rate), levels, i + 1, bar, perGrid, rate);
    }
  }

  lemma {:induction false} HeldValueNonNegative(held: seq<Option<Holding>>)
    requires forall j :: 0 <= j < |held| && held[j].Some? ==> held[j].value.price >= 0.0 && held[j].value.size >= 0.0
    ensures HeldValue(held) >= 0.0
    decreases |held|
  {
    if held != [] {
      HeldValueNonNegative(held[..|held| - 1]);
      var last := held[|held| - 1];
      if last.Some? {
        assert Value(last.value.price, last.value.size) >= 0.0;
      }
    }
  }

  /** Over a run the state stays sound, the curve only grows, by one
      entry per bar carrying that bar's timestamp, and every entry is the
      balance plus the held value. */
  lemma {:induction false} RunSound(s: Sim, levels: seq<real>, bars: seq<Bar>, perGrid: real, rate: real)
    requires |levels| == |s.held| && Sound(s) && Sane(levels, perGrid, rate) && CurveSound(s.curve)
    ensures var r := Run(s, levels, bars, perGrid, rate);
      && Sound(r) && CurveSound(r.curve)
      && |r.curve| == |s.curve| + |bars| && r.curve[..|s.curve|] == s.curve
      && (forall k :: 0 <= k < |bars| ==> r.curve[|s.curve| + k].timestamp == bars[k].timestamp)
    decreases |bars|
  {
    var r := Run(s, levels, bars, perGrid, rate);
    if bars != [] {
      var s1 := LevelsPass(s, levels, 0, bars[0], perGrid, rate);
      LevelsPassSound(s, levels, 0, bars[0], perGrid, rate);
      HeldValueNonNegative(s1.held);
      var s2 := BarStep(s, levels, bars[0], perGrid, rate);
      assert s2.curve == s.curve + [s2.curve[|s.curve|]];
      RunSound(s2, levels, bars[1..], perGrid, rate);
      assert r == Run(s2, levels, bars[1..], perGrid, rate);
      assert r.curve[..|s.curve|] == s.curve by {
        assert r.curve[..|s.curve|] == r.curve[..|s2.curve|][..|s.curve|];
      }
      forall k | 0 <= k < |bars|
        ensures r.curve[|s.curve| + k].timestamp == bars[k].timestamp
      {
        if k == 0 {
          assert r.curve[|s.curve|] == r.curve[..|s2.curve|][|s.curve|];
        } else {
          assert bars[1..][k - 1] == bars[k];
        }
      }
    }
  }

  /** The whole simulation on a non-negative range, investment and
      capital: no negative balance, one equity entry per bar, each the
      balance plus the held value, and no bars give the empty result. */
  lemma SimulationSound(initial: real, rate: real, bars: seq<Bar>, lower: real, upper: real, gridNum: nat,
                        investment: real)
    requires initial >= 0.0 && 0.0 <= rate <= 1.0 && 0.0 <= lower <= upper && investment >= 0.0
    ensures var sim := Simulation(initial, rate, bars, lower, upper, gridNum, investment);
      && (sim.None? <==> gridNum == 0)
      && (sim.Some? ==>
            && Sound(sim.value) && CurveSound(sim.value.curve) && |sim.value.curve| == |bars|
            && (MetricsOf(initial, sim.value.curve, sim.value.trades) == Empty <==> bars == []))
  {
    if gridNum > 0 {
      var levels := Linspace(lower, upper, gridNum);
      LinspaceNonNegative(lower, upper, gridNum);
      var start := Sim(initial, seq(gridNum, _ => None), [], []);
      RunSound(start, levels, bars, investment / gridNum as real, rate);
    }
  }

  /* ---------------------------------------------------------------------
     Metrics
     --------------------------------------------------------------------- */

  function Count(trades: seq<Trade>, side: Side): (n: nat)
    ensures n <= |trades|
  {
    if trades == [] then 0 else Count(trades[..|trades| - 1], side) + (if trades[|trades| - 1].side == side then 1 else 0)
  }

  /** Trades whose profit is positive; a purchase counts as profit 0. */
  function Profitable(trades: seq<Trade>): nat
  {
    if trades == [] then 0
    else
      var t := trades[|trades| - 1];
      Profitable(trades[..|trades| - 1]) + (if t.profit.Some? && t.profit.value > 0.0 then 1 else 0)
  }

  /** Every trade is a purchase or a sale, and with well-formed trades
      the profitable ones are among the sales. */
  lemma {:induction false} CountsAddUp(trades: seq<Trade>)
    ensures Count(trades, Buy) + Count(trades, Sell) == |trades|
    ensures TradesWellFormed(trades) ==> Profitable(trades) <= Count(trades, Sell)
    decreases |trades|
  {
    if trades != [] {
      var front := trades[..|trades| - 1];
      CountsAddUp(front);
      assert TradesWellFormed(trades) ==> TradesWellFormed(front) by {
        if TradesWellFormed(trades) {
          assert forall k :: 0 <= k < |front| ==> front[k] == trades[k];
        }
      }
    }
  }

  /** The counting part of the metrics; the return is None when the
      initial capital is 0, where numpy's division gives an infinity or
      NaN. */
  datatype Metrics = Metrics(initialCapital: real, finalEquity: real, totalProfit: real, totalReturn: Option<real>,
                             totalTrades: nat, buyTrades: nat, sellTrades: nat, winRate: real)

  /** What `simulate_grid_strategy` gives back: the raise of a grid of 0,
      the empty result of a run without bars, or the metrics. */
  datatype Outcome = Raised | Empty | Report(metrics: Metrics)

  /** `_calculate_metrics`, its counting part: the final equity and the
      profit on the initial capital, the trade counts and the share of
      sales at a profit. */
  function MetricsOf(initial: real, curve: seq<EquityPoint>, trades: seq<Trade>): Outcome
  {
    if curve == [] then Empty
    else
      var final := curve[|curve| - 1].totalEquity;
      var sells := Count(trades, Sell);
      Report(Metrics(initial, final, final - initial, if initial == 0.0 then None else Some((final - initial) / initial),
                     |trades|, Count(trades, Buy), sells,
                     if sells > 0 then Profitable(trades) as real / sells as real else 0.0))
  }

  /** No curve gives the empty result; the purchases and sales add up to
      the trades; the win rate is a share, 0 without sales; the final
      equity is the last one recorded. */
  lemma MetricsCounts(initial: real, curve: seq<EquityPoint>, trades: seq<Trade>)
    requires TradesWellFormed(trades)
    ensures curve == [] <==> MetricsOf(initial, curve, trades) == Empty
    ensures MetricsOf(initial, curve, trades).Report? ==>
      var m := MetricsOf(initial, curve, trades).metrics;
      && m.buyTrades + m.sellTrades == m.totalTrades == |trades|
      && 0.0 <= m.winRate <= 1.0
      && (m.sellTrades == 0 ==> m.winRate == 0.0)
      && m.finalEquity == curve[|curve| - 1].totalEquity
      && m.totalProfit == m.finalEquity - initial
  {
    CountsAddUp(trades);
    var sells := Count(trades, Sell);
    if sells > 0 {
      DivBetween(Profitable(trades) as real, sells as real, 0.0, 1.0);
    }
  }

  /* ---------------------------------------------------------------------
     The backtester object
     --------------------------------------------------------------------- */

  class Backtester {
    const initialCapital: real
    const commissionRate: real
    var balance: real
    var equityCurve: seq<EquityPoint>
    var trades: seq<Trade>

    /** The two settings as the configuration holds them, None for a key it
        lacks. */
    constructor (initialCapital: Option<real>, commissionRate: Option<real>)
      ensures this.initialCapital == initialCapital.GetOr(DefaultInitialCapital)
      ensures this.commissionRate == commissionRate.GetOr(DefaultCommissionRate)
      ensures balance == this.initialCapital && equityCurve == [] && trades == []
    {
      this.initialCapital := initialCapital.GetOr(DefaultInitialCapital);
      this.commissionRate := commissionRate.GetOr(DefaultCommissionRate);
      balance := this.initialCapital;
      equityCurve := [];
      trades := [];
    }

    /** `simulate_grid_strategy`: the state is reset first, so a grid of 0
        raises with the reset state; otherwise the fields end as the
        simulation's and the metrics of the run come back.  `investment`
        is None when the grid settings lack it, and the initial capital is
        invested then. */
    method SimulateGridStrategy(bars: seq<Bar>, lower: real, upper: real, gridNum: nat, investment: Option<real>)
      returns (r: Outcome)
      modifies this
      ensures var sim := Simulation(initialCapital, commissionRate, bars, lower, upper, gridNum,
                                    investment.GetOr(initialCapital));
        && (sim.None? ==> r == Raised && balance == initialCapital && trades == [] && equityCurve == [])
        && (sim.Some? ==>
              && balance == sim.value.balance && trades == sim.value.trades && equityCurve == sim.value.curve
              && r == MetricsOf(initialCapital, sim.value.curve, sim.value.trades))
    {
      balance := initialCapital;
      equityCurve := [];
      trades := [];
      if gridNum == 0 {
        return Raised;
      }
      var levels := Linspace(lower, upper, gridNum);
      var perGrid := investment.GetOr(initialCapital) / gridNum as real;
      var held: seq<Option<Holding>> := seq(gridNum, _ => None);
      ghost var start := Sim(balance, held, trades, equityCurve);
      var k := 0;
      while k < |bars|
        invariant 0 <= k <= |bars| && |held| == |levels|
        invariant Run(Sim(balance, held, trades, equityCurve), levels, bars[k..], perGrid, commissionRate)
               == Run(start, levels, bars, perGrid, commissionRate)
      {
        ghost var before := Sim(balance, held, trades, equityCurve);
        assert bars[k..][0] == bars[k] && bars[k..][1..] == bars[k + 1..];
        held := CheckLevels(held, levels, bars[k], perGrid);
        var value := HeldValue(held);
        equityCurve := equityCurve + [EquityPoint(bars[k].timestamp, balance, value, balance + value)];
        assert BarStep(before, levels, bars[k], perGrid, commissionRate) == Sim(balance, held, trades, equityCurve);
        k := k + 1;
      }
      assert bars[k..] == [];
      r := CalculateMetrics();
    }

    /** The inner loop of `simulate_grid_strategy`: every level checked on
        one bar. */
    method CheckLevels(held: seq<Option<Holding>>, levels: seq<real>, bar: Bar, perGrid: real)
      returns (after: seq<Option<Holding>>)
      requires |held| == |levels|
      modifies this`balance, this`trades
      ensures Sim(balance, after, trades, equityCurve)
           == LevelsPass(Sim(old(balance), held, old(trades), equityCurve), levels, 0, bar, perGrid, commissionRate)
    {
      ghost var start := Sim(balance, held, trades, equityCurve);
      after := held;
      var i := 0;
      while i < |levels|
        invariant 0 <= i <= |levels| && |after| == |levels|
        invariant LevelsPass(Sim(balance, after, trades, equityCurve), levels, i, bar, perGrid, commissionRate)
               == LevelsPass(start, levels, 0, bar, perGrid, commissionRate)
      {
        after := CheckLevel(after, levels, i, bar, perGrid);
        i := i + 1;
      }
    }

    /** One level of the inner loop on one bar: buy at a free level the bar
        reaches down to, sell a held one whose sell level the bar reaches up
        to. */
    method CheckLevel(held: seq<Option<Holding>>, levels: seq<real>, i: nat, bar: Bar, perGrid: real)
      returns (after: seq<Option<Holding>>)
      requires i < |held| == |levels|
      modifies this`balance, this`trades
      ensures Sim(balance, after, trades, equityCurve)
           == LevelStep(Sim(old(balance), held, old(trades), equityCurve), levels, i, bar, perGrid, commissionRate)
    {
      ghost var s := Sim(balance, held, trades, equityCurve);
      after := held;
      var level := levels[i];
      if held[i].None? && bar.low <= level {
        if level != 0.0 {
          var size := perGrid / level;
          var commission := Fee(size, level, commissionRate);
          var cost := Value(size, level) + commission;
          if balance >= cost {
            balance := balance - cost;
            after := held[i := Some(Holding(level, size))];
            trades := trades + [Trade(bar.timestamp, Buy, level, size, commission, None, balance)];
            LevelStepBuys(s, levels, i, bar, perGrid, commissionRate);
          }
        }
      } else if held[i].Some? && bar.high >= SellLevel(levels, i) {
        var sellPrice := SellLevel(levels, i);
        var pos := held[i].value;
        var commission := Fee(pos.size, sellPrice, commissionRate);
        var revenue := Value(pos.size, sellPrice) - commission;
        balance := balance + revenue;
        trades := trades + [Trade(bar.timestamp, Sell, sellPrice, pos.size, commission,
                                  Some(revenue - Value(pos.price, pos.size)), balance)];
        after := held[i := None];
        LevelStepSells(s, levels, i, bar, perGrid, commissionRate);
      }
    }

    /** `_calculate_metrics` on the recorded curve and trades. */
    method CalculateMetrics() returns (r: Outcome)
      ensures r == MetricsOf(initialCapital, equityCurve, trades)
    {
      if equityCurve == [] {
        return Empty;
      }
      var final := equityCurve[|equityCurve| - 1].totalEquity;
      var buys := Count(trades, Buy);
      var sells := Count(trades, Sell);
      var totalReturn := if initialCapital == 0.0 then None else Some((final - initialCapital) / initialCapital);
      var winRate := if sells > 0 then Profitable(trades) as real / sells as real else 0.0;
      r := Report(Metrics(initialCapital, final, final - initialCapital, totalReturn, |trades|, buys, sells, winRate));
    }
  }
}
