/** The long/short position strategy: it buffers the last prices, and at
    most every 30 seconds reads its position back from the exchange; with a
    position it closes it at the take-profit or stop-loss rate, without one
    it opens a long when the short moving average is above the long one and
    the price above the short one, and a short in the mirrored case.  All
    orders are market orders in net, cross-margin mode. */
module PositionStrategy {
  import opened Wrappers
  import opened Builtins
  import OkxClient
  import opened Market
  import Indicators

  /** The configuration the strategy reads, with its defaults. */
  datatype PositionConfig = PositionConfig(symbol: string, positionSize: real, stopLossRate: real,
                                           takeProfitRate: real, leverage: int,
                                           maShortPeriod: int, maLongPeriod: int)

  const DefaultConfig := PositionConfig("ETH-USDT-SWAP", 0.1, 0.03, 0.05, 5, 5, 20)

  /** The contract defaults kept when the instrument is not listed. */
  const DefaultSpec := ContractSpec(0.01, 1.0, 1.0, true)

  /** With the int defaults in force the opening quantity is a whole
      number of contracts, so `str(contracts)` prints it as an int. */
  lemma DefaultQuantityWhole(coins: real, fmt: Format)
    ensures OpenContracts(coins, DefaultSpec).Some?
    ensures var n := OpenContracts(coins, DefaultSpec).value;
      n == n.Floor as real && n >= 1.0 && SizeText(DefaultSpec, n, fmt) == fmt.ofInt(n.Floor)
  {
    var q := coins / DefaultSpec.contractValue;
    assert LotRounded(q, 1.0) == RoundHalfEven(q / 1.0) as real * 1.0;
  }

  /** Moving-average periods of at least one price. */
  predicate ConfigValid(c: PositionConfig)
  {
    c.maShortPeriod >= 1 && c.maLongPeriod >= 1
  }

  /** What the exchange answers during one analysis: the positions read
      first, the answer to the one order placed, and the positions read
      again after an accepted opening order. */
  datatype TickEnv = TickEnv(positions: PositionsAnswer, order: OrderOutcome, positionsAfter: PositionsAnswer)

  /** The fields the strategy updates, and the requests it sent. */
  datatype StrategyState = StrategyState(price: Option<real>, position: Option<Position>, lastCheck: real,
                                         history: seq<real>, sent: seq<OkxClient.ApiCall>)

  const Initial := StrategyState(None, None, 0.0, [], [])

  /** The buffer stays within the long period and a held position is long
      or short. */
  predicate Consistent(c: PositionConfig, st: StrategyState)
  {
    |st.history| <= c.maLongPeriod
    && (st.position.Some? ==> st.position.value.side == "long" || st.position.value.side == "short")
  }

  /* ---------------------------------------------------------------------
     Entry and exit rules
     --------------------------------------------------------------------- */

  /** `_check_entry_signals`: the moving-average crossover on the buffer. */
  function EntrySignal(c: PositionConfig, history: seq<real>, price: real): Option<string>
    requires ConfigValid(c)
  {
    Indicators.Crossover(history, c.maShortPeriod, c.maLongPeriod, price)
  }

  /** `_check_exit_conditions`: a long or a short is closed when its
      profit rate reaches the take-profit rate or falls to minus the
      stop-loss rate; a zero entry price raises and closes nothing. */
  predicate ExitDue(c: PositionConfig, pos: Position, price: real)
  {
    (pos.side == "long" || pos.side == "short")
    && match ProfitRate(pos, price)
       case None => false
       case Some(rate) => rate >= c.takeProfitRate || rate <= -c.stopLossRate
  }

  /** In prices: a long closes at or above entry * (1 + tp) or at or below
      entry * (1 - sl); a short at or below entry * (1 - tp) or at or above
      entry * (1 + sl). */
  lemma ExitDuePrices(c: PositionConfig, pos: Position, price: real)
    requires pos.entryPrice > 0.0
    ensures var e := pos.entryPrice;
      pos.side == "long" ==>
        (ExitDue(c, pos, price) <==> price >= e + c.takeProfitRate * e || price <= e - c.stopLossRate * e)
    ensures var e := pos.entryPrice;
      pos.side == "short" ==>
        (ExitDue(c, pos, price) <==> price <= e - c.takeProfitRate * e || price >= e + c.stopLossRate * e)
    ensures pos.side != "long" && pos.side != "short" ==> !ExitDue(c, pos, price)
  {
    ProfitRateThreshold(pos, price, c.takeProfitRate);
    ProfitRateThreshold(pos, price, -c.stopLossRate);
    assert -c.stopLossRate * pos.entryPrice == -(c.stopLossRate * pos.entryPrice);
  }

  /* ---------------------------------------------------------------------
     Opening and closing
     --------------------------------------------------------------------- */

  /** `_open_position`: the quantity in contracts, a market order on the
      opening side, and on acceptance the position read again.  A zero
      contract value or size step raises before the order. */
  function Opened(c: PositionConfig, spec: ContractSpec, st: StrategyState, side: string,
                  env: TickEnv, fmt: Format): StrategyState
  {
    match OpenContracts(c.positionSize, spec)
    case None => st
    case Some(n) =>
      var st1 := st.(sent := st.sent + [MarketOrder(c.symbol, OpenSide(side), SizeText(spec, n, fmt))]);
      if PlacedOrderId(env.order).Some? then st1.(position := ReadPosition(st1.position, env.positionsAfter))
      else st1
  }

  /** The quantity `_close_position` sends: the held contracts truncated
      to an integer. */
  function CloseQuantity(pos: Position): int
  {
    Trunc(pos.contracts)
  }

  /** The truncated quantity never exceeds the position, misses less than
      one contract of it, and is the whole position exactly when the
      position is a whole number of contracts. */
  lemma CloseQuantityTruncates(pos: Position)
    requires pos.contracts >= 0.0
    ensures 0 <= CloseQuantity(pos)
    ensures CloseQuantity(pos) as real <= pos.contracts < CloseQuantity(pos) as real + 1.0
    ensures CloseQuantity(pos) as real == pos.contracts <==> pos.contracts == pos.contracts.Floor as real
  {
  }

  /** `_close_position`: a market order on the closing side for the
      truncated quantity; an accepted order clears the position. */
  function Closed(c: PositionConfig, st: StrategyState, env: TickEnv, fmt: Format): StrategyState
  {
    match st.position
    case None => st
    case Some(pos) =>
      var st1 := st.(sent := st.sent + [MarketOrder(c.symbol, CloseSide(pos.side), fmt.ofInt(CloseQuantity(pos)))]);
      if PlacedOrderId(env.order).Some? then st1.(position := None) else st1
  }

  /** Entry check on the state's price; without a price the comparison
      raises and nothing happens. */
  function Entered(c: PositionConfig, spec: ContractSpec, st: StrategyState, env: TickEnv, fmt: Format): StrategyState
    requires ConfigValid(c)
  {
    match st.price
    case None => st
    case Some(p) =>
      match EntrySignal(c, st.history, p)
      case None => st
      case Some(side) => Opened(c, spec, st, side, env, fmt)
  }

  /** Exit check on the state's price. */
  function Exited(c: PositionConfig, st: StrategyState, env: TickEnv, fmt: Format): StrategyState
  {
    if st.position.Some? && st.price.Some? && ExitDue(c, st.position.value, st.price.value)
    then Closed(c, st, env, fmt)
    else st
  }

  /** The analysis: the position read back, then exit or entry. */
  function Analysed(c: PositionConfig, spec: ContractSpec, st: StrategyState, env: TickEnv, fmt: Format): StrategyState
    requires ConfigValid(c)
  {
    var st1 := st.(position := ReadPosition(st.position, env.positions));
    if st1.position.Some? then Exited(c, st1, env, fmt) else Entered(c, spec, st1, env, fmt)
  }

  /** `on_tick`: a missing or non-positive price is ignored; otherwise it is
      the current price and enters the buffer, and the analysis runs when
      30 seconds have passed since the last one. */
  function Tick(c: PositionConfig, spec: ContractSpec, st: StrategyState, lasts: seq<Option<real>>,
                now: real, env: TickEnv, fmt: Format): StrategyState
    requires ConfigValid(c)
  {
    match TickerPrice(lasts)
    case None => st
    case Some(p) =>
      var st1 := st.(price := Some(p), history := Pushed(st.history, p, c.maLongPeriod));
      if !Due(now, st1.lastCheck) then st1
      else Analysed(c, spec, st1.(lastCheck := now), env, fmt)
  }

  /** `close_all_positions`: read the position, and close it if one is
      held. */
  function ClosedAll(c: PositionConfig, st: StrategyState, env: TickEnv, fmt: Format): StrategyState
  {
    var st1 := st.(position := ReadPosition(st.position, env.positions));
    if st1.position.Some? then Closed(c, st1, env, fmt) else st1
  }

  /* ---------------------------------------------------------------------
     What a tick does
     --------------------------------------------------------------------- */

  /** Opening or closing appends at most one market order on the
      strategy's symbol, keeps the buffer, and leaves a long or a short or
      nothing. */
  predicate OneOrderStep(c: PositionConfig, st: StrategyState, r: StrategyState)
  {
    && Consistent(c, r)
    && r.history == st.history && r.price == st.price && r.lastCheck == st.lastCheck
    && AtMostOneMarketOrder(c.symbol, st.sent, r.sent)
  }

  lemma OpenedOneOrder(c: PositionConfig, spec: ContractSpec, st: StrategyState, side: string, env: TickEnv, fmt: Format)
    requires Consistent(c, st)
    ensures OneOrderStep(c, st, Opened(c, spec, st, side, env, fmt))
  {
    ReadPositionShape(st.position, env.positionsAfter);
    var r := Opened(c, spec, st, side, env, fmt);
    if r.sent != st.sent {
      AppendedMarketOrder(st.sent, c.symbol, OpenSide(side), SizeText(spec, OpenContracts(c.positionSize, spec).value, fmt));
    } else {
      NothingAppended(c.symbol, st.sent);
    }
  }

  lemma ClosedOneOrder(c: PositionConfig, st: StrategyState, env: TickEnv, fmt: Format)
    requires Consistent(c, st)
    ensures OneOrderStep(c, st, Closed(c, st, env, fmt))
  {
    var r := Closed(c, st, env, fmt);
    if st.position.Some? {
      var pos := st.position.value;
      AppendedMarketOrder(st.sent, c.symbol, CloseSide(pos.side), fmt.ofInt(CloseQuantity(pos)));
    } else {
      NothingAppended(c.symbol, st.sent);
    }
  }

  /** The analysis sends at most one order, keeps the buffer and the state
      consistent. */
  lemma AnalysedOneOrder(c: PositionConfig, spec: ContractSpec, st: StrategyState, env: TickEnv, fmt: Format)
    requires ConfigValid(c) && Consistent(c, st)
    ensures OneOrderStep(c, st, Analysed(c, spec, st, env, fmt))
  {
    var st1 := st.(position := ReadPosition(st.position, env.positions));
    ReadPositionShape(st.position, env.positions);
    NothingAppended(c.symbol, st.sent);
    assert OneOrderStep(c, st, st1);
    if st1.position.Some? {
      if st1.price.Some? && ExitDue(c, st1.position.value, st1.price.value) {
        ClosedOneOrder(c, st1, env, fmt);
        assert Analysed(c, spec, st, env, fmt) == Closed(c, st1, env, fmt);
      } else {
        assert Analysed(c, spec, st, env, fmt) == st1;
      }
    } else if st1.price.Some? && EntrySignal(c, st1.history, st1.price.value).Some? {
      var side := EntrySignal(c, st1.history, st1.price.value).value;
      OpenedOneOrder(c, spec, st1, side, env, fmt);
      assert Analysed(c, spec, st, env, fmt) == Opened(c, spec, st1, side, env, fmt);
    } else {
      assert Analysed(c, spec, st, env, fmt) == st1;
    }
  }

  /** A tick keeps the state consistent, sends at most one order, a market
      order on the strategy's symbol, and keeps the requests sent before. */
  lemma TickAtMostOneOrder(c: PositionConfig, spec: ContractSpec, st: StrategyState, lasts: seq<Option<real>>,
                           now: real, env: TickEnv, fmt: Format)
    requires ConfigValid(c) && Consistent(c, st)
    ensures var r := Tick(c, spec, st, lasts, now, env, fmt);
      Consistent(c, r) && AtMostOneMarketOrder(c.symbol, st.sent, r.sent)
  {
    NothingAppended(c.symbol, st.sent);
    match TickerPrice(lasts)
    case None =>
    case Some(p) =>
      PushedBounded(st.history, p, c.maLongPeriod);
      var st1 := st.(price := Some(p), history := Pushed(st.history, p, c.maLongPeriod));
      if Due(now, st1.lastCheck) {
        var st2 := st1.(lastCheck := now);
        AnalysedOneOrder(c, spec, st2, env, fmt);
        assert Tick(c, spec, st, lasts, now, env, fmt) == Analysed(c, spec, st2, env, fmt);
      } else {
        assert Tick(c, spec, st, lasts, now, env, fmt) == st1;
      }
  }

  /** A usable price becomes the current price and joins the buffer, which
      then holds the newest prices up to the long period; a missing or
      non-positive price changes nothing. */
  lemma TickBuffersPrice(c: PositionConfig, spec: ContractSpec, st: StrategyState, lasts: seq<Option<real>>,
                         now: real, env: TickEnv, fmt: Format)
    requires ConfigValid(c) && |st.history| <= c.maLongPeriod
    ensures TickerPrice(lasts).None? ==> Tick(c, spec, st, lasts, now, env, fmt) == st
    ensures TickerPrice(lasts).Some? ==>
      var r := Tick(c, spec, st, lasts, now, env, fmt);
      var n := if |st.history| < c.maLongPeriod then |st.history| + 1 else c.maLongPeriod;
      && r.price == TickerPrice(lasts)
      && r.history == LastN(st.history + [lasts[0].value], n)
  {
    if TickerPrice(lasts).Some? {
      var p := lasts[0].value;
      PushedBounded(st.history, p, c.maLongPeriod);
      var st1 := st.(price := Some(p), history := Pushed(st.history, p, c.maLongPeriod));
      if Due(now, st1.lastCheck) {
        AnalysedKeepsBuffer(c, spec, st1.(lastCheck := now), env, fmt);
      }
    }
  }

  lemma AnalysedKeepsBuffer(c: PositionConfig, spec: ContractSpec, st: StrategyState, env: TickEnv, fmt: Format)
    requires ConfigValid(c)
    ensures var r := Analysed(c, spec, st, env, fmt);
      r.history == st.history && r.price == st.price && r.lastCheck == st.lastCheck
  {
  }

  /** Within 30 seconds of the last analysis a tick sends nothing and
      leaves the position; after that the analysis runs and is stamped. */
  lemma TickThrottled(c: PositionConfig, spec: ContractSpec, st: StrategyState, lasts: seq<Option<real>>,
                      now: real, env: TickEnv, fmt: Format)
    requires ConfigValid(c)
    ensures var r := Tick(c, spec, st, lasts, now, env, fmt);
      (TickerPrice(lasts).None? || now - st.lastCheck < 30.0) ==>
        r.sent == st.sent && r.position == st.position && r.lastCheck == st.lastCheck
    ensures var r := Tick(c, spec, st, lasts, now, env, fmt);
      TickerPrice(lasts).Some? && now - st.lastCheck >= 30.0 ==> r.lastCheck == now
  {
    match TickerPrice(lasts)
    case None =>
    case Some(p) =>
      var st1 := st.(price := Some(p), history := Pushed(st.history, p, c.maLongPeriod));
      if Due(now, st1.lastCheck) {
        AnalysedKeepsBuffer(c, spec, st1.(lastCheck := now), env, fmt);
        assert Tick(c, spec, st, lasts, now, env, fmt) == Analysed(c, spec, st1.(lastCheck := now), env, fmt);
      } else {
        assert Tick(c, spec, st, lasts, now, env, fmt) == st1;
      }
  }

  /** Holding nothing after the read-back, an entry signal sends exactly
      one opening order for the sized quantity on the signal's side, and
      the position is read again only when the order was accepted. */
  lemma TickOpensOnSignal(c: PositionConfig, spec: ContractSpec, st: StrategyState, lasts: seq<Option<real>>,
                          now: real, env: TickEnv, fmt: Format)
    requires ConfigValid(c)
    requires TickerPrice(lasts).Some? && now - st.lastCheck >= 30.0
    requires ReadPosition(st.position, env.positions).None?
    requires spec.contractValue != 0.0 && spec.lotSize != 0.0
    ensures var p := lasts[0].value;
      var signal := EntrySignal(c, Pushed(st.history, p, c.maLongPeriod), p);
      var r := Tick(c, spec, st, lasts, now, env, fmt);
      && (signal.None? ==> r.sent == st.sent && r.position.None?)
      && (signal.Some? ==>
            && r.sent == st.sent + [MarketOrder(c.symbol, OpenSide(signal.value),
                                                SizeText(spec, OpenContracts(c.positionSize, spec).value, fmt))]
            && OpenContracts(c.positionSize, spec).value >= spec.minSize
            && r.position == if PlacedOrderId(env.order).Some? then ReadPosition(None, env.positionsAfter) else None)
  {
  }

  /** Holding a position after the read-back, the tick closes it exactly
      when the exit rule holds, with one order on the closing side for the
      truncated quantity, and the position is gone exactly when the order
      was accepted. */
  lemma TickClosesOnExit(c: PositionConfig, spec: ContractSpec, st: StrategyState, lasts: seq<Option<real>>,
                         now: real, env: TickEnv, fmt: Format)
    requires ConfigValid(c)
    requires TickerPrice(lasts).Some? && now - st.lastCheck >= 30.0
    requires ReadPosition(st.position, env.positions).Some?
    ensures var pos := ReadPosition(st.position, env.positions).value;
      var r := Tick(c, spec, st, lasts, now, env, fmt);
      && (!ExitDue(c, pos, lasts[0].value) ==> r.sent == st.sent && r.position == Some(pos))
      && (ExitDue(c, pos, lasts[0].value) ==>
            && r.sent == st.sent + [MarketOrder(c.symbol, CloseSide(pos.side), fmt.ofInt(Trunc(pos.contracts)))]
            && (r.position.None? <==> PlacedOrderId(env.order).Some?)
            && (r.position.Some? ==> r.position == Some(pos)))
  {
  }

  /* ---------------------------------------------------------------------
     The strategy object
     --------------------------------------------------------------------- */

  /** `get_status`. */
  datatype PositionStatus = PositionStatus(symbol: string, currentPrice: Option<real>, position: Option<Position>,
                                           maShort: Option<real>, maLong: Option<real>)

  class PositionStrategy {
    const config: PositionConfig
    const spec: ContractSpec
    var currentPrice: Option<real>
    var currentPosition: Option<Position>
    var lastCheckTime: real
    var priceHistory: seq<real>
    var sent: seq<OkxClient.ApiCall>

    ghost predicate Valid()
      reads this
    {
      ConfigValid(config) && Consistent(config, State())
    }

    function State(): StrategyState
      reads this
    {
      StrategyState(currentPrice, currentPosition, lastCheckTime, priceHistory, sent)
    }

    /** `instruments` is the instruments list, None when the request raised
        or did not answer code '0'. */
    constructor (config: PositionConfig, instruments: Option<seq<Instrument>>)
      requires ConfigValid(config)
      ensures Valid() && this.config == config
      ensures spec == LoadSpec(config.symbol, instruments, DefaultSpec)
      ensures State() == Initial
    {
      this.config := config;
      spec := LoadSpec(config.symbol, instruments, DefaultSpec);
      currentPrice := None;
      currentPosition := None;
      lastCheckTime := 0.0;
      priceHistory := [];
      sent := [];
    }

    /** `_calculate_ma`. */
    function CalculateMa(period: int): (r: Option<real>)
      requires period >= 1
      reads this
      ensures r.None? <==> |priceHistory| < period
    {
      Indicators.MovingAverage(priceHistory, period)
    }

    method UpdatePosition(answer: PositionsAnswer)
      requires Valid()
      modifies this
      ensures Valid()
      ensures State() == old(State()).(position := ReadPosition(old(currentPosition), answer))
    {
      ReadPositionShape(currentPosition, answer);
      match answer
      case PositionsRaised =>
      case PositionsReply(code, entries) =>
        if code.None? {
          // the lookup of 'code' raises and the handler keeps the position
        } else if code == Some("0") && entries != [] {
          currentPosition := FindOpenPosition(entries);
        } else {
          currentPosition := None;
        }
    }

    method OpenPosition(side: string, env: TickEnv, fmt: Format)
      requires Valid()
      modifies this
      ensures Valid()
      ensures State() == Opened(config, spec, old(State()), side, env, fmt)
    {
      if spec.contractValue == 0.0 || spec.lotSize == 0.0 {
        return;
      }
      var contracts := OrderSize(config.positionSize / spec.contractValue, spec);
      sent := sent + [MarketOrder(config.symbol, OpenSide(side), SizeText(spec, contracts, fmt))];
      if PlacedOrderId(env.order).Some? {
        UpdatePosition(env.positionsAfter);
      }
    }

    method ClosePosition(env: TickEnv, fmt: Format)
      requires Valid()
      modifies this
      ensures Valid()
      ensures State() == Closed(config, old(State()), env, fmt)
    {
      if currentPosition.None? {
        return;
      }
      var pos := currentPosition.value;
      sent := sent + [MarketOrder(config.symbol, CloseSide(pos.side), fmt.ofInt(Trunc(pos.contracts)))];
      if PlacedOrderId(env.order).Some? {
        currentPosition := None;
      }
    }

    method CheckEntrySignals(env: TickEnv, fmt: Format)
      requires Valid()
      modifies this
      ensures Valid()
      ensures State() == Entered(config, spec, old(State()), env, fmt)
    {
      if |priceHistory| < config.maLongPeriod || currentPrice.None? {
        return;
      }
      var maShort := CalculateMa(config.maShortPeriod);
      var maLong := CalculateMa(config.maLongPeriod);
      if maShort.None? || maLong.None? {
        return;
      }
      var p := currentPrice.value;
      if maShort.value > maLong.value && p > maShort.value {
        OpenPosition("long", env, fmt);
      } else if maShort.value < maLong.value && p < maShort.value {
        OpenPosition("short", env, fmt);
      }
    }

    method CheckExitConditions(env: TickEnv, fmt: Format)
      requires Valid()
      modifies this
      ensures Valid()
      ensures State() == Exited(config, old(State()), env, fmt)
    {
      if currentPosition.None? || currentPrice.None? {
        return;
      }
      var pos := currentPosition.value;
      if pos.entryPrice == 0.0 {
        return;
      }
      var p := currentPrice.value;
      if pos.side == "long" {
        var rate := (p - pos.entryPrice) / pos.entryPrice;
        if rate >= config.takeProfitRate || rate <= -config.stopLossRate {
          ClosePosition(env, fmt);
        }
      } else if pos.side == "short" {
        var rate := (pos.entryPrice - p) / pos.entryPrice;
        if rate >= config.takeProfitRate || rate <= -config.stopLossRate {
          ClosePosition(env, fmt);
        }
      }
    }

    /** `on_tick`: `lasts` holds the ticker entries' last prices and `now`
        the clock. */
    method OnTick(lasts: seq<Option<real>>, now: real, env: TickEnv, fmt: Format)
      requires Valid()
      modifies this
      ensures Valid()
      ensures State() == Tick(config, spec, old(State()), lasts, now, env, fmt)
    {
      if lasts == [] {
        return;
      }
      var last := lasts[0].GetOr(0.0);
      if last <= 0.0 {
        return;
      }
      PushedBounded(priceHistory, last, config.maLongPeriod);
      currentPrice := Some(last);
      priceHistory := priceHistory + [last];
      if |priceHistory| > config.maLongPeriod {
        priceHistory := priceHistory[1..];
      }
      if now - lastCheckTime < 30.0 {
        return;
      }
      lastCheckTime := now;
      UpdatePosition(env.positions);
      if currentPosition.Some? {
        CheckExitConditions(env, fmt);
      } else {
        CheckEntrySignals(env, fmt);
      }
    }

    method CloseAllPositions(env: TickEnv, fmt: Format)
      requires Valid()
      modifies this
      ensures Valid()
      ensures State() == ClosedAll(config, old(State()), env, fmt)
    {
      UpdatePosition(env.positions);
      if currentPosition.Some? {
        ClosePosition(env, fmt);
      }
    }

    /** `get_status`: each average is absent until the buffer holds its
        period. */
    function Status(): (r: PositionStatus)
      requires ConfigValid(config)
      reads this
      ensures r.maShort.None? <==> |priceHistory| < config.maShortPeriod
      ensures r.maLong.None? <==> |priceHistory| < config.maLongPeriod
      ensures r.position == currentPosition && r.currentPrice == currentPrice
    {
      PositionStatus(config.symbol, currentPrice, currentPosition,
                     CalculateMa(config.maShortPeriod), CalculateMa(config.maLongPeriod))
    }
  }
}
