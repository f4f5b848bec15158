/** What the trading strategies share: the contract details read from the
    instruments list, the order quantity rounded to the size step, the
    position read back from the positions list, the market orders that
    open and close a position, the capped price buffer and the 30-second
    analysis throttle, and the win/loss statistics kept after each closed
    trade.  Every strategy repeats these in its own class; they are stated
    once here. */
module Market {
  import opened Wrappers
  import opened Builtins
  import Helpers
  import OkxClient

  /* ---------------------------------------------------------------------
     Contract details
     --------------------------------------------------------------------- */

  /** An entry of the instruments list; a field the entry lacks is None. */
  datatype Instrument = Instrument(instId: string, ctVal: Option<real>, minSz: Option<real>, lotSz: Option<real>)

  /** Contract value, minimum order size and size step, in contracts.
      `intSizes` holds while the minimum and the step are still Python
      ints, as a strategy's literal defaults can be; every value read from
      the instruments list goes through float(). */
  datatype ContractSpec = ContractSpec(contractValue: real, minSize: real, lotSize: real, intSizes: bool)

  /** The entry's details, each missing field taken from the strategy's
      own defaults. */
  function SpecOf(inst: Instrument, defaults: ContractSpec): (r: ContractSpec)
    ensures inst.ctVal.Some? ==> r.contractValue == inst.ctVal.value
    ensures inst.ctVal.None? ==> r.contractValue == defaults.contractValue
    ensures !r.intSizes
  {
    ContractSpec(inst.ctVal.GetOr(defaults.contractValue), inst.minSz.GetOr(defaults.minSize),
                 inst.lotSz.GetOr(defaults.lotSize), false)
  }

  /** The details of the first listed instrument with the symbol. */
  function FirstSpec(symbol: string, list: seq<Instrument>, defaults: ContractSpec): ContractSpec
  {
    if list == [] then defaults
    else if list[0].instId == symbol then SpecOf(list[0], defaults)
    else FirstSpec(symbol, list[1..], defaults)
  }

  /** The constructors' lookup: `instruments` is None when the request
      raised or did not answer code '0', and the defaults stay then. */
  function LoadSpec(symbol: string, instruments: Option<seq<Instrument>>, defaults: ContractSpec): ContractSpec
  {
    match instruments
    case None => defaults
    case Some(list) => FirstSpec(symbol, list, defaults)
  }

  /** The first entry with the symbol decides; without one the defaults
      stay. */
  lemma {:induction false} FirstSpecIsFirstMatch(symbol: string, list: seq<Instrument>, defaults: ContractSpec, i: nat)
    requires i < |list| && list[i].instId == symbol
    requires forall j :: 0 <= j < i ==> list[j].instId != symbol
    ensures FirstSpec(symbol, list, defaults) == SpecOf(list[i], defaults)
  {
    if i > 0 {
      FirstSpecIsFirstMatch(symbol, list[1..], defaults, i - 1);
    }
  }

  lemma {:induction false} FirstSpecNoMatch(symbol: string, list: seq<Instrument>, defaults: ContractSpec)
    requires forall j :: 0 <= j < |list| ==> list[j].instId != symbol
    ensures FirstSpec(symbol, list, defaults) == defaults
  {
    if list != [] {
      FirstSpecNoMatch(symbol, list[1..], defaults);
    }
  }

  /** Only the defaults can keep int sizes: a listed instrument's sizes
      are floats. */
  lemma {:induction false} LoadSpecIntSizes(symbol: string, instruments: Option<seq<Instrument>>, defaults: ContractSpec)
    ensures LoadSpec(symbol, instruments, defaults).intSizes ==> LoadSpec(symbol, instruments, defaults) == defaults
  {
    if instruments.Some? {
      FirstSpecIntSizes(symbol, instruments.value, defaults);
    }
  }

  lemma {:induction false} FirstSpecIntSizes(symbol: string, list: seq<Instrument>, defaults: ContractSpec)
    ensures FirstSpec(symbol, list, defaults).intSizes ==> FirstSpec(symbol, list, defaults) == defaults
  {
    if list != [] && list[0].instId != symbol {
      FirstSpecIntSizes(symbol, list[1..], defaults);
    }
  }

  /* ---------------------------------------------------------------------
     Order quantity
     --------------------------------------------------------------------- */

  /** round(contracts / lot) * lot. */
  function LotRounded(contracts: real, lot: real): real
    requires lot != 0.0
  {
    RoundHalfEven(contracts / lot) as real * lot
  }

  /** The quantity sent: rounded to the size step and raised to the
      minimum size. */
  function OrderSize(contracts: real, spec: ContractSpec): (r: real)
    requires spec.lotSize != 0.0
    ensures r >= spec.minSize
  {
    var rounded := LotRounded(contracts, spec.lotSize);
    if rounded < spec.minSize then spec.minSize else rounded
  }

  /** Unless the minimum applies, the quantity is a whole number of size
      steps and the nearest such to the wanted quantity. */
  lemma OrderSizeNearestLot(contracts: real, spec: ContractSpec)
    requires spec.lotSize > 0.0
    requires LotRounded(contracts, spec.lotSize) >= spec.minSize
    ensures Abs(OrderSize(contracts, spec) - contracts) <= spec.lotSize / 2.0
    ensures OrderSize(contracts, spec) == RoundHalfEven(contracts / spec.lotSize) as real * spec.lotSize
  {
    var lot := spec.lotSize;
    var q := contracts / lot;
    Helpers.DivMulCancel(contracts, lot);
    ScaleHalfBound(q, lot, RoundHalfEven(q) as real, contracts);
  }

  /** A number within half a unit of x, scaled by lot, lies within half a
      lot of x * lot. */
  lemma ScaleHalfBound(x: real, lot: real, k: real, c: real)
    requires lot > 0.0 && x * lot == c && x - 0.5 <= k <= x + 0.5
    ensures c - lot / 2.0 <= k * lot <= c + lot / 2.0
  {
    var d := k - x;
    HalfMul(d, lot);
    Helpers.SubMul(k, x, lot);
    assert d * lot == k * lot - x * lot;
    assert -lot / 2.0 <= d * lot;
    assert k * lot == d * lot + c;
  }

  lemma HalfMul(d: real, lot: real)
    requires lot > 0.0 && -0.5 <= d <= 0.5
    ensures -lot / 2.0 <= d * lot <= lot / 2.0
  {
  }

  /** `str(contracts)` for an opening quantity: with int minimum and step
      the quantity is an int, printed without a decimal point; otherwise
      it is a float. */
  function SizeText(spec: ContractSpec, n: real, fmt: Format): string
  {
    if spec.intSizes then fmt.ofInt(n.Floor) else fmt.ofReal(n)
  }

  /** The opening quantity: the wanted coins in contracts, rounded and
      floored at the minimum; a zero contract value or size step raises
      ZeroDivisionError, which the strategies catch and place nothing. */
  function OpenContracts(coins: real, spec: ContractSpec): (r: Option<real>)
    ensures r.Some? <==> spec.contractValue != 0.0 && spec.lotSize != 0.0
    ensures r.Some? ==> r.value >= spec.minSize
  {
    if spec.contractValue == 0.0 || spec.lotSize == 0.0 then None
    else Some(OrderSize(coins / spec.contractValue, spec))
  }

  /* ---------------------------------------------------------------------
     Positions
     --------------------------------------------------------------------- */

  /** An entry of the positions list: its signed size `pos` and its
      average price (0 when absent). */
  datatype PositionEntry = PositionEntry(pos: real, avgPx: real)

  /** The answer to get_positions: the request raised, or a reply with its
      code (None when the reply has no code, which raises on lookup). */
  datatype PositionsAnswer = PositionsRaised | PositionsReply(code: Option<string>, entries: seq<PositionEntry>)

  /** The position the strategies hold in memory. */
  datatype Position = Position(side: string, size: real, entryPrice: real, contracts: real)

  /** The first entry with a non-zero size, as a position: long for a
      positive size and short for a negative one. */
  function FirstOpen(entries: seq<PositionEntry>): (r: Option<Position>)
    ensures r.Some? ==> r.value.side == "long" || r.value.side == "short"
    ensures r.Some? ==> r.value.size > 0.0 && r.value.contracts == r.value.size
  {
    if entries == [] then None
    else if entries[0].pos != 0.0 then
      var p := entries[0].pos;
      Some(Position(if p > 0.0 then "long" else "short", Abs(p), entries[0].avgPx, Abs(p)))
    else FirstOpen(entries[1..])
  }

  /** `_update_position`: an exception keeps the position held; a reply
      with code '0' and entries gives the first open one, if any; any other
      reply clears it. */
  function ReadPosition(held: Option<Position>, answer: PositionsAnswer): Option<Position>
  {
    match answer
    case PositionsRaised => held
    case PositionsReply(code, entries) =>
      if code.None? then held
      else if code == Some("0") && entries != [] then FirstOpen(entries)
      else None
  }

  /** The position read is the first entry with a non-zero size, on the
      side its sign gives, with the size taken absolutely. */
  lemma {:induction false} FirstOpenIsFirstNonZero(entries: seq<PositionEntry>, i: nat)
    requires i < |entries| && entries[i].pos != 0.0
    requires forall j :: 0 <= j < i ==> entries[j].pos == 0.0
    ensures FirstOpen(entries) == Some(Position(if entries[i].pos > 0.0 then "long" else "short",
                                                Abs(entries[i].pos), entries[i].avgPx, Abs(entries[i].pos)))
  {
    if i > 0 {
      FirstOpenIsFirstNonZero(entries[1..], i - 1);
    }
  }

  lemma {:induction false} FirstOpenAllFlat(entries: seq<PositionEntry>)
    requires forall j :: 0 <= j < |entries| ==> entries[j].pos == 0.0
    ensures FirstOpen(entries) == None
  {
    if entries != [] {
      FirstOpenAllFlat(entries[1..]);
    }
  }

  /** The loop of `_update_position` over the positions list. */
  method FindOpenPosition(entries: seq<PositionEntry>) returns (r: Option<Position>)
    ensures r == FirstOpen(entries)
  {
    var i := 0;
    while i < |entries|
      invariant 0 <= i <= |entries|
      invariant FirstOpen(entries) == FirstOpen(entries[i..])
    {
      assert entries[i..][1..] == entries[i + 1..];
      var p := entries[i].pos;
      if p != 0.0 {
        return Some(Position(if p > 0.0 then "long" else "short", Abs(p), entries[i].avgPx, Abs(p)));
      }
      i := i + 1;
    }
    return None;
  }

  /** A position read back is always long or short with a positive size;
      it is kept only when the request failed. */
  lemma ReadPositionShape(held: Option<Position>, answer: PositionsAnswer)
    ensures var r := ReadPosition(held, answer);
      && (r != held ==> r.None? || (r.value.side in {"long", "short"} && r.value.size > 0.0))
      && (answer.PositionsReply? && answer.code.Some? && (answer.code != Some("0") || answer.entries == []) ==> r.None?)
  {
  }

  /** The profit rate of a position at a price, as a fraction of the entry
      price: the rise for a long, the fall otherwise.  A zero entry price
      makes the division raise, which the strategies' handlers swallow:
      None. */
  function ProfitRate(pos: Position, price: real): (r: Option<real>)
    ensures r.None? <==> pos.entryPrice == 0.0
  {
    if pos.entryPrice == 0.0 then None
    else if pos.side == "long" then Some((price - pos.entryPrice) / pos.entryPrice)
    else Some((pos.entryPrice - price) / pos.entryPrice)
  }

  /** For a long or a short this is the helpers' profit rate. */
  lemma ProfitRateIsPnlRate(pos: Position, price: real)
    requires pos.side == "long" || pos.side == "short"
    ensures var h := Helpers.PnlRate(pos.entryPrice, price, pos.side);
      && (ProfitRate(pos, price).Some? <==> h.Ok?)
      && (h.Ok? ==> ProfitRate(pos, price).value == h.value)
  {
    assert Lower("long") == "long";
    assert Lower("short") == "short";
  }

  /** A rate threshold is a price threshold: for a positive entry price a
      long's rate reaches t exactly when the price reaches entry + t * entry,
      and a short's when the price falls to entry - t * entry. */
  lemma ProfitRateThreshold(pos: Position, price: real, t: real)
    requires pos.entryPrice > 0.0
    ensures pos.side == "long" ==>
      && (ProfitRate(pos, price).value >= t <==> price >= pos.entryPrice + t * pos.entryPrice)
      && (ProfitRate(pos, price).value <= t <==> price <= pos.entryPrice + t * pos.entryPrice)
    ensures pos.side != "long" ==>
      && (ProfitRate(pos, price).value >= t <==> price <= pos.entryPrice - t * pos.entryPrice)
      && (ProfitRate(pos, price).value <= t <==> price >= pos.entryPrice - t * pos.entryPrice)
  {
    var e := pos.entryPrice;
    var d := if pos.side == "long" then price - e else e - price;
    assert ProfitRate(pos, price).value == d / e;
    QuotientVersusBound(d, e, t);
  }

  /** For a positive divisor, comparing a quotient with t is comparing the
      dividend with t times the divisor. */
  lemma QuotientVersusBound(d: real, e: real, t: real)
    requires e > 0.0
    ensures d / e >= t <==> d >= t * e
    ensures d / e <= t <==> d <= t * e
  {
    Helpers.DivMulCancel(d, e);
    var q := d / e;
    assert q * e == d;
    if q < t {
      assert q * e < t * e;
    }
    if q > t {
      assert q * e > t * e;
    }
  }

  /* ---------------------------------------------------------------------
     Market orders
     --------------------------------------------------------------------- */

  /** How a quantity is written into an order: str() of a float or of an
      int. */
  datatype Format = Format(ofReal: real -> string, ofInt: int -> string)

  /** The order side that opens a position, and the one that closes it. */
  function OpenSide(side: string): string
  {
    if side == "long" then "buy" else "sell"
  }

  function CloseSide(side: string): string
  {
    if side == "long" then "sell" else "buy"
  }

  /** Closing a long or a short trades against the side that opened it. */
  lemma CloseSideOpposite(side: string)
    requires side == "long" || side == "short"
    ensures CloseSide(side) != OpenSide(side)
    ensures {OpenSide(side), CloseSide(side)} == {"buy", "sell"}
  {
  }

  /** place_order(..., order_type='market', pos_side='net', td_mode='cross'). */
  function MarketOrder(symbol: string, side: string, size: string): OkxClient.ApiCall
  {
    OkxClient.PlaceOrder(symbol, side, "market", size, None, Some("net"), "cross")
  }

  /** A market order carries neither a price nor posSide. */
  lemma MarketOrderFields(symbol: string, side: string, size: string)
    ensures var c := MarketOrder(symbol, side, size);
      && OkxClient.Lookup(c.data, "posSide") == None
      && OkxClient.Lookup(c.data, "px") == None
      && OkxClient.Lookup(c.data, "ordType") == Some("market")
      && OkxClient.Lookup(c.data, "tdMode") == Some("cross")
      && OkxClient.Lookup(c.data, "side") == Some(side)
      && OkxClient.Lookup(c.data, "sz") == Some(size)
      && OkxClient.Lookup(c.data, "instId") == Some(symbol)
  {
    OkxClient.PlaceOrderPayload(symbol, side, "market", size, None, Some("net"), "cross");
    OkxClient.OrderBaseLookup(symbol, "cross", side, "market", size, "posSide");
    OkxClient.OrderBaseLookup(symbol, "cross", side, "market", size, "px");
    OkxClient.OrderBaseLookup(symbol, "cross", side, "market", size, "ordType");
    OkxClient.OrderBaseLookup(symbol, "cross", side, "market", size, "tdMode");
    OkxClient.OrderBaseLookup(symbol, "cross", side, "market", size, "side");
    OkxClient.OrderBaseLookup(symbol, "cross", side, "market", size, "sz");
    OkxClient.OrderBaseLookup(symbol, "cross", side, "market", size, "instId");
  }

  /** `after` is `before` and at most one more request, a market order on
      the symbol. */
  predicate AtMostOneMarketOrder(symbol: string, before: seq<OkxClient.ApiCall>, after: seq<OkxClient.ApiCall>)
  {
    && |before| <= |after| <= |before| + 1
    && after[..|before|] == before
    && (|after| > |before| ==>
          && OkxClient.Lookup(after[|before|].data, "instId") == Some(symbol)
          && OkxClient.Lookup(after[|before|].data, "ordType") == Some("market"))
  }

  /** A market order appended to the requests sent is one more market
      order on its symbol. */
  lemma AppendedMarketOrder(before: seq<OkxClient.ApiCall>, symbol: string, side: string, size: string)
    ensures AtMostOneMarketOrder(symbol, before, before + [MarketOrder(symbol, side, size)])
  {
    MarketOrderFields(symbol, side, size);
    assert (before + [MarketOrder(symbol, side, size)])[..|before|] == before;
  }

  lemma NothingAppended(symbol: string, before: seq<OkxClient.ApiCall>)
    ensures AtMostOneMarketOrder(symbol, before, before)
  {
    assert before[..|before|] == before;
  }

  /** What place_order answered (after the client's own retries). */
  type OrderOutcome = Result<OkxClient.Reply, OkxClient.RequestError>

  /** The order id of an accepted order: code '0' and a first data entry
      carrying "ordId"; anything else, raised errors included, is none
      (a missing entry or key raises and the caller's handler drops it). */
  function PlacedOrderId(outcome: OrderOutcome): (r: Option<string>)
    ensures r.Some? ==> outcome.Ok? && outcome.value.code == Some("0") && outcome.value.data != []
  {
    if outcome.Ok? && outcome.value.code == Some("0") && outcome.value.data != []
       && "ordId" in outcome.value.data[0]
    then Some(outcome.value.data[0]["ordId"])
    else None
  }

  /** `result['code'] == '0'` alone; a reply without a code raises. */
  predicate CodeOk(outcome: OrderOutcome)
  {
    outcome.Ok? && outcome.value.code == Some("0")
  }

  /* ---------------------------------------------------------------------
     Price buffer and throttle
     --------------------------------------------------------------------- */

  /** Append the price and drop the oldest one when the buffer then holds
      more than `cap`. */
  function Pushed(buf: seq<real>, price: real, cap: int): (r: seq<real>)
    ensures r != [] ==> r[|r| - 1] == price
  {
    if |buf + [price]| > cap then (buf + [price])[1..] else buf + [price]
  }

  /** The buffer never outgrows its cap and keeps the newest prices in
      arrival order. */
  lemma PushedBounded(buf: seq<real>, price: real, cap: int)
    requires cap >= 1 && |buf| <= cap
    ensures |Pushed(buf, price, cap)| <= cap
    ensures |Pushed(buf, price, cap)| == if |buf| < cap then |buf| + 1 else cap
    ensures Pushed(buf, price, cap) == LastN(buf + [price], |Pushed(buf, price, cap)|)
  {
  }

  /** The analysis runs at most every 30 seconds. */
  predicate Due(now: real, lastCheck: real)
  {
    !(now - lastCheck < 30.0)
  }

  /** The first ticker entry's last price, when there is an entry and the
      price is positive; a missing 'last' reads as 0. */
  function TickerPrice(lasts: seq<Option<real>>): (r: Option<real>)
    ensures r.Some? <==> lasts != [] && lasts[0].Some? && lasts[0].value > 0.0
    ensures r.Some? ==> r == lasts[0]
  {
    if lasts != [] && lasts[0].GetOr(0.0) > 0.0 then lasts[0] else None
  }

  /* ---------------------------------------------------------------------
     Candles
     --------------------------------------------------------------------- */

  /** The fields of a candle row the strategies read: high, low, close and
      volume (the row's entries 2 to 5). */
  datatype Candle = Candle(high: real, low: real, close: real, volume: real)

  /** The answer to get_candles: the request raised, or a reply with its
      code (None when it has none, which raises on lookup) and its rows,
      newest first. */
  datatype CandlesAnswer = CandlesRaised | CandlesReply(code: Option<string>, rows: seq<Candle>)

  /** The lookup of the reply's code raises. */
  predicate CandlesRaise(a: CandlesAnswer)
  {
    a.CandlesRaised? || a.code.None?
  }

  /** `candles['code'] == '0' and candles['data']`. */
  predicate CandlesOk(a: CandlesAnswer)
  {
    a.CandlesReply? && a.code == Some("0") && a.rows != []
  }

  function Closes(rows: seq<Candle>): (r: seq<real>)
    ensures |r| == |rows| && forall i :: 0 <= i < |rows| ==> r[i] == rows[i].close
  {
    seq(|rows|, i requires 0 <= i < |rows| => rows[i].close)
  }

  function Highs(rows: seq<Candle>): (r: seq<real>)
    ensures |r| == |rows| && forall i :: 0 <= i < |rows| ==> r[i] == rows[i].high
  {
    seq(|rows|, i requires 0 <= i < |rows| => rows[i].high)
  }

  function Lows(rows: seq<Candle>): (r: seq<real>)
    ensures |r| == |rows| && forall i :: 0 <= i < |rows| ==> r[i] == rows[i].low
  {
    seq(|rows|, i requires 0 <= i < |rows| => rows[i].low)
  }

  function Volumes(rows: seq<Candle>): (r: seq<real>)
    ensures |r| == |rows| && forall i :: 0 <= i < |rows| ==> r[i] == rows[i].volume
  {
    seq(|rows|, i requires 0 <= i < |rows| => rows[i].volume)
  }

  /* ---------------------------------------------------------------------
     Trade statistics
     --------------------------------------------------------------------- */

  /** total_trades, winning_trades, consecutive_wins, consecutive_losses. */
  datatype TradeStats = TradeStats(total: nat, winning: nat, wins: nat, losses: nat)

  const NoTrades := TradeStats(0, 0, 0, 0)

  /** The winners are among the trades, the current winning streak among
      the winners, the losing streak among the losers, and one streak is
      always zero. */
  predicate StatsValid(s: TradeStats)
  {
    s.winning <= s.total && s.wins <= s.winning && s.losses <= s.total - s.winning
    && (s.wins == 0 || s.losses == 0)
  }

  /** A closed trade: a positive rate is a win and extends the winning
      streak, anything else a loss. */
  function Tallied(s: TradeStats, profitRate: real): TradeStats
  {
    if profitRate > 0.0 then TradeStats(s.total + 1, s.winning + 1, s.wins + 1, 0)
    else TradeStats(s.total + 1, s.winning, 0, s.losses + 1)
  }

  /** Every closed trade counts once, exactly one streak grows while the
      other restarts, and the statistics stay consistent. */
  lemma TalliedKeepsValid(s: TradeStats, profitRate: real)
    requires StatsValid(s)
    ensures var t := Tallied(s, profitRate);
      && StatsValid(t)
      && t.total == s.total + 1
      && (t.winning == s.winning + 1 <==> profitRate > 0.0)
      && (t.winning == s.winning <==> profitRate <= 0.0)
      && ((t.wins == s.wins + 1 && t.losses == 0) || (t.losses == s.losses + 1 && t.wins == 0))
  {
  }

  /** winning_trades / total_trades, or 0 before the first trade. */
  function WinRate(s: TradeStats): (r: real)
    requires StatsValid(s)
    ensures 0.0 <= r <= 1.0
    ensures s.total == 0 ==> r == 0.0
    ensures s.total > 0 && s.winning == s.total ==> r == 1.0
  {
    if s.total > 0 then s.winning as real / s.total as real else 0.0
  }
}
