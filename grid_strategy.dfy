/** The grid strategy: a ladder of evenly spaced price levels, a limit buy
    on every level below the market and a limit sell on every level above
    it; when an order fills, the opposite order goes on the neighbouring
    level if the step between the two levels earns at least the minimum
    profit rate.  The exchange is an input: `Exchange` answers each order
    request, numbered by its position among all requests sent. */
module GridStrategy {
  import opened Wrappers
  import opened Builtins
  import Helpers
  import OkxClient
  import opened PyDict
  import opened Market

  datatype GridConfig = GridConfig(symbol: string, gridNum: int, priceUpper: real, priceLower: real,
                                   investment: real, minProfitRate: real)

  const DefaultConfig := GridConfig("BTC-USDT-SWAP", 10, 50000.0, 40000.0, 1000.0, 0.005)

  /** The grid's contract defaults when the instrument is not listed. */
  const DefaultSpec := ContractSpec(1.0, 0.01, 0.01, false)

  /** What the constructor computes once. */
  datatype GridSetup = GridSetup(config: GridConfig, levels: seq<real>, perGridSize: real)

  /** The constructor's arithmetic: the levels, then the coins per grid
      at the mid price, in contracts, rounded.  The errors are those the
      constructor raises. */
  function Setup(c: GridConfig, spec: ContractSpec): Result<GridSetup, Helpers.HelperError>
  {
    match Helpers.GridLevels(c.priceUpper, c.priceLower, c.gridNum)
    case Err(e) => Err(e)
    case Ok(levels) =>
      match Helpers.PositionSize(c.investment, (c.priceUpper + c.priceLower) / 2.0, c.gridNum)
      case Err(e) => Err(e)
      case Ok(coins) =>
        if spec.contractValue == 0.0 || spec.lotSize == 0.0 then Err(Helpers.ZeroDivisionError)
        else Ok(GridSetup(c, levels, OrderSize(coins / spec.contractValue, spec)))
  }

  /** The constructor succeeds exactly on a valid range, a non-zero mid
      price and non-zero contract details; it then has grid_num levels and
      a quantity of at least the minimum size. */
  lemma SetupOutcome(c: GridConfig, spec: ContractSpec)
    ensures Setup(c, spec).Ok? <==>
      c.gridNum >= 2 && c.priceUpper > c.priceLower && c.priceUpper + c.priceLower != 0.0
      && spec.contractValue != 0.0 && spec.lotSize != 0.0
    ensures Setup(c, spec).Ok? ==>
      |Setup(c, spec).value.levels| == c.gridNum && Setup(c, spec).value.perGridSize >= spec.minSize
  {
    Helpers.GridLevelsValid(c.priceUpper, c.priceLower, c.gridNum);
    if c.gridNum >= 2 && c.priceUpper > c.priceLower {
      Helpers.GridLevelsShape(c.priceUpper, c.priceLower, c.gridNum);
    }
  }

  /* ---------------------------------------------------------------------
     Orders, requests and one placement
     --------------------------------------------------------------------- */

  datatype GridOrder = GridOrder(orderId: string, price: real, side: string, size: real, status: string)

  /** What the strategy asks of the exchange. */
  datatype GridRequest =
    | PlaceRequest(index: int, price: real, side: string)
    | CancelRequest(index: int, orderId: string)

  /** The exchange's answer to the n-th request (after the client's own
      retries): a reply, or the error the client raised. */
  type Exchange = (nat, GridRequest) -> Result<OkxClient.Reply, OkxClient.RequestError>

  datatype GridState = GridState(orders: Dict<int, GridOrder>, filled: set<int>, sent: seq<GridRequest>)

  /** The order place_order sends for a grid request: a limit order in
      cross margin with pos_side 'net'. */
  function PlaceCall(g: GridSetup, show: real -> string, price: real, side: string): OkxClient.ApiCall
  {
    OkxClient.PlaceOrder(g.config.symbol, side, "limit", show(g.perGridSize), Some(show(price)), Some("net"), "cross")
  }

  /** Grid orders never carry posSide (pos_side 'net' is not sent) and are
      limit orders in cross margin. */
  lemma GridOrdersAreNetLimit(g: GridSetup, show: real -> string, price: real, side: string)
    ensures var c := PlaceCall(g, show, price, side);
      && OkxClient.Lookup(c.data, "posSide") == None
      && OkxClient.Lookup(c.data, "ordType") == Some("limit")
      && OkxClient.Lookup(c.data, "tdMode") == Some("cross")
      && OkxClient.Lookup(c.data, "side") == Some(side)
  {
    OkxClient.PlaceOrderPayload(g.config.symbol, side, "limit", show(g.perGridSize), Some(show(price)), Some("net"), "cross");
    OkxClient.OrderBaseLookup(g.config.symbol, "cross", side, "limit", show(g.perGridSize), "ordType");
    OkxClient.OrderBaseLookup(g.config.symbol, "cross", side, "limit", show(g.perGridSize), "tdMode");
    OkxClient.OrderBaseLookup(g.config.symbol, "cross", side, "limit", show(g.perGridSize), "side");
  }

  /** Every tracked order sits on a level of the grid, at that level's
      price, with the grid quantity, a side and status 'pending'. */
  ghost predicate Tracked(g: GridSetup, orders: Dict<int, GridOrder>)
  {
    orders.Valid()
    && forall idx :: idx in orders.items ==>
         && 0 <= idx < |g.levels|
         && orders.items[idx].price == g.levels[idx]
         && orders.items[idx].size == g.perGridSize
         && orders.items[idx].status == "pending"
         && (orders.items[idx].side == "buy" || orders.items[idx].side == "sell")
  }

  /** At most one order per level: the tracked levels are no more than the
      levels of the grid. */
  lemma TrackedWithinLevels(g: GridSetup, orders: Dict<int, GridOrder>)
    requires Tracked(g, orders)
    ensures |orders.items.Keys| <= |g.levels|
  {
    IndicesBelow(orders.items.Keys, |g.levels|);
  }

  /** Distinct indices below n are at most n. */
  lemma {:induction false} IndicesBelow(s: set<int>, n: nat)
    requires forall i :: i in s ==> 0 <= i < n
    ensures |s| <= n
  {
    if n > 0 {
      IndicesBelow(s - {n - 1}, n - 1);
    } else {
      assert forall i :: i !in s;
      assert s == {};
    }
  }

  lemma RemoveKeepsTracked(g: GridSetup, orders: Dict<int, GridOrder>, idx: int)
    requires Tracked(g, orders)
    ensures Tracked(g, Remove(orders, idx))
  {
  }

  /** `_place_grid_order`: the request is sent; an accepted order is
      recorded under its level as pending. */
  function Place(g: GridSetup, st: GridState, index: int, price: real, side: string, ex: Exchange): (r: GridState)
    ensures (Tracked(g, st.orders) && 0 <= index < |g.levels| && price == g.levels[index]
             && (side == "buy" || side == "sell")) ==> Tracked(g, r.orders)
  {
    var req := PlaceRequest(index, price, side);
    match PlacedOrderId(ex(|st.sent|, req))
    case Some(id) => GridState(Put(st.orders, index, GridOrder(id, price, side, g.perGridSize, "pending")),
                               st.filled, st.sent + [req])
    case None => GridState(st.orders, st.filled, st.sent + [req])
  }

  /** A placement sends one request and records the order under its level
      only when the exchange accepted it; no other level changes. */
  lemma PlaceRecordsOnlyOnSuccess(g: GridSetup, st: GridState, index: int, price: real, side: string,
                                  ex: Exchange, other: int)
    ensures var r := Place(g, st, index, price, side, ex);
      var id := PlacedOrderId(ex(|st.sent|, PlaceRequest(index, price, side)));
      && r.sent == st.sent + [PlaceRequest(index, price, side)]
      && r.filled == st.filled
      && (id.Some? ==> index in r.orders.items
                       && r.orders.items[index] == GridOrder(id.value, price, side, g.perGridSize, "pending"))
      && (id.None? ==> r.orders == st.orders)
      && (other != index ==>
            (other in r.orders.items <==> other in st.orders.items)
            && (other in st.orders.items ==> r.orders.items[other] == st.orders.items[other]))
  {
  }

  /* ---------------------------------------------------------------------
     initialize_grid
     --------------------------------------------------------------------- */

  /** The loop of initialize_grid from level i on, at the given price. */
  function InitFrom(g: GridSetup, st: GridState, current: real, i: nat, ex: Exchange): GridState
    decreases |g.levels| - i
  {
    if i >= |g.levels| then st
    else
      var price := g.levels[i];
      var st' := if price < current then Place(g, st, i, price, "buy", ex)
                 else if price > current then Place(g, st, i, price, "sell", ex)
                 else st;
      InitFrom(g, st', current, i + 1, ex)
  }

  /** The requests of that loop. */
  function InitialRequests(levels: seq<real>, current: real, i: nat): seq<GridRequest>
    decreases |levels| - i
  {
    if i >= |levels| then []
    else
      (if levels[i] < current then [PlaceRequest(i, levels[i], "buy")]
       else if levels[i] > current then [PlaceRequest(i, levels[i], "sell")]
       else [])
      + InitialRequests(levels, current, i + 1)
  }

  /** initialize_grid sends exactly those requests and fills nothing. */
  lemma {:induction false} InitFromSends(g: GridSetup, st: GridState, current: real, i: nat, ex: Exchange)
    ensures InitFrom(g, st, current, i, ex).sent == st.sent + InitialRequests(g.levels, current, i)
    ensures InitFrom(g, st, current, i, ex).filled == st.filled
    decreases |g.levels| - i
  {
    if i < |g.levels| {
      var price := g.levels[i];
      var head := if price < current then [PlaceRequest(i, price, "buy")]
                  else if price > current then [PlaceRequest(i, price, "sell")]
                  else [];
      var st' := if price < current then Place(g, st, i, price, "buy", ex)
                 else if price > current then Place(g, st, i, price, "sell", ex)
                 else st;
      if price != current {
        PlaceRecordsOnlyOnSuccess(g, st, i, price, if price < current then "buy" else "sell", ex, i);
      }
      assert st'.sent == st.sent + head && st'.filled == st.filled;
      assert InitFrom(g, st, current, i, ex) == InitFrom(g, st', current, i + 1, ex);
      assert InitialRequests(g.levels, current, i) == head + InitialRequests(g.levels, current, i + 1);
      InitFromSends(g, st', current, i + 1, ex);
      assert st.sent + head + InitialRequests(g.levels, current, i + 1)
          == st.sent + (head + InitialRequests(g.levels, current, i + 1));
    }
  }

  /** One request per level that differs from the price, in level order:
      a buy for each level below it, a sell for each level above it, and
      none for a level equal to it. */
  lemma {:induction false} InitialRequestsSides(levels: seq<real>, current: real, i: nat)
    ensures var r := InitialRequests(levels, current, i);
      && (forall k :: 0 <= k < |r| ==>
            && r[k].PlaceRequest?
            && i <= r[k].index < |levels|
            && r[k].price == levels[r[k].index]
            && (r[k].side == "buy" <==> r[k].price < current)
            && (r[k].side == "sell" <==> r[k].price > current))
      && (forall a, b :: 0 <= a < b < |r| ==> r[a].index < r[b].index)
      && (forall j :: i <= j < |levels| && levels[j] != current ==>
            exists k :: 0 <= k < |r| && r[k].index == j)
    decreases |levels| - i
  {
    if i < |levels| {
      InitialRequestsSides(levels, current, i + 1);
      var rest := InitialRequests(levels, current, i + 1);
      var head := if levels[i] < current then [PlaceRequest(i, levels[i], "buy")]
                  else if levels[i] > current then [PlaceRequest(i, levels[i], "sell")]
                  else [];
      var r := head + rest;
      assert r == InitialRequests(levels, current, i);
      forall k | |head| <= k < |r|
        ensures r[k] == rest[k - |head|]
      {
      }
      forall j | i <= j < |levels| && levels[j] != current
        ensures exists k :: 0 <= k < |r| && r[k].index == j
      {
        if j == i {
          assert r[0].index == j;
        } else {
          var k :| 0 <= k < |rest| && rest[k].index == j;
          assert r[|head| + k] == rest[k];
        }
      }
    }
  }

  /** Orders on the right side of the price: buys below it, sells above. */
  ghost predicate AroundPrice(orders: Dict<int, GridOrder>, current: real)
  {
    forall idx :: idx in orders.items ==>
      (orders.items[idx].side == "buy" ==> orders.items[idx].price < current)
      && (orders.items[idx].side == "sell" ==> orders.items[idx].price > current)
  }

  /** Starting from no orders (or from orders already around the price),
      initialize_grid leaves only tracked orders around the price. */
  lemma {:induction false} InitializedAroundPrice(g: GridSetup, st: GridState, current: real, i: nat, ex: Exchange)
    requires Tracked(g, st.orders) && AroundPrice(st.orders, current)
    ensures Tracked(g, InitFrom(g, st, current, i, ex).orders)
    ensures AroundPrice(InitFrom(g, st, current, i, ex).orders, current)
    decreases |g.levels| - i
  {
    if i < |g.levels| {
      var price := g.levels[i];
      var st' := if price < current then Place(g, st, i, price, "buy", ex)
                 else if price > current then Place(g, st, i, price, "sell", ex)
                 else st;
      if price != current {
        var side := if price < current then "buy" else "sell";
        forall idx | idx in st'.orders.items
          ensures (st'.orders.items[idx].side == "buy" ==> st'.orders.items[idx].price < current)
               && (st'.orders.items[idx].side == "sell" ==> st'.orders.items[idx].price > current)
        {
          PlaceRecordsOnlyOnSuccess(g, st, i, price, side, ex, idx);
        }
      }
      InitializedAroundPrice(g, st', current, i + 1, ex);
    }
  }

  /* ---------------------------------------------------------------------
     Order updates
     --------------------------------------------------------------------- */

  /** One entry of an order push: its ordId and state, when present. */
  datatype OrderUpdate = OrderUpdate(ordId: Option<string>, state: Option<string>)

  /** The level k holds an order with that id. */
  predicate HoldsId(items: map<int, GridOrder>, ordId: Option<string>, k: int)
  {
    k in items && Some(items[k].orderId) == ordId
  }

  /** The first level, in dict order, whose order has that id. */
  function FindIn(keys: seq<int>, items: map<int, GridOrder>, ordId: Option<string>): (r: Option<int>)
    ensures r.Some? ==> exists i :: 0 <= i < |keys| && keys[i] == r.value && HoldsId(items, ordId, keys[i])
                          && forall j :: 0 <= j < i ==> !HoldsId(items, ordId, keys[j])
    ensures r.None? ==> forall k :: k in keys ==> !HoldsId(items, ordId, k)
  {
    if keys == [] then None
    else if HoldsId(items, ordId, keys[0]) then Some(keys[0])
    else
      var r := FindIn(keys[1..], items, ordId);
      if r.Some? then
        var i :| 0 <= i < |keys[1..]| && keys[1..][i] == r.value && HoldsId(items, ordId, keys[1..][i])
                 && forall j :: 0 <= j < i ==> !HoldsId(items, ordId, keys[1..][j]);
        assert forall j :: 0 <= j < i + 1 ==> !HoldsId(items, ordId, keys[j]) by {
          forall j | 0 <= j < i + 1
            ensures !HoldsId(items, ordId, keys[j])
          {
            if j > 0 { assert keys[j] == keys[1..][j - 1]; }
          }
        }
        r
      else r
  }

  function FindGrid(orders: Dict<int, GridOrder>, ordId: Option<string>): Option<int>
  {
    FindIn(orders.keys, orders.items, ordId)
  }

  /** `_handle_filled_order`: the level counts as filled and its order is
      dropped; a buy then puts a sell one level up, and a sell a buy one
      level down, when that level exists and the step earns the minimum
      profit rate.  A zero divisor raises inside the handler, which drops
      the placement only. */
  function AfterFill(g: GridSetup, st: GridState, idx: int, ex: Exchange): (r: GridState)
    requires Tracked(g, st.orders) && idx in st.orders.items
    ensures Tracked(g, r.orders)
  {
    var o := st.orders.items[idx];
    var st1 := GridState(Remove(st.orders, idx), st.filled + {idx}, st.sent);
    RemoveKeepsTracked(g, st.orders, idx);
    if o.side == "buy" then
      if idx + 1 < |g.levels| && o.price != 0.0 && (g.levels[idx + 1] - o.price) / o.price >= g.config.minProfitRate
      then Place(g, st1, idx + 1, g.levels[idx + 1], "sell", ex)
      else st1
    else if o.side == "sell" then
      if idx - 1 >= 0 && g.levels[idx - 1] != 0.0
         && (o.price - g.levels[idx - 1]) / g.levels[idx - 1] >= g.config.minProfitRate
      then Place(g, st1, idx - 1, g.levels[idx - 1], "buy", ex)
      else st1
    else st1
  }

  /** One entry of `on_order_update`: an id that matches no tracked order
      is skipped, 'filled' runs the fill handler, 'canceled' forgets the
      level, and any other state is ignored. */
  function Step(g: GridSetup, st: GridState, u: OrderUpdate, ex: Exchange): (r: GridState)
    requires Tracked(g, st.orders)
    ensures Tracked(g, r.orders)
  {
    match FindGrid(st.orders, u.ordId)
    case None => st
    case Some(idx) =>
      if u.state == Some("filled") then AfterFill(g, st, idx, ex)
      else if u.state == Some("canceled") then GridState(Remove(st.orders, idx), st.filled, st.sent)
      else st
  }

  function AfterUpdates(g: GridSetup, st: GridState, us: seq<OrderUpdate>, ex: Exchange): (r: GridState)
    requires Tracked(g, st.orders)
    ensures Tracked(g, r.orders)
    decreases |us|
  {
    if us == [] then st else AfterUpdates(g, Step(g, st, us[0], ex), us[1..], ex)
  }

  /** What one update does to the tracked orders and filled levels. */
  lemma StepOutcome(g: GridSetup, st: GridState, u: OrderUpdate, ex: Exchange)
    requires Tracked(g, st.orders)
    ensures FindGrid(st.orders, u.ordId).None? ==> Step(g, st, u, ex) == st
    ensures FindGrid(st.orders, u.ordId).Some? && u.state != Some("filled") && u.state != Some("canceled") ==>
      Step(g, st, u, ex) == st
    ensures FindGrid(st.orders, u.ordId).Some? && u.state == Some("canceled") ==>
      var idx := FindGrid(st.orders, u.ordId).value;
      Step(g, st, u, ex).orders.items == st.orders.items - {idx}
      && Step(g, st, u, ex).filled == st.filled && Step(g, st, u, ex).sent == st.sent
    ensures FindGrid(st.orders, u.ordId).Some? && u.state == Some("filled") ==>
      var idx := FindGrid(st.orders, u.ordId).value;
      Step(g, st, u, ex).filled == st.filled + {idx} && idx !in Step(g, st, u, ex).orders.items
  {
    match FindGrid(st.orders, u.ordId)
    case None =>
    case Some(idx) =>
      if u.state == Some("filled") {
        FillOutcome(g, st, idx, ex);
      }
  }

  /** The fill handler and the neighbour rule, stated on the levels: after a
      buy at i a sell request goes to level i + 1 exactly when that level
      exists and (p[i+1] - p[i]) / p[i] reaches the minimum profit rate;
      after a sell a buy request goes to level i - 1 under the mirrored
      rule; no other request is sent. */
  lemma FillOutcome(g: GridSetup, st: GridState, idx: int, ex: Exchange)
    requires Tracked(g, st.orders) && idx in st.orders.items
    ensures var r := AfterFill(g, st, idx, ex);
      var p := g.levels;
      var side := st.orders.items[idx].side;
      && r.filled == st.filled + {idx}
      && idx !in r.orders.items
      && (side == "buy" ==>
            (r.sent != st.sent <==> idx + 1 < |p| && p[idx] != 0.0 && (p[idx + 1] - p[idx]) / p[idx] >= g.config.minProfitRate)
            && (r.sent != st.sent ==> r.sent == st.sent + [PlaceRequest(idx + 1, p[idx + 1], "sell")]))
      && (side == "sell" ==>
            (r.sent != st.sent <==> idx - 1 >= 0 && p[idx - 1] != 0.0 && (p[idx] - p[idx - 1]) / p[idx - 1] >= g.config.minProfitRate)
            && (r.sent != st.sent ==> r.sent == st.sent + [PlaceRequest(idx - 1, p[idx - 1], "buy")]))
  {
    var r := AfterFill(g, st, idx, ex);
    var st1 := GridState(Remove(st.orders, idx), st.filled + {idx}, st.sent);
    if r.sent != st.sent {
      assert r.sent == st1.sent + [r.sent[|r.sent| - 1]];
    }
  }

  /* ---------------------------------------------------------------------
     cancel_all_orders
     --------------------------------------------------------------------- */

  /** The cancel requests for the orders under `keys`, in that order; an
      order whose id is empty raises in cancel_order before anything is
      sent. */
  function CancelRequests(keys: seq<int>, items: map<int, GridOrder>): seq<GridRequest>
    requires forall k :: k in keys ==> k in items
  {
    if keys == [] then []
    else
      var k := keys[|keys| - 1];
      CancelRequests(keys[..|keys| - 1], items)
      + if items[k].orderId != "" then [CancelRequest(k, items[k].orderId)] else []
  }

  /** Every tracked order with an id is cancelled, and nothing else is. */
  lemma {:induction false} CancelRequestsCover(keys: seq<int>, items: map<int, GridOrder>)
    requires forall k :: k in keys ==> k in items
    ensures forall k :: k in keys && items[k].orderId != "" ==> CancelRequest(k, items[k].orderId) in CancelRequests(keys, items)
    ensures forall q :: q in CancelRequests(keys, items) ==>
      q.CancelRequest? && q.index in keys && q.orderId == items[q.index].orderId && q.orderId != ""
  {
    if keys != [] {
      var init := keys[..|keys| - 1];
      CancelRequestsCover(init, items);
      assert keys == init + [keys[|keys| - 1]];
    }
  }

  /* ---------------------------------------------------------------------
     The strategy object
     --------------------------------------------------------------------- */

  /** `get_grid_status`. */
  datatype GridStatus = GridStatus(symbol: string, currentPrice: Option<real>, gridNum: int,
                                   priceRange: (real, real), pendingOrders: nat, filledGrids: nat,
                                   gridOrders: map<int, GridOrder>)

  class GridStrategy {
    const setup: GridSetup
    var gridOrders: Dict<int, GridOrder>
    var filledGrids: set<int>
    var currentPrice: Option<real>
    var sent: seq<GridRequest>

    ghost predicate Valid()
      reads this
    {
      Tracked(setup, gridOrders)
    }

    function State(): GridState
      reads this`gridOrders, this`filledGrids, this`sent
    {
      GridState(gridOrders, filledGrids, sent)
    }

    /** The constructor once `Setup` has succeeded on the configuration
        and the contract details: no orders yet. */
    constructor (c: GridConfig, spec: ContractSpec, setup: GridSetup)
      requires Setup(c, spec) == Ok(setup)
      ensures Valid() && this.setup == setup && this.setup.config == c
      ensures |this.setup.levels| == c.gridNum && this.setup.perGridSize >= spec.minSize
      ensures gridOrders == Empty() && filledGrids == {} && currentPrice == None && sent == []
    {
      SetupOutcome(c, spec);
      this.setup := setup;
      gridOrders := Empty();
      filledGrids := {};
      currentPrice := None;
      sent := [];
    }

    method PlaceGridOrder(index: int, price: real, side: string, ex: Exchange)
      requires Valid() && 0 <= index < |setup.levels| && price == setup.levels[index]
      requires side == "buy" || side == "sell"
      modifies this`gridOrders, this`sent
      ensures Valid()
      ensures State() == Place(setup, old(State()), index, price, side, ex)
    {
      var req := PlaceRequest(index, price, side);
      var outcome := ex(|sent|, req);
      sent := sent + [req];
      var id := PlacedOrderId(outcome);
      if id.Some? {
        gridOrders := Put(gridOrders, index, GridOrder(id.value, price, side, setup.perGridSize, "pending"));
      }
    }

    /** `initialize_grid`: `tickerLast` is the last price of the ticker,
        None when the request failed or returned no data. */
    method InitializeGrid(tickerLast: Option<real>, ex: Exchange)
      requires Valid()
      modifies this`gridOrders, this`sent, this`currentPrice
      ensures Valid()
      ensures tickerLast.None? ==> State() == old(State()) && currentPrice == old(currentPrice)
      ensures tickerLast.Some? ==>
        currentPrice == tickerLast && State() == InitFrom(setup, old(State()), tickerLast.value, 0, ex)
    {
      if tickerLast.Some? {
        currentPrice := tickerLast;
        PlaceAroundPrice(tickerLast.value, ex);
      }
    }

    /** The loop of initialize_grid. */
    method PlaceAroundPrice(current: real, ex: Exchange)
      requires Valid()
      modifies this`gridOrders, this`sent
      ensures Valid()
      ensures State() == InitFrom(setup, old(State()), current, 0, ex)
    {
      var i := 0;
      while i < |setup.levels|
        invariant 0 <= i <= |setup.levels|
        invariant Valid()
        invariant InitFrom(setup, old(State()), current, 0, ex) == InitFrom(setup, State(), current, i, ex)
      {
        ghost var before := State();
        var price := setup.levels[i];
        if price < current {
          PlaceGridOrder(i, price, "buy", ex);
        } else if price > current {
          PlaceGridOrder(i, price, "sell", ex);
        }
        assert InitFrom(setup, before, current, i, ex) == InitFrom(setup, State(), current, i + 1, ex);
        i := i + 1;
      }
      assert InitFrom(setup, State(), current, i, ex) == State();
    }

    /** `on_tick`: the first entry's last price, when present and positive,
        becomes the current price. */
    method OnTick(lastPrices: seq<Option<real>>)
      modifies this`currentPrice
      ensures currentPrice == if lastPrices != [] && lastPrices[0].Some? && lastPrices[0].value > 0.0
                              then lastPrices[0] else old(currentPrice)
    {
      if lastPrices == [] {
        return;
      }
      if lastPrices[0].Some? && lastPrices[0].value > 0.0 {
        currentPrice := lastPrices[0];
      }
    }

    /** The search loop of on_order_update. */
    method FindGridIndex(ordId: Option<string>) returns (r: Option<int>)
      ensures r == FindGrid(gridOrders, ordId)
    {
      var keys := gridOrders.keys;
      var i := 0;
      while i < |keys|
        invariant 0 <= i <= |keys|
        invariant FindIn(keys, gridOrders.items, ordId) == FindIn(keys[i..], gridOrders.items, ordId)
      {
        assert keys[i..][1..] == keys[i + 1..];
        if keys[i] in gridOrders.items && Some(gridOrders.items[keys[i]].orderId) == ordId {
          return Some(keys[i]);
        }
        i := i + 1;
      }
      return None;
    }

    method HandleFilledOrder(idx: int, ex: Exchange)
      requires Valid() && idx in gridOrders.items
      modifies this`gridOrders, this`filledGrids, this`sent
      ensures Valid()
      ensures State() == AfterFill(setup, old(State()), idx, ex)
    {
      ghost var st := State();
      var o := gridOrders.items[idx];
      RemoveKeepsTracked(setup, gridOrders, idx);
      filledGrids := filledGrids + {idx};
      gridOrders := Remove(gridOrders, idx);
      ghost var st1 := GridState(Remove(st.orders, idx), st.filled + {idx}, st.sent);
      assert State() == st1;
      if o.side == "buy" {
        if idx + 1 < |setup.levels| {
          var next := setup.levels[idx + 1];
          if o.price != 0.0 && (next - o.price) / o.price >= setup.config.minProfitRate {
            assert AfterFill(setup, st, idx, ex) == Place(setup, st1, idx + 1, next, "sell", ex);
            PlaceGridOrder(idx + 1, next, "sell", ex);
            return;
          }
        }
      } else if o.side == "sell" {
        if idx - 1 >= 0 {
          var next := setup.levels[idx - 1];
          if next != 0.0 && (o.price - next) / next >= setup.config.minProfitRate {
            assert AfterFill(setup, st, idx, ex) == Place(setup, st1, idx - 1, next, "buy", ex);
            PlaceGridOrder(idx - 1, next, "buy", ex);
            return;
          }
        }
      }
      assert AfterFill(setup, st, idx, ex) == st1;
    }

    /** `on_order_update`: the updates in order. */
    method OnOrderUpdate(updates: seq<OrderUpdate>, ex: Exchange)
      requires Valid()
      modifies this`gridOrders, this`filledGrids, this`sent
      ensures Valid()
      ensures State() == AfterUpdates(setup, old(State()), updates, ex)
    {
      var i := 0;
      while i < |updates|
        invariant 0 <= i <= |updates|
        invariant Valid()
        invariant AfterUpdates(setup, old(State()), updates, ex) == AfterUpdates(setup, State(), updates[i..], ex)
      {
        assert updates[i..][1..] == updates[i + 1..];
        var u := updates[i];
        var idx := FindGridIndex(u.ordId);
        if idx.Some? {
          if u.state == Some("filled") {
            HandleFilledOrder(idx.value, ex);
          } else if u.state == Some("canceled") {
            gridOrders := Remove(gridOrders, idx.value);
          }
        }
        i := i + 1;
      }
    }

    /** `cancel_all_orders`: a cancel request per tracked order in dict
        order, whatever each answer, and then no tracked orders at all. */
    method CancelAllOrders()
      requires Valid()
      modifies this`gridOrders, this`sent
      ensures Valid()
      ensures gridOrders == Empty() && Status().pendingOrders == 0
      ensures sent == old(sent) + CancelRequests(old(gridOrders).keys, old(gridOrders).items)
    {
      var keys := gridOrders.keys;
      var items := gridOrders.items;
      var i := 0;
      while i < |keys|
        invariant 0 <= i <= |keys|
        invariant sent == old(sent) + CancelRequests(keys[..i], items)
      {
        assert keys[..i + 1][..i] == keys[..i];
        var k := keys[i];
        if items[k].orderId != "" {
          sent := sent + [CancelRequest(k, items[k].orderId)];
        }
        i := i + 1;
      }
      assert keys[..i] == keys;
      gridOrders := Empty();
    }

    /** `get_grid_status`: `len(grid_orders)` counts the tracked levels,
        one order each, so never more than the grid has levels. */
    function Status(): (r: GridStatus)
      reads this
      requires Valid()
      ensures r.pendingOrders == |gridOrders.items.Keys| <= |setup.levels|
      ensures r.filledGrids == |filledGrids| && r.gridOrders == gridOrders.items
      ensures r.symbol == setup.config.symbol && r.currentPrice == currentPrice
      ensures r.priceRange == (setup.config.priceLower, setup.config.priceUpper)
    {
      LenIsSize(gridOrders);
      TrackedWithinLevels(setup, gridOrders);
      GridStatus(setup.config.symbol, currentPrice, setup.config.gridNum,
                 (setup.config.priceLower, setup.config.priceUpper),
                 |gridOrders.keys|, |filledGrids|, gridOrders.items)
    }
  }
}
