# OKX trading bot core, modelled in Dafny

This project models the deterministic core of a Python trading bot for the OKX
exchange and proves properties of that model. Every Python module of the core has
one Dafny module of the same name:

- `OkxClient` (okx_client.dfy): the REST client. It covers the sliding-window
  `RateLimiter` (a class whose `calls` list is pruned and appended), the
  `retry_on_failure` loop with its geometric delay schedule, the request path, body,
  signing pre-hash and headers that `_request` builds, the classification of the
  reply code, and the payload builders for orders, cancels, algo orders and closes.
- `OkxWebSocket` (okx_websocket.dfy): the WebSocket client as a class. It covers the
  connection flag, the handler registry keyed `"channel:instId"` or `"channel"`,
  subscribe and unsubscribe, dispatch of inbound frames, the capped reconnect counter
  with its `2^n` back-off, the URL choice and the login pre-hash.
- `ConfigLoader` (config_loader.dfy): the dotted-path `Config.get` walk over a nested
  configuration value, and the section getters.
- `Helpers` (helpers.dfy): grid levels, position size, PnL, PnL rate and `round_down`.
- `RiskManager` (risk_manager.dfy): the risk manager as a class. It covers the
  win/loss streaks, the cooldown, the balance and its peak, the map of active
  positions, the ordered admission check, the sizing functions and the stop-loss and
  take-profit predicates.
- `BaseStrategy` (base_strategy.dfy): the position and order dictionaries that every
  strategy shares.
- `GridStrategy`, `PositionStrategy`, `SmartProfitStrategy`, `AdvancedStrategy`,
  `EnhancedStrategy`: the five strategies. Each has a state datatype with pure
  transition functions (one per handler: tick, analysis, entry, exit, open, close),
  and a class whose methods update its fields to exactly what those functions
  compute. The lemmas state the promises of each strategy: buffer caps, throttles,
  clamped scores and multipliers, entry and exit rules, tiered take-profit, trailing
  stops and trade statistics.
- `Backtester` (backtester.dfy): the grid simulation loop over bars. It covers the
  balance, the held levels, the trade list and the equity curve, plus the counting
  part of the metrics.
- Shared modules: `Wrappers` (Option and Result), `Builtins` (Python's `round`,
  `int`, `sum`, `min`/`max` clamps, `str.lower`), `PyDict` (an insertion-ordered
  dictionary), `Market` (contract specs, order sizing, position readback, profit
  rate, bounded price buffers, the analysis throttle, candle extraction) and `Indicators` (moving
  averages, crossover, EMA, RSI and Bollinger bands).

Prices and amounts are Dafny `real`s, so arithmetic is exact. Clocks, the UTC hour
and sleeps become explicit parameters and results. Replies from the exchange become
input datatypes. HMAC-SHA256 (RFC 2104), base64 (section 4 of RFC 4648),
`urlencode` and `json.dumps` are function parameters, and the model states exactly
which strings are fed to them.

Behaviour of the code worth knowing, modelled as written:

- `retry_on_failure` retries every exception. The API error code `50011`, any other
  non-`0` code and the unsupported-method `ValueError` are all retried alike; there is
  no retryable/fatal split.
- Reconnecting does not replay subscriptions: the handler registry is kept, but no
  subscribe frame is sent again.
- A handler that raises aborts the rest of that frame's dispatch; handlers are not
  isolated from one another.
- The section getters of the configuration return a section stored as `None`
  unchanged, because `dict.get(key, {})` only supplies `{}` for a missing key.
- In the backtester a grid level of 0 makes numpy divide by zero. The result is `inf`
  or `NaN`, the affordability comparison is false and no buy happens; nothing raises.
- An initial capital of 0 leaves the total return undefined (`None` in the model).
- `retry_on_failure` with `max_retries <= 0` re-raises `None`. Python turns that into
  a `TypeError`; the model returns `RaisedNone`.
- `if rsi:` in the smart-profit, advanced and enhanced strategies treats an RSI of 0
  as absent, and the model keeps that.

## Model

| member | source | states |
|---|---|---|
| Helpers.GridLevels | OKX/okx_trading_bot/utils/helpers.py:23-30 | fewer than 2 grids raises the first ValueError; an upper bound not above the lower raises the second, with the source's messages |
| Helpers.GridLevelsShape | OKX/okx_trading_bot/utils/helpers.py:29-32 | on valid arguments: exactly grid_num levels, first = lower, last = upper, a constant step (upper-lower)/(grid_num-1) apart, strictly increasing |
| Helpers.GridLevelsValid | OKX/okx_trading_bot/utils/helpers.py:23-32 | a grid comes back iff grid_num >= 2 and upper > lower |
| Helpers.PositionSize | OKX/okx_trading_bot/utils/helpers.py:71-74 | raises ZeroDivisionError iff price or grid_num is 0; otherwise result * price * grid_num = investment |
| Helpers.RoundDownBounds | OKX/okx_trading_bot/utils/helpers.py:77-80 | round_down(v, d) <= v and (v - round_down(v, d)) * 10^d < 1 |
| Helpers.RoundDownIdempotent | OKX/okx_trading_bot/utils/helpers.py:77-80 | rounding down an already rounded value changes nothing |
| Helpers.Pnl | OKX/okx_trading_bot/utils/helpers.py:96-103 | succeeds iff the lower-cased side is "long" or "short"; any other side raises ValueError carrying the side |
| Helpers.PnlRate | OKX/okx_trading_bot/utils/helpers.py:118-125 | an unknown side raises ValueError; a known side with entry price 0 raises ZeroDivisionError |
| Helpers.PnlLongShortOpposite | OKX/okx_trading_bot/utils/helpers.py:96-99 | a long and a short of the same size and prices gain exactly opposite amounts |
| Helpers.PnlIgnoresCase | OKX/okx_trading_bot/utils/helpers.py:96-98 | the side is matched case-insensitively: side and lower(side) give the same result |
| Helpers.PnlRateIsUnitPnl | OKX/okx_trading_bot/utils/helpers.py:118-121 | the rate is the pnl of one unit divided by the entry price, and fails exactly when that pnl fails |
| Helpers.PnlFromRate | OKX/okx_trading_bot/utils/helpers.py:96-121 | pnl = rate * entry * size |
| ConfigLoader.Split | OKX/okx_trading_bot/config/config_loader.py:18 | key.split('.'): at least one piece, none containing the separator |
| ConfigLoader.JoinSplit | OKX/okx_trading_bot/config/config_loader.py:18 | joining the pieces of a split with the separator gives the key back |
| ConfigLoader.SplitJoin | OKX/okx_trading_bot/config/config_loader.py:18 | splitting a join of separator-free pieces gives the pieces back |
| ConfigLoader.Walk | OKX/okx_trading_bot/config/config_loader.py:19-29 | the lookup loop: a non-default result of a non-empty path is never a stored null |
| ConfigLoader.WalkNest | OKX/okx_trading_bot/config/config_loader.py:21-29 | a value stored along a path is read back whatever it is (0, false and "" included); only a stored null reads as the default |
| ConfigLoader.GetNested | OKX/okx_trading_bot/config/config_loader.py:16-29 | get on a dotted key returns the non-null value nested along that key's segments |
| ConfigLoader.WalkAppend | OKX/okx_trading_bot/config/config_loader.py:21-27 | walking a longer path is walking its first part and then the rest; a first part that breaks off gives the default |
| ConfigLoader.GetMissing | OKX/okx_trading_bot/config/config_loader.py:22-27 | a root that is not a mapping, or a first segment that is missing or null, gives the default |
| ConfigLoader.Section | OKX/okx_trading_bot/config/config_loader.py:31-53 | a section getter returns the stored section (null included), {} when absent, and fails only when the root is not a mapping |
| ConfigLoader.SectionAgreesWithGet | OKX/okx_trading_bot/config/config_loader.py:16-37 | the getter and get agree on a present non-null section; on a stored null the getter returns null and get the default |
| BaseStrategy.IdOf | OKX/okx_trading_bot/strategies/base_strategy.py:45-46 | the record's id is present iff the key is stored with a non-empty value, and it is that value |
| BaseStrategy.Get | OKX/okx_trading_bot/strategies/base_strategy.py:55-61 | a getter finds a record iff the id is a key |
| BaseStrategy.GetAfterStored | OKX/okx_trading_bot/strategies/base_strategy.py:43-61 | a record without an id changes nothing; after storing, the record is found under its id and every other id finds what it found before |
| BaseStrategy.StoredOverwrites | OKX/okx_trading_bot/strategies/base_strategy.py:43-47 | of two records with the same id the later one wins |
| BaseStrategy.BaseStrategy.UpdatePosition | OKX/okx_trading_bot/strategies/base_strategy.py:43-47 | positions becomes the old map with the record stored under its "instId", and nothing else changes |
| BaseStrategy.BaseStrategy.UpdateOrder | OKX/okx_trading_bot/strategies/base_strategy.py:49-53 | pending_orders becomes the old map with the record stored under its "ordId", and nothing else changes |
| RiskManager.SizeWithinLimit | OKX/okx_trading_bot/risk_manager/risk_manager.py:62-67 | a size passes exactly when it lies in [−max_position_size, max_position_size], long or short alike |
| RiskManager.DrawdownWithinLimit | OKX/okx_trading_bot/risk_manager/risk_manager.py:129-140 | passes with no peak yet; with a positive peak, passes exactly when the balance stays above peak · (1 − max_drawdown) |
| RiskManager.StopLossHit | OKX/okx_trading_bot/risk_manager/risk_manager.py:69-92 | a zero entry price raises for a long or a short (side matched without regard to case) and only then; any other side never stops |
| RiskManager.TakeProfitHit | OKX/okx_trading_bot/risk_manager/risk_manager.py:94-117 | the same error and side cases as the stop loss, for the take-profit test |
| RiskManager.StopsFollowPnlRate | OKX/okx_trading_bot/risk_manager/risk_manager.py:69-117 | for a long or a short the stop loss fires exactly when the profit rate has fallen to minus the stop-loss rate, the take profit exactly when it has risen to the take-profit rate |
| RiskManager.StopAndTakeExclusive | OKX/okx_trading_bot/risk_manager/risk_manager.py:69-117 | with positive rates a position is never at its stop loss and its take profit at once |
| RiskManager.LongStopLossMonotone | OKX/okx_trading_bot/risk_manager/risk_manager.py:81-88 | for a long with a positive entry, a lower price keeps a triggered stop loss triggered |
| RiskManager.TotalExposure | OKX/okx_trading_bot/risk_manager/risk_manager.py:363-365 | the exposure is non-negative, and zero exactly when every position size is zero |
| RiskManager.SizeByRisk | OKX/okx_trading_bot/risk_manager/risk_manager.py:239-264 | zero when the stop sits at the entry price; otherwise never above the maximum position size |
| RiskManager.SizeByRiskBudget | OKX/okx_trading_bot/risk_manager/risk_manager.py:252-264 | the loss taken at the stop never exceeds the balance times the risk share, and equals it when the cap does not bind |
| RiskManager.WinCount | OKX/okx_trading_bot/risk_manager/risk_manager.py:327 | the number of winners is at most the number of trades |
| RiskManager.RecentTrades | OKX/okx_trading_bot/risk_manager/risk_manager.py:326 | the last ten trades in their order, or all of them when there are fewer |
| RiskManager.WinRate | OKX/okx_trading_bot/risk_manager/risk_manager.py:328 | a share in [0, 1], and 0.5 for no trades |
| RiskManager.AdjustedSize | OKX/okx_trading_bot/risk_manager/risk_manager.py:312-346 | with size reduction off or fewer than five trades today the base size is returned unchanged |
| RiskManager.AdjustedSizeBounds | OKX/okx_trading_bot/risk_manager/risk_manager.py:331-346 | with a scaling factor in [0, 1] the adjusted size is at most 1.2 times the base, at most the larger of the base and the maximum, and a grown size stays within the maximum |
| RiskManager.LosingRecordScalesDown | OKX/okx_trading_bot/risk_manager/risk_manager.py:322-336 | after five trades, a recent win rate below the threshold scales the size by the factor whatever the winning streak |
| RiskManager.WinningStreakScalesUp | OKX/okx_trading_bot/risk_manager/risk_manager.py:338-344 | after five trades, a recent win rate at or above the threshold and three or more wins in a row give min(base · min(1.2, 2 − factor), max_position_size) |
| RiskManager.SteadyRecordKeepsSize | OKX/okx_trading_bot/risk_manager/risk_manager.py:329-346 | after five trades, a recent win rate at or above the threshold with fewer than three wins in a row returns the base size unchanged |
| RiskManager.Recent | OKX/okx_trading_bot/risk_manager/risk_manager.py:289-290 | the pruned list holds exactly the trades newer than the cutoff and is no longer than before |
| RiskManager.RecentCounts | OKX/okx_trading_bot/risk_manager/risk_manager.py:290-292 | each trade newer than the cutoff is kept as many times as it occurs and no other trade is kept, so the hourly count is the number of trades in the last hour |
| RiskManager.RecentConcat | OKX/okx_trading_bot/risk_manager/risk_manager.py:290 | pruning keeps the order: pruning a concatenation is the concatenation of the pruned parts |
| RiskManager.RecentSnoc | OKX/okx_trading_bot/risk_manager/risk_manager.py:290 | a trade appended at the end stays last exactly when it is newer than the cutoff |
| RiskManager.PositionsAfterLookup | OKX/okx_trading_bot/risk_manager/risk_manager.py:348-361 | after an update the symbol is present unless a zero size removed it, holds the new size, and every other symbol is as before |
| RiskManager.PositionsAfterCount | OKX/okx_trading_bot/risk_manager/risk_manager.py:348-361 | after an update the symbol counts as open exactly when its new size is non-zero, the others as before (the count of lines 297-300) |
| RiskManager.ClosingNeverOpens | OKX/okx_trading_bot/risk_manager/risk_manager.py:348-361 | a zero-size update never raises the count of open positions (the count of lines 297-300) |
| RiskManager.RiskManager.constructor | OKX/okx_trading_bot/risk_manager/risk_manager.py:9-45 | the manager starts with no trades, no positions, no cooldown, zero streaks and zero balances |
| RiskManager.RiskManager.ResetDailyStats | OKX/okx_trading_bot/risk_manager/risk_manager.py:47-54 | on a new day the daily pnl and trades start over; on the same day nothing changes |
| RiskManager.RiskManager.UpdateBalance | OKX/okx_trading_bot/risk_manager/risk_manager.py:56-60 | the current balance is set and the peak follows it upward only |
| RiskManager.RiskManager.TriggerCooldown | OKX/okx_trading_bot/risk_manager/risk_manager.py:306-310 | the cooldown ends the configured number of seconds from now |
| RiskManager.RiskManager.RecordTrade | OKX/okx_trading_bot/risk_manager/risk_manager.py:194-237 | the trade is appended to the (reset) daily list and to the last-hour list, which still holds it; the pnl is added; a win or a loss extends its streak and ends the other; a loss reaching the limit starts the cooldown |
| RiskManager.RiskManager.CheckCooldown | OKX/okx_trading_bot/risk_manager/risk_manager.py:266-280 | passes with no cooldown or once it is over, in which case the cooldown is cleared and the losing streak forgotten |
| RiskManager.RiskManager.CheckHourlyTradeLimit | OKX/okx_trading_bot/risk_manager/risk_manager.py:286-295 | the hourly list is pruned to the last hour and the check passes iff it is below the limit |
| RiskManager.RiskManager.CheckDailyLossLimit | OKX/okx_trading_bot/risk_manager/risk_manager.py:119-127 | after the daily reset, passes iff the day's pnl is above minus the daily loss limit |
| RiskManager.RiskManager.CanOpenPosition | OKX/okx_trading_bot/risk_manager/risk_manager.py:142-192 | passes iff every check passes in the source's order; the side effects of exactly the checks that ran remain |
| RiskManager.RiskManager.UpdatePosition | OKX/okx_trading_bot/risk_manager/risk_manager.py:348-361 | the positions become the update of the old map (removal for a zero size of a held symbol) |
| RiskManager.RiskManager.IsEmergencyStop | OKX/okx_trading_bot/risk_manager/risk_manager.py:367-396 | on a consistent state, an emergency stop exactly when the drawdown check fails, the daily pnl has reached minus the daily loss limit, or a cooldown is set with the losing streak at its limit |
| RiskManager.RiskManager.EmergencyStopCoversLimits | OKX/okx_trading_bot/risk_manager/risk_manager.py:129-140 | whatever makes the drawdown or the daily loss check refuse a position also calls for an emergency stop (together with lines 367-396) |
| RiskManager.RiskManager.UpdateStreaks | OKX/okx_trading_bot/risk_manager/risk_manager.py:220-230 | a win extends the winning streak and zeroes the losing one, a loss the other way round, a zero pnl changes neither; at most one streak runs; the cooldown starts exactly on a loss that brings the losing streak to the limit |
| OkxClient.Pruned | OKX/okx_trading_bot/api/okx_client.py:27 | the kept timestamps are exactly those less than one period old, and never more than before |
| OkxClient.SleepFor | OKX/okx_trading_bot/api/okx_client.py:29-32 | the sleep is never negative, and positive only when the pruned window is already full |
| OkxClient.PrunedShrinks | OKX/okx_trading_bot/api/okx_client.py:27 | at a later time no more timestamps are inside the window |
| OkxClient.PrunedTwice | OKX/okx_trading_bot/api/okx_client.py:27 | pruning at one time and then at a later one is pruning at the later one |
| OkxClient.PrunedSuffix | OKX/okx_trading_bot/api/okx_client.py:27-34 | on a time-ordered list pruning keeps a suffix |
| OkxClient.PrunedPrefixStale | OKX/okx_trading_bot/api/okx_client.py:27 | on a time-ordered list every dropped timestamp is at least one period old |
| OkxClient.HeldCountsAll | OKX/okx_trading_bot/api/okx_client.py:22-34 | the limiter's list counts exactly the admissions still inside the window at any later time |
| OkxClient.WindowNotOverfull | OKX/okx_trading_bot/api/okx_client.py:22-34 | a valid limiter never holds more than max_calls calls inside one window |
| OkxClient.AdmitKeepsSuffix | OKX/okx_trading_bot/api/okx_client.py:27-34 | after pruning and appending, the list is still the live suffix of all admissions |
| OkxClient.AdmitKeepsBound | OKX/okx_trading_bot/api/okx_client.py:29-34 | an admission made after the sleep asked for keeps every window within max_calls admissions |
| OkxClient.AdmitKeepsState | OKX/okx_trading_bot/api/okx_client.py:22-34 | an admission keeps the whole limiter invariant |
| OkxClient.RejectKeepsState | OKX/okx_trading_bot/api/okx_client.py:29-30 | the IndexError path (no calls kept, a full window of size zero) keeps the limiter invariant |
| OkxClient.RateLimiter.constructor | OKX/okx_trading_bot/api/okx_client.py:16-20 | a fresh limiter has no calls and satisfies its invariant |
| OkxClient.RateLimiter.Wait | OKX/okx_trading_bot/api/okx_client.py:22-34 | prunes, sleeps what SleepFor says and records the time after the sleep; raises IndexError exactly when the window holds nothing yet counts as full (max_calls <= 0); keeps the invariant when the clock does not run backwards |
| OkxClient.FirstOk | OKX/okx_trading_bot/api/okx_client.py:45-47 | names an attempt in range that succeeded, or none when every attempt in range failed |
| OkxClient.FirstOkIsFirst | OKX/okx_trading_bot/api/okx_client.py:45-47 | every attempt before the one FirstOk names failed |
| OkxClient.Backoff | OKX/okx_trading_bot/api/okx_client.py:43-52 | the schedule holds one sleep per failed non-final attempt |
| OkxClient.BackoffIsGeometric | OKX/okx_trading_bot/api/okx_client.py:43-52 | the i-th sleep is delay times backoff to the power i |
| OkxClient.RetryReturnsFirstSuccess | OKX/okx_trading_bot/api/okx_client.py:37-54 | the decorator succeeds iff some attempt within max_retries succeeds, returning the first success unchanged after at most max_retries calls, all earlier calls having failed |
| OkxClient.RetryExhausted | OKX/okx_trading_bot/api/okx_client.py:45-54 | when every attempt fails all max_retries calls are made and the last exception is raised; with no attempt, None is raised |
| OkxClient.RetryIgnoresErrorKind | OKX/okx_trading_bot/api/okx_client.py:48-52 | which exception an attempt raises changes neither the number of calls nor whether the call succeeds |
| OkxClient.RetryMeaning | OKX/okx_trading_bot/api/okx_client.py:37-54 | the decorator's loop returns RetryResult after AttemptCount calls, sleeping the geometric schedule between consecutive calls |
| OkxClient.RequestPath | OKX/okx_trading_bot/api/okx_client.py:116-119 | the signed path is the endpoint, extended by "?" and the encoded query exactly when there are parameters |
| OkxClient.RequestPathHasQuery | OKX/okx_trading_bot/api/okx_client.py:116-119 | for an endpoint without "?", the path has a "?" iff parameters were given |
| OkxClient.Body | OKX/okx_trading_bot/api/okx_client.py:122-124 | the body is empty without data and the JSON text of the data otherwise |
| OkxClient.PreHashParts | OKX/okx_trading_bot/api/okx_client.py:93-95 | the signed message is timestamp, method, request path and body laid end to end, each readable back from its place |
| OkxClient.BaseHeaders | OKX/okx_trading_bot/api/okx_client.py:72-80 | the fixed headers carry the key and passphrase, and the simulated-trading flag "1" exactly on the simulated account |
| OkxClient.BuildRequestSigned | OKX/okx_trading_bot/api/okx_client.py:105-132 | a request goes to the base URL plus the endpoint, carries the fixed headers plus the signature over exactly timestamp + method + path + body and the timestamp it signed |
| OkxClient.ClassifyReply | OKX/okx_trading_bot/api/okx_client.py:146-153 | a reply is returned iff its code is "0"; code "50011" raises the rate-limit error; any other code raises an API error with the message or "Unknown error" |
| OkxClient.AttemptResult | OKX/okx_trading_bot/api/okx_client.py:135-156 | a method other than GET or POST raises, a transport failure raises "Request failed", a delivered reply is judged by its code |
| OkxClient.OkxClient.constructor | OKX/okx_trading_bot/api/okx_client.py:62-91 | the client keeps its credentials, builds the fixed headers and a fresh empty rate limiter |
| OkxClient.OkxClient.Attempt | OKX/okx_trading_bot/api/okx_client.py:105-156 | one call waits on the rate limiter, which records exactly one admission even when the call then fails, and returns what AttemptResult says |
| OkxClient.OkxClient.Request | OKX/okx_trading_bot/api/okx_client.py:37-54 | _request under its decorator returns the decorator's run over the attempts, and each call takes one slot of the rate limiter (together with lines 104-156) |
| OkxClient.OptionalField | OKX/okx_trading_bot/api/okx_client.py:260-265 | the optional field is present exactly when its condition holds |
| OkxClient.PlaceOrderPayload | OKX/okx_trading_bot/api/okx_client.py:237-267 | place_order posts the five mandatory fields first, posSide exactly when given and not "net", px exactly on a limit order with a price, and no other key |
| OkxClient.OrderRef | OKX/okx_trading_bot/api/okx_client.py:274-293 | the order is named by ordId when given, else by clOrdId, and a ValueError is raised exactly when neither is given |
| OkxClient.CancelAndGetAgree | OKX/okx_trading_bot/api/okx_client.py:269-295 | cancel_order and get_order accept and refuse the same arguments, and cancel's posted fields are get's query |
| OkxClient.CancelOrderPayload | OKX/okx_trading_bot/api/okx_client.py:269-281 | cancel_order posts instId with ordId when given (clOrdId then ignored), else clOrdId, and sends nothing with neither |
| OkxClient.TriggerPair | OKX/okx_trading_bot/api/okx_client.py:359-365 | a take-profit or stop-loss pair is sent exactly when its trigger price is given, with order price -1 when none is |
| OkxClient.PlaceAlgoOrderPayload | OKX/okx_trading_bot/api/okx_client.py:332-367 | place_algo_order posts the five mandatory fields first, each pair exactly when its trigger price is given, and no other key |
| OkxClient.ClosePositionPayload | OKX/okx_trading_bot/api/okx_client.py:407-423 | close_position posts instId, mgnMode and posSide exactly when given and not "net", and no other key |
| OkxClient.PosSideRuleShared | OKX/okx_trading_bot/api/okx_client.py:260-262 | place_order and close_position decide posSide by the same rule (together with lines 421-422) |
| OkxWebSocket.WsUrlDistinct | OKX/okx_trading_bot/api/okx_websocket.py:22-34 | two clients share an endpoint exactly when they agree on simulation and on whether the channel type is "private" |
| OkxWebSocket.LoginPreHash | OKX/okx_trading_bot/api/okx_websocket.py:43-45 | the login message is the timestamp followed by the fixed 21-character method and path |
| OkxWebSocket.LoginPreHashIsRestPreHash | OKX/okx_trading_bot/api/okx_websocket.py:43-45 | the login signature covers the same string as a bodiless REST GET of /users/self/verify |
| OkxWebSocket.ChannelArgs | OKX/okx_trading_bot/api/okx_websocket.py:203-229 | the request args name the channel, and the instrument exactly when one is given |
| OkxWebSocket.Register | OKX/okx_trading_bot/api/okx_websocket.py:216-220 | registering adds the key to the registry and keeps every other key |
| OkxWebSocket.UntilFailureMeaning | OKX/okx_trading_bot/api/okx_websocket.py:74-86 | the handlers that ran are a prefix of the group, all but the last returned, all ran when none raised, and otherwise the run ends at the first that raised |
| OkxWebSocket.UntilFailureAppend | OKX/okx_trading_bot/api/okx_websocket.py:73-86 | a raise in the first group ends the whole frame; otherwise the second group runs after all of the first |
| OkxWebSocket.DispatchRunsBothGroups | OKX/okx_trading_bot/api/okx_websocket.py:68-81 | a data frame whose handlers all return runs every handler of "channel:instId" in registration order, then every handler of the bare channel |
| OkxWebSocket.DispatchStopsAtFailure | OKX/okx_trading_bot/api/okx_websocket.py:68-86 | when a handler raises, the frame's dispatch stops right after it |
| OkxWebSocket.SubscribedHandlerReached | OKX/okx_trading_bot/api/okx_websocket.py:68-81 | a handler subscribed for a channel and instrument is among the targets of every data frame for them (together with lines 216-220) |
| OkxWebSocket.RegisterTouchesOneKey | OKX/okx_trading_bot/api/okx_websocket.py:216-220 | registering appends the handler to its key's list and leaves every other list as it was |
| OkxWebSocket.OkxWebSocket.constructor | OKX/okx_trading_bot/api/okx_websocket.py:14-41 | the client keeps its settings, picks the URL of its account and channel type, and starts disconnected with no handlers |
| OkxWebSocket.OkxWebSocket.OnOpen | OKX/okx_trading_bot/api/okx_websocket.py:98-122 | the client becomes connected; with all three credentials it writes a login frame signed over the login message when the send succeeds, and raises, with nothing written, when it fails |
| OkxWebSocket.OkxWebSocket.OnError | OKX/okx_trading_bot/api/okx_websocket.py:88-91 | the client becomes disconnected; nothing else changes |
| OkxWebSocket.OkxWebSocket.OnClose | OKX/okx_trading_bot/api/okx_websocket.py:93-96 | the client becomes disconnected; nothing else changes |
| OkxWebSocket.OkxWebSocket.Disconnect | OKX/okx_trading_bot/api/okx_websocket.py:184-188 | the client becomes disconnected and keeps its handlers |
| OkxWebSocket.OkxWebSocket.Connect | OKX/okx_trading_bot/api/okx_websocket.py:154-182 | connecting succeeds iff the socket opens or the client was already connected, otherwise raises the timeout; only a login may be written, and only when its send succeeds, never a subscription |
| OkxWebSocket.OkxWebSocket.TryReconnect | OKX/okx_trading_bot/api/okx_websocket.py:136-152 | gives up at the cap; otherwise counts the attempt, backs off 2^count seconds (at most 32) and reconnects, resetting the counter only on success |
| OkxWebSocket.OkxWebSocket.Subscribe | OKX/okx_trading_bot/api/okx_websocket.py:190-220 | refused when not connected; a failed send raises with nothing written or registered; otherwise the request is written and the callback registered after those already under its key |
| OkxWebSocket.OkxWebSocket.Unsubscribe | OKX/okx_trading_bot/api/okx_websocket.py:222-241 | nothing when not connected; a failed send raises and keeps the handlers; otherwise the request is written and the key's whole handler list dropped |
| OkxWebSocket.OkxWebSocket.RunGroup | OKX/okx_trading_bot/api/okx_websocket.py:75-81 | runs the handlers in order until one raises, and reports whether one did |
| OkxWebSocket.OkxWebSocket.OnMessage | OKX/okx_trading_bot/api/okx_websocket.py:54-86 | the handlers invoked by one inbound frame are what Dispatched says, and the registry is only read |
| GridStrategy.SetupOutcome | OKX/okx_trading_bot/strategies/grid_strategy.py:11-78 | construction succeeds exactly on at least two levels, a valid range, a non-zero mid price and non-zero contract details; it then has grid_num levels and at least the minimum order size |
| GridStrategy.GridOrdersAreNetLimit | OKX/okx_trading_bot/strategies/grid_strategy.py:103-115 | grid orders are cross-margin limit orders on the given side, never carrying posSide |
| GridStrategy.Place | OKX/okx_trading_bot/strategies/grid_strategy.py:103-130 | placing an order at a level keeps every tracked order at its own level's price |
| GridStrategy.PlaceRecordsOnlyOnSuccess | OKX/okx_trading_bot/strategies/grid_strategy.py:103-130 | a placement sends one request and records the order as pending under its level only when the exchange accepted it; no other level changes |
| GridStrategy.InitFromSends | OKX/okx_trading_bot/strategies/grid_strategy.py:80-101 | initialize_grid sends exactly the initial requests and fills nothing |
| GridStrategy.InitialRequestsSides | OKX/okx_trading_bot/strategies/grid_strategy.py:92-99 | one request per level that differs from the price, in level order: a buy below the price, a sell above, none at it |
| GridStrategy.InitializedAroundPrice | OKX/okx_trading_bot/strategies/grid_strategy.py:80-101 | after initialization every tracked order is a buy below the price or a sell above it |
| GridStrategy.FindIn | OKX/okx_trading_bot/strategies/grid_strategy.py:154-160 | the level found is the first key in dict order whose order has that id, every earlier key holding none; none found means no tracked order has it |
| GridStrategy.AfterFill | OKX/okx_trading_bot/strategies/grid_strategy.py:179-217 | the fill handler keeps every tracked order at its own level's price |
| GridStrategy.Step | OKX/okx_trading_bot/strategies/grid_strategy.py:146-177 | one update keeps the tracked orders well formed |
| GridStrategy.AfterUpdates | OKX/okx_trading_bot/strategies/grid_strategy.py:146-177 | a batch of updates keeps the tracked orders well formed |
| GridStrategy.StepOutcome | OKX/okx_trading_bot/strategies/grid_strategy.py:146-177 | an unknown id or a state other than filled or canceled changes nothing; canceled forgets the level; filled marks the level filled and drops its order |
| GridStrategy.FillOutcome | OKX/okx_trading_bot/strategies/grid_strategy.py:179-217 | after a buy fill a sell goes one level up exactly when that level exists and the step earns the minimum profit rate, after a sell fill a buy one level down under the mirrored rule, and nothing else is sent |
| GridStrategy.CancelRequestsCover | OKX/okx_trading_bot/strategies/grid_strategy.py:224-240 | every tracked order with an id is cancelled, and nothing else |
| GridStrategy.GridStrategy.constructor | OKX/okx_trading_bot/strategies/grid_strategy.py:11-78 | built only from a successful setup of its configuration: grid_num levels, a quantity of at least the minimum size, and no orders, no filled levels and no current price yet |
| GridStrategy.GridStrategy.PlaceGridOrder | OKX/okx_trading_bot/strategies/grid_strategy.py:103-130 | the state becomes what Place says and stays well formed |
| GridStrategy.GridStrategy.InitializeGrid | OKX/okx_trading_bot/strategies/grid_strategy.py:80-101 | without a ticker price nothing changes; otherwise the price is stored and the orders are placed around it |
| GridStrategy.GridStrategy.PlaceAroundPrice | OKX/okx_trading_bot/strategies/grid_strategy.py:92-99 | the loop over the levels ends in the state InitFrom describes |
| GridStrategy.GridStrategy.OnTick | OKX/okx_trading_bot/strategies/grid_strategy.py:132-144 | the first entry's last price, when present and positive, becomes the current price |
| GridStrategy.GridStrategy.FindGridIndex | OKX/okx_trading_bot/strategies/grid_strategy.py:154-160 | the search loop returns the first level in dict order whose order has the id |
| GridStrategy.GridStrategy.HandleFilledOrder | OKX/okx_trading_bot/strategies/grid_strategy.py:179-217 | the state becomes what AfterFill says |
| GridStrategy.GridStrategy.OnOrderUpdate | OKX/okx_trading_bot/strategies/grid_strategy.py:146-177 | the state becomes the updates applied in order |
| GridStrategy.GridStrategy.CancelAllOrders | OKX/okx_trading_bot/strategies/grid_strategy.py:224-240 | one cancel request per tracked order in dict order, then no tracked orders and zero pending |
| GridStrategy.GridStrategy.Status | OKX/okx_trading_bot/strategies/grid_strategy.py:242-252 | pending orders is the number of tracked levels and never exceeds the levels of the grid; filled grids is the size of the filled set; the orders, symbol, price and range are reported as held |
| GridStrategy.TrackedWithinLevels | OKX/okx_trading_bot/strategies/grid_strategy.py:116-124 | orders are tracked one per grid index, so there are never more tracked orders than levels |
| PositionStrategy.ExitDuePrices | OKX/okx_trading_bot/strategies/position_strategy.py:156-185 | in prices: a long closes at or above entry*(1+tp) or at or below entry*(1-sl), a short at or below entry*(1-tp) or at or above entry*(1+sl), any other side never |
| PositionStrategy.CloseQuantityTruncates | OKX/okx_trading_bot/strategies/position_strategy.py:236 | the closing quantity is int() of the contracts: never above the position, less than one contract short of it, and all of it exactly for a whole number |
| PositionStrategy.OpenedOneOrder | OKX/okx_trading_bot/strategies/position_strategy.py:190-227 | opening sends at most one market order on the strategy's symbol and keeps the state consistent |
| PositionStrategy.ClosedOneOrder | OKX/okx_trading_bot/strategies/position_strategy.py:229-261 | closing sends at most one market order on the strategy's symbol and keeps the state consistent |
| PositionStrategy.AnalysedOneOrder | OKX/okx_trading_bot/strategies/position_strategy.py:84-97 | one analysis (read-back, then exit check or entry check) sends at most one order and keeps the state consistent |
| PositionStrategy.TickAtMostOneOrder | OKX/okx_trading_bot/strategies/position_strategy.py:62-97 | a tick keeps the state consistent, sends at most one market order on the strategy's symbol and keeps the requests sent before |
| PositionStrategy.TickBuffersPrice | OKX/okx_trading_bot/strategies/position_strategy.py:62-78 | a usable price becomes the current price and joins the buffer, which keeps the newest prices up to the long period; a missing or non-positive price changes nothing |
| PositionStrategy.AnalysedKeepsBuffer | OKX/okx_trading_bot/strategies/position_strategy.py:84-97 | the analysis leaves the price buffer, the current price and the check time alone |
| PositionStrategy.TickThrottled | OKX/okx_trading_bot/strategies/position_strategy.py:80-85 | within 30 seconds of the last analysis a tick sends nothing and keeps the position; after that the analysis runs and is stamped with the clock |
| PositionStrategy.TickOpensOnSignal | OKX/okx_trading_bot/strategies/position_strategy.py:84-97 | holding nothing, an entry signal sends exactly one opening market order on the signal's side for the lot-rounded size, at least the minimum size, printed as an int while the int defaults are in force; the position is read back only when the order was accepted (together with lines 130-154, 190-227) |
| PositionStrategy.TickClosesOnExit | OKX/okx_trading_bot/strategies/position_strategy.py:84-97 | holding a position, the tick closes it exactly when the exit rule holds, with one order on the closing side for the truncated quantity, and drops the position exactly when the order was accepted (together with lines 156-188, 229-261) |
| PositionStrategy.PositionStrategy.constructor | OKX/okx_trading_bot/strategies/position_strategy.py:15-60 | the strategy reads its contract details from the instrument list (defaults otherwise) and starts with no position and no prices |
| PositionStrategy.PositionStrategy.CalculateMa | OKX/okx_trading_bot/strategies/position_strategy.py:124-128 | the average is absent exactly while the buffer holds fewer prices than the period |
| PositionStrategy.PositionStrategy.UpdatePosition | OKX/okx_trading_bot/strategies/position_strategy.py:99-122 | only the position changes, to what the positions answer says |
| PositionStrategy.PositionStrategy.OpenPosition | OKX/okx_trading_bot/strategies/position_strategy.py:190-227 | the state becomes what Opened says: one market order whose size text is `str` of an int under the int defaults and of a float otherwise |
| PositionStrategy.DefaultQuantityWhole | OKX/okx_trading_bot/strategies/position_strategy.py:195-212 | under the int defaults (minimum 1, step 1) the opening quantity is a whole number of at least 1 contract, and its text is the int's |
| PositionStrategy.PositionStrategy.ClosePosition | OKX/okx_trading_bot/strategies/position_strategy.py:229-261 | the state becomes what Closed says |
| PositionStrategy.PositionStrategy.CheckEntrySignals | OKX/okx_trading_bot/strategies/position_strategy.py:130-154 | the state becomes what Entered says |
| PositionStrategy.PositionStrategy.CheckExitConditions | OKX/okx_trading_bot/strategies/position_strategy.py:156-188 | the state becomes what Exited says |
| PositionStrategy.PositionStrategy.OnTick | OKX/okx_trading_bot/strategies/position_strategy.py:62-97 | the state becomes what Tick says |
| PositionStrategy.PositionStrategy.CloseAllPositions | OKX/okx_trading_bot/strategies/position_strategy.py:286-291 | the state becomes what ClosedAll says |
| PositionStrategy.PositionStrategy.Status | OKX/okx_trading_bot/strategies/position_strategy.py:293-301 | each average is absent until the buffer holds its period; the position and price are reported as held |
| Indicators.MovingAverage | OKX/okx_trading_bot/strategies/advanced_strategy.py:191-195 | the average is absent exactly when fewer than period prices are given |
| Indicators.MovingAverageBounds | OKX/okx_trading_bot/strategies/advanced_strategy.py:191-195 | the average lies between the lowest and the highest of the prices it averages |
| Indicators.Crossover | OKX/okx_trading_bot/strategies/position_strategy.py:130-154 | a signal needs at least as many prices as both periods |
| Indicators.CrossoverFollowsTrend | OKX/okx_trading_bot/strategies/position_strategy.py:130-154 | no signal before the long period is buffered; "long" iff the long average < the short average < the price, "short" iff the mirrored order holds, and no other signal |
| Indicators.Gain | OKX/okx_trading_bot/strategies/smart_profit_strategy.py:117-123 | a move's gain is never negative |
| Indicators.Loss | OKX/okx_trading_bot/strategies/smart_profit_strategy.py:117-123 | a move's loss is never negative |
| Indicators.Gains | OKX/okx_trading_bot/strategies/smart_profit_strategy.py:116-123 | one non-negative gain per move between consecutive prices |
| Indicators.Losses | OKX/okx_trading_bot/strategies/smart_profit_strategy.py:116-123 | one non-negative loss per move between consecutive prices |
| Indicators.WindowGain | OKX/okx_trading_bot/strategies/smart_profit_strategy.py:125 | the total gain of the last period moves is non-negative |
| Indicators.WindowLoss | OKX/okx_trading_bot/strategies/smart_profit_strategy.py:126 | the total loss of the last period moves is non-negative |
| Indicators.Rsi | OKX/okx_trading_bot/strategies/smart_profit_strategy.py:107-133 | the index is absent exactly with fewer than period + 1 prices |
| Indicators.RsiOfSums | OKX/okx_trading_bot/strategies/smart_profit_strategy.py:125-133 | from total gain and loss: 100 with no loss, otherwise 100 G / (G + L) |
| Indicators.RsiIsGainShare | OKX/okx_trading_bot/strategies/smart_profit_strategy.py:107-133 | the index is 100 times the gains' share of all moves (100 with no loss), so it lies in [0, 100], is 100 iff nothing was lost and 0 iff something was lost and nothing gained |
| Indicators.RsiOfWindow | OKX/okx_trading_bot/strategies/smart_profit_strategy.py:109-112 | computing the index on the last period + 1 prices gives the same as on the whole list |
| Indicators.MovesOfSuffix | OKX/okx_trading_bot/strategies/smart_profit_strategy.py:112-123 | the moves of a suffix are the suffix of the moves |
| Indicators.Moves | OKX/okx_trading_bot/strategies/smart_profit_strategy.py:113-123 | the loop lists exactly the gains and the losses of every move |
| Indicators.CalculateRsi | OKX/okx_trading_bot/strategies/smart_profit_strategy.py:107-133 | the method computes the index Rsi describes |
| Indicators.Smoothing | OKX/okx_trading_bot/strategies/advanced_strategy.py:202 | the smoothing factor 2 / (period + 1) lies in (0, 1] |
| Indicators.Ema | OKX/okx_trading_bot/strategies/advanced_strategy.py:197-206 | the average is absent exactly with fewer than period prices |
| Indicators.StepBetween | OKX/okx_trading_bot/strategies/advanced_strategy.py:205 | one smoothing step stays between the old average and the price |
| Indicators.EmaFoldBounds | OKX/okx_trading_bot/strategies/advanced_strategy.py:203-205 | the folded average never leaves a range holding the seed and every price |
| Indicators.EmaBounds | OKX/okx_trading_bot/strategies/advanced_strategy.py:197-206 | the average never leaves the range of the prices |
| Indicators.EmaFoldSnoc | OKX/okx_trading_bot/strategies/advanced_strategy.py:204-205 | one more price moves the folded average by the factor times the gap to that price |
| Indicators.EmaRecurrence | OKX/okx_trading_bot/strategies/advanced_strategy.py:197-206 | the average of a list extended by one price is one smoothing step from the average of the list |
| Indicators.CalculateEma | OKX/okx_trading_bot/strategies/advanced_strategy.py:197-206 | the loop computes the average Ema describes |
| Indicators.BollingerBands | OKX/okx_trading_bot/strategies/advanced_strategy.py:254-266 | bands exist exactly with at least period prices; the middle is the moving average, the bands are symmetric around it and ordered for a non-negative deviation |
| Market.SpecOf | OKX/okx_trading_bot/strategies/position_strategy.py:36-39 | each contract detail the entry lacks is taken from the defaults, and the sizes are floats |
| Market.FirstSpecIsFirstMatch | OKX/okx_trading_bot/strategies/position_strategy.py:33-41 | the first instrument entry with the symbol decides the contract details |
| Market.FirstSpecNoMatch | OKX/okx_trading_bot/strategies/position_strategy.py:28-43 | without a matching entry the defaults stay |
| Market.LoadSpecIntSizes | OKX/okx_trading_bot/strategies/position_strategy.py:28-43 | int sizes survive only when the defaults stay: a listed instrument's sizes pass through float() |
| Market.FirstSpecIntSizes | OKX/okx_trading_bot/strategies/position_strategy.py:34-39 | the first matching entry yields float sizes; without one the defaults stay |
| Market.OrderSize | OKX/okx_trading_bot/strategies/position_strategy.py:196-201 | the quantity sent is never below the minimum size |
| Market.OrderSizeNearestLot | OKX/okx_trading_bot/strategies/position_strategy.py:196-197 | unless the minimum applies, the quantity is the whole number of size steps nearest to the wanted quantity (ties to even), within half a step of it |
| Market.OpenContracts | OKX/okx_trading_bot/strategies/position_strategy.py:190-201 | a quantity exists exactly when contract value and size step are non-zero, and is at least the minimum size |
| Market.FirstOpen | OKX/okx_trading_bot/strategies/position_strategy.py:103-116 | a position read is long or short with a positive size equal to its contracts |
| Market.FirstOpenIsFirstNonZero | OKX/okx_trading_bot/strategies/position_strategy.py:103-116 | the position is the first entry with a non-zero size, on the side its sign gives, with the size taken absolutely |
| Market.FirstOpenAllFlat | OKX/okx_trading_bot/strategies/position_strategy.py:117-118 | all-zero entries read as no position |
| Market.FindOpenPosition | OKX/okx_trading_bot/strategies/position_strategy.py:104-118 | the loop over the positions list returns what FirstOpen says |
| Market.ReadPositionShape | OKX/okx_trading_bot/strategies/position_strategy.py:99-122 | a position read back is long or short with a positive size; a failed or empty answer clears it; only a raised request keeps the old one |
| Market.ProfitRate | OKX/okx_trading_bot/strategies/position_strategy.py:162-178 | the rate is absent exactly when the entry price is zero |
| Market.ProfitRateIsPnlRate | OKX/okx_trading_bot/strategies/position_strategy.py:162-178 | for a long or a short the strategies' profit rate is the helpers' pnl rate |
| Market.ProfitRateThreshold | OKX/okx_trading_bot/strategies/position_strategy.py:165-185 | for a positive entry price a rate threshold is a price threshold: above entry*(1+t) for a long, below entry*(1-t) for a short |
| Market.CloseSideOpposite | OKX/okx_trading_bot/strategies/position_strategy.py:238-239 | closing a long or a short trades against the side that opened it (the opening side of line 204) |
| Market.MarketOrderFields | OKX/okx_trading_bot/strategies/position_strategy.py:208-215 | the strategies' orders are cross-margin market orders on the symbol, side and size given, without price or posSide |
| Market.AppendedMarketOrder | OKX/okx_trading_bot/strategies/position_strategy.py:208-215 | appending one market order is one more market order on its symbol |
| Market.PlacedOrderId | OKX/okx_trading_bot/strategies/position_strategy.py:217-218 | an order id is read only from an accepted reply with data |
| Market.Pushed | OKX/okx_trading_bot/strategies/position_strategy.py:76-78 | the newest price ends the buffer |
| Market.PushedBounded | OKX/okx_trading_bot/strategies/position_strategy.py:76-78 | the buffer never outgrows its cap and keeps the newest prices in arrival order |
| Market.TickerPrice | OKX/okx_trading_bot/strategies/position_strategy.py:65-71 | a price is taken exactly when the first entry has a positive last price |
| Market.Closes | OKX/okx_trading_bot/strategies/advanced_strategy.py:151-171 | the close column of the candle rows, row by row |
| Market.Highs | OKX/okx_trading_bot/strategies/enhanced_strategy.py:427-433 | the high column of the candle rows, row by row |
| Market.Lows | OKX/okx_trading_bot/strategies/enhanced_strategy.py:427-433 | the low column of the candle rows, row by row |
| Market.Volumes | OKX/okx_trading_bot/strategies/advanced_strategy.py:151-171 | the volume column of the candle rows, row by row |
| Market.TalliedKeepsValid | OKX/okx_trading_bot/strategies/smart_profit_strategy.py:513-521 | a closed trade counts once, counts as a win exactly when its rate is positive, and exactly one streak grows while the other restarts |
| Market.WinRate | OKX/okx_trading_bot/strategies/smart_profit_strategy.py:582 | the win rate lies in [0, 1], is 0 before the first trade and 1 when every trade won |
| SmartProfitStrategy.BufferRsi | OKX/okx_trading_bot/strategies/smart_profit_strategy.py:107-112 | the index is absent exactly while the buffer holds fewer than period + 1 prices |
| SmartProfitStrategy.BufferRsiIsRsi | OKX/okx_trading_bot/strategies/smart_profit_strategy.py:107-133 | taking the last period + 1 prices first changes nothing: it is the RSI of the whole buffer, within [0, 100] |
| SmartProfitStrategy.CalculateRsi | OKX/okx_trading_bot/strategies/smart_profit_strategy.py:107-133 | the gains-and-losses loop over the window computes BufferRsi |
| SmartProfitStrategy.Returns | OKX/okx_trading_bot/strategies/smart_profit_strategy.py:135-147 | the relative changes exist exactly when no price but the last is zero, one per consecutive pair |
| SmartProfitStrategy.Volatility | OKX/okx_trading_bot/strategies/smart_profit_strategy.py:135-147 | 4% until 20 prices are buffered; then a volatility exists exactly when none of the window's prices before the last is 0, the divisor of a return |
| SmartProfitStrategy.IsTradingTime | OKX/okx_trading_bot/strategies/smart_profit_strategy.py:149-161 | always true with the filter off; with it on, true exactly for the UTC hours 0, 1, 12-15 and 20-23 |
| SmartProfitStrategy.SignalStrengthRange | OKX/okx_trading_bot/strategies/smart_profit_strategy.py:163-218 | the score lies in 20..100 and is 100 exactly when the averages are over 0.5% apart, the RSI is non-zero and beyond 30 (long) or 70 (short), the price is on the side's side of the short average, and the hour is a trading hour |
| SmartProfitStrategy.RsiZeroScoresNothing | OKX/okx_trading_bot/strategies/smart_profit_strategy.py:187-190 | by the truthiness test, an RSI of exactly 0 scores no RSI points for a long while any positive RSI below 30 scores the full 30 |
| SmartProfitStrategy.DynamicSizeBounds | OKX/okx_trading_bot/strategies/smart_profit_strategy.py:220-258 | the multiplier lies in [0.35, 1.95], so the size stays within half and 1.95 times the base; two losses in a row keep it at most 1.05; before five trades without a streak it is the base |
| SmartProfitStrategy.AdaptiveStopsBands | OKX/okx_trading_bot/strategies/smart_profit_strategy.py:260-284 | adapted stops stay in [1.5%, 3%] and [3%, 6%], and a more volatile market never tightens them |
| SmartProfitStrategy.ClosedTallies | OKX/okx_trading_bot/strategies/smart_profit_strategy.py:489-541 | a close sends one market order; an accepted one counts the trade once (a win exactly for a positive rate), clears the position and the trailing stop and records the trade; a refused one changes only the requests sent |
| SmartProfitStrategy.ExitedTrailsExtreme | OKX/okx_trading_bot/strategies/smart_profit_strategy.py:412-460 | while the trailing stop stays on its extreme only moves with the position and never behind the price checked; it switches on only past the trigger, at the current price |
| SmartProfitStrategy.TrailingCloseFirst | OKX/okx_trading_bot/strategies/smart_profit_strategy.py:430-460 | past the trigger, a drawdown of the trailing distance from the updated extreme closes for the trailing reason before the fixed rates are consulted |
| SmartProfitStrategy.EnteredNeedsStrength | OKX/okx_trading_bot/strategies/smart_profit_strategy.py:321-369 | an opening order follows a crossover signal and, with the filter on, a score of at least the minimum |
| SmartProfitStrategy.OpenedOneOrder | OKX/okx_trading_bot/strategies/smart_profit_strategy.py:371-410 | opening sends at most one market order and leaves statistics, trade history and buffer alone |
| SmartProfitStrategy.FixedExitOneOrder | OKX/okx_trading_bot/strategies/smart_profit_strategy.py:462-487 | the fixed stop-loss and take-profit exit sends at most one order and keeps the state consistent |
| SmartProfitStrategy.ExitedOneOrder | OKX/okx_trading_bot/strategies/smart_profit_strategy.py:412-487 | the exit check sends at most one order and changes the statistics only by one closed trade |
| SmartProfitStrategy.EnteredOneOrder | OKX/okx_trading_bot/strategies/smart_profit_strategy.py:321-369 | the entry check sends at most one order and leaves statistics, trade history and buffer alone |
| SmartProfitStrategy.TickAtMostOneOrder | OKX/okx_trading_bot/strategies/smart_profit_strategy.py:286-319 | a tick keeps the state consistent, sends at most one market order on the symbol and changes the statistics only by tallying one closed trade |
| SmartProfitStrategy.TickBuffersPrice | OKX/okx_trading_bot/strategies/smart_profit_strategy.py:286-319 | the buffer keeps the newest 100 prices; a missing or non-positive price changes nothing; within 30 seconds of the last analysis no order is sent |
| SmartProfitStrategy.SmartProfitStrategy.constructor | OKX/okx_trading_bot/strategies/smart_profit_strategy.py:24-99 | the strategy reads its contract details from the instrument list (defaults otherwise) and starts with no position, no prices and no trades |
| SmartProfitStrategy.SmartProfitStrategy.UpdatePosition | OKX/okx_trading_bot/strategies/smart_profit_strategy.py:543-560 | only the position changes, to what the positions answer says |
| SmartProfitStrategy.SmartProfitStrategy.ClosePosition | OKX/okx_trading_bot/strategies/smart_profit_strategy.py:489-541 | the state becomes what Closed says |
| SmartProfitStrategy.SmartProfitStrategy.RecordTrade | OKX/okx_trading_bot/strategies/smart_profit_strategy.py:513-529 | the statistics become Tallied of the old ones and the trade is appended to the history |
| SmartProfitStrategy.SmartProfitStrategy.CheckExitConditions | OKX/okx_trading_bot/strategies/smart_profit_strategy.py:412-487 | the state becomes what Exited says |
| SmartProfitStrategy.SmartProfitStrategy.OpenPosition | OKX/okx_trading_bot/strategies/smart_profit_strategy.py:371-410 | the state becomes what Opened says |
| SmartProfitStrategy.SmartProfitStrategy.CheckEntrySignals | OKX/okx_trading_bot/strategies/smart_profit_strategy.py:321-369 | the state becomes what Entered says |
| SmartProfitStrategy.SmartProfitStrategy.OnTick | OKX/okx_trading_bot/strategies/smart_profit_strategy.py:286-319 | the state becomes what Tick says |
| SmartProfitStrategy.SmartProfitStrategy.Status | OKX/okx_trading_bot/strategies/smart_profit_strategy.py:574-586 | the reported win rate lies in [0, 1], is 0 before the first trade, and winners never outnumber trades |
| SmartProfitStrategy.SmartProfitStrategy.BufferPrice | OKX/okx_trading_bot/strategies/smart_profit_strategy.py:296-300 | the price becomes the current price and joins the buffer, which then holds the newest prices up to 100; nothing else changes |
| SmartProfitStrategy.SmartProfitStrategy.Analyse | OKX/okx_trading_bot/strategies/smart_profit_strategy.py:308-316 | the state becomes what Analysed says: the position read back, then the exit check when one is held and the entry check otherwise |
| SmartProfitStrategy.SmartProfitStrategy.FollowExtreme | OKX/okx_trading_bot/strategies/smart_profit_strategy.py:428-436 | the trailing stop is on afterwards, and its extreme is NextExtreme: the price on activation, then the higher (long) or lower (short) of the extreme and the price |
| SmartProfitStrategy.SmartProfitStrategy.FixedExitCheck | OKX/okx_trading_bot/strategies/smart_profit_strategy.py:445-453 | the state becomes what FixedExit says: a close at or past the take profit, else at or past minus the stop loss, else no change |
| AdvancedStrategy.FramesOldestFirst | OKX/okx_trading_bot/strategies/advanced_strategy.py:151-171 | an accepted 15-minute reply leaves closes and volumes of equal length, oldest first with the newest candle last; a raise on the 5-minute request changes nothing; only the three series can change |
| AdvancedStrategy.Pressure | OKX/okx_trading_bot/strategies/advanced_strategy.py:268-292 | the pressure is absent exactly without a book or with an empty side |
| AdvancedStrategy.PressureShare | OKX/okx_trading_bot/strategies/advanced_strategy.py:280-288 | with non-negative sizes the pressure is a share in [0, 1], above one half exactly when the bids outweigh the asks and below it exactly when the asks do; 0 for no volume |
| AdvancedStrategy.VolumeRatio | OKX/okx_trading_bot/strategies/advanced_strategy.py:294-305 | the ratio is absent exactly before ten volumes |
| AdvancedStrategy.TrueRanges | OKX/okx_trading_bot/strategies/advanced_strategy.py:235-252 | one range per move between consecutive closes |
| AdvancedStrategy.Atr | OKX/okx_trading_bot/strategies/advanced_strategy.py:235-252 | the ATR exists exactly with at least period + 1 closes |
| AdvancedStrategy.AtrBounds | OKX/okx_trading_bot/strategies/advanced_strategy.py:235-252 | the ATR is never negative and never more than the largest of the last period moves |
| AdvancedStrategy.CalculateAtr | OKX/okx_trading_bot/strategies/advanced_strategy.py:235-252 | the loop computes the ATR Atr describes |
| AdvancedStrategy.MtfScoreRange | OKX/okx_trading_bot/strategies/advanced_strategy.py:307-334 | the score lies in [0, 100] and is 100 exactly when all three timeframes agree with the side |
| AdvancedStrategy.CalculateMtfScore | OKX/okx_trading_bot/strategies/advanced_strategy.py:318-334 | the loop over the timeframes computes the weighted score |
| AdvancedStrategy.RsiPoints | OKX/okx_trading_bot/strategies/advanced_strategy.py:336-421 | the RSI points are 0, 15 or 20, and positive only for a non-zero RSI on the side's side of 50 |
| AdvancedStrategy.BookPoints | OKX/okx_trading_bot/strategies/advanced_strategy.py:336-421 | the book points are 0, 10 or 20, and positive only when the pressure favours the side |
| AdvancedStrategy.VolumePoints | OKX/okx_trading_bot/strategies/advanced_strategy.py:336-421 | the volume points are 0, 5 or 10, positive exactly when the ratio exceeds 1.2 |
| AdvancedStrategy.FundingPoints | OKX/okx_trading_bot/strategies/advanced_strategy.py:336-421 | the funding points are 0, 5 or 10 |
| AdvancedStrategy.FundingPointsCases | OKX/okx_trading_bot/strategies/advanced_strategy.py:336-421 | a short gets the full 10 for any positive rate, so its 5-point branch never applies; a long gets 5 exactly for a positive rate below 0.01% and 10 for a negative one |
| AdvancedStrategy.SignalStrengthRange | OKX/okx_trading_bot/strategies/advanced_strategy.py:336-421 | the components add up to at most 100, so the strength lies in [0, 100] and the cap never changes it |
| AdvancedStrategy.StrengthFactor | OKX/okx_trading_bot/strategies/advanced_strategy.py:435-441 | the strength factor lies in [0.6, 1.5] |
| AdvancedStrategy.StrengthFactorMonotone | OKX/okx_trading_bot/strategies/advanced_strategy.py:435-441 | a stronger signal never gets a smaller factor |
| AdvancedStrategy.RecordFactor | OKX/okx_trading_bot/strategies/advanced_strategy.py:443-449 | the win-rate factor lies in [0.7, 1.3] |
| AdvancedStrategy.StreakFactor | OKX/okx_trading_bot/strategies/advanced_strategy.py:451-455 | the streak factor lies in [0.6, 1.2] |
| AdvancedStrategy.VolatilityFactor | OKX/okx_trading_bot/strategies/advanced_strategy.py:457-466 | the factor lies in [0.8, 1.1], and the computation raises exactly when a non-zero ATR meets a last close of 0 |
| AdvancedStrategy.CalculateVolatilityFactor | OKX/okx_trading_bot/strategies/advanced_strategy.py:457-466 | the method computes VolatilityFactor |
| AdvancedStrategy.ScaledSizeBounds | OKX/okx_trading_bot/strategies/advanced_strategy.py:468-471 | the clamped size lies within 0.3 and 2 times the base and never shrinks as the multiplier grows |
| AdvancedStrategy.DynamicSizeBounds | OKX/okx_trading_bot/strategies/advanced_strategy.py:423-471 | the size lies within 0.3 and 2 times the base, and a stronger signal never gives a smaller size |
| AdvancedStrategy.CloseQuantity | OKX/okx_trading_bot/strategies/advanced_strategy.py:624-633 | the quantity exists exactly with a non-zero size step, and is at least the minimum size or the whole position |
| AdvancedStrategy.ClosedTalliesFullOnly | OKX/okx_trading_bot/strategies/advanced_strategy.py:618-675 | a close sends at most one order; the statistics change by one tallied trade, and the position is cleared, exactly when the order was accepted and at least 99% was to be closed |
| AdvancedStrategy.LevelCloseIsPartial | OKX/okx_trading_bot/strategies/advanced_strategy.py:592-605 | every profit level closes less than 99%, so a level exit never tallies the trade nor clears the position (the 0.99 test of line 655) |
| AdvancedStrategy.FirstLevel | OKX/okx_trading_bot/strategies/advanced_strategy.py:592-596 | the level found is in range, not yet hit, and its target reached by the rate |
| AdvancedStrategy.NextLevel | OKX/okx_trading_bot/strategies/advanced_strategy.py:592-605 | with the levels hit a prefix, the level that fires is the next one when the rate reaches its target: the levels fire in order |
| AdvancedStrategy.ExitedTiers | OKX/okx_trading_bot/strategies/advanced_strategy.py:562-616 | the stop loss closes everything first, then the next profit level fires, then the trailing exit closes everything after a 2% fall from a best rate above 3% |
| AdvancedStrategy.LevelClosedOneOrder | OKX/okx_trading_bot/strategies/advanced_strategy.py:596-605 | a level exit records the level, sends at most one order and leaves the statistics alone |
| AdvancedStrategy.ExitedOneOrder | OKX/okx_trading_bot/strategies/advanced_strategy.py:562-616 | the exit check sends at most one order and keeps the state consistent |
| AdvancedStrategy.ExitedLevelsOnce | OKX/okx_trading_bot/strategies/advanced_strategy.py:562-616 | each level fires at most once and at most one per check; the best rate never falls except when a full close resets it (together with lines 618-675) |
| AdvancedStrategy.EnteredOnBands | OKX/okx_trading_bot/strategies/advanced_strategy.py:473-522 | an order is sent only on an entry condition: a buy on a long entry, a sell on a short entry that is not also a long entry |
| AdvancedStrategy.OpenedOrder | OKX/okx_trading_bot/strategies/advanced_strategy.py:524-560 | an open sends nothing or one market order on the side's order side |
| AdvancedStrategy.OpenedOneOrder | OKX/okx_trading_bot/strategies/advanced_strategy.py:524-560 | opening sends at most one market order and leaves the statistics and the buffer alone |
| AdvancedStrategy.EnteredOneOrder | OKX/okx_trading_bot/strategies/advanced_strategy.py:473-522 | the entry check sends at most one market order and leaves the statistics and the buffer alone |
| AdvancedStrategy.TickAtMostOneOrder | OKX/okx_trading_bot/strategies/advanced_strategy.py:107-149 | a tick keeps the state consistent, sends at most one market order on the symbol and changes the statistics only by tallying one closed trade |
| AdvancedStrategy.TickBuffersPrice | OKX/okx_trading_bot/strategies/advanced_strategy.py:107-149 | the 1-minute buffer keeps the newest 100 prices; a missing or non-positive price changes nothing; within 30 seconds of the last analysis no order is sent |
| AdvancedStrategy.AdvancedStrategy.constructor | OKX/okx_trading_bot/strategies/advanced_strategy.py:26-105 | the strategy reads its contract details from the instrument list (defaults otherwise) and starts with empty buffers, no position and no trades |
| AdvancedStrategy.AdvancedStrategy.UpdateMultiTimeframeData | OKX/okx_trading_bot/strategies/advanced_strategy.py:151-171 | the state becomes what FramesUpdated says |
| AdvancedStrategy.AdvancedStrategy.UpdateOrderbookData | OKX/okx_trading_bot/strategies/advanced_strategy.py:173-180 | only the book changes, to an accepted reply's first entry |
| AdvancedStrategy.AdvancedStrategy.UpdateFundingRate | OKX/okx_trading_bot/strategies/advanced_strategy.py:182-189 | only the funding rate changes, to an accepted reply's rate |
| AdvancedStrategy.AdvancedStrategy.UpdatePosition | OKX/okx_trading_bot/strategies/advanced_strategy.py:677-694 | only the position changes, to what the positions answer says |
| AdvancedStrategy.AdvancedStrategy.CalculateSignalStrength | OKX/okx_trading_bot/strategies/advanced_strategy.py:336-421 | the method computes SignalStrength of the current state |
| AdvancedStrategy.AdvancedStrategy.CalculateDynamicPositionSize | OKX/okx_trading_bot/strategies/advanced_strategy.py:423-471 | the method computes DynamicSize, None when it raises |
| AdvancedStrategy.AdvancedStrategy.ClosePosition | OKX/okx_trading_bot/strategies/advanced_strategy.py:618-675 | the state becomes what Closed says |
| AdvancedStrategy.AdvancedStrategy.RecordFullClose | OKX/okx_trading_bot/strategies/advanced_strategy.py:654-675 | the trade is tallied and the position, the levels hit and the best rate are reset |
| AdvancedStrategy.AdvancedStrategy.RecordTrade | OKX/okx_trading_bot/strategies/advanced_strategy.py:655-664 | the statistics become Tallied of the old ones |
| AdvancedStrategy.AdvancedStrategy.CheckExitConditions | OKX/okx_trading_bot/strategies/advanced_strategy.py:562-616 | the state becomes what Exited says |
| AdvancedStrategy.AdvancedStrategy.ApplyExitRules | OKX/okx_trading_bot/strategies/advanced_strategy.py:585-613 | the state becomes what ExitRules says |
| AdvancedStrategy.AdvancedStrategy.ExitLevel | OKX/okx_trading_bot/strategies/advanced_strategy.py:596-605 | the state becomes what LevelClosed says |
| AdvancedStrategy.AdvancedStrategy.OpenPosition | OKX/okx_trading_bot/strategies/advanced_strategy.py:524-560 | the state becomes what Opened says |
| AdvancedStrategy.AdvancedStrategy.CheckEntrySignals | OKX/okx_trading_bot/strategies/advanced_strategy.py:473-522 | the state becomes what Entered says |
| AdvancedStrategy.AdvancedStrategy.OnTick | OKX/okx_trading_bot/strategies/advanced_strategy.py:107-149 | the state becomes what Tick says |
| AdvancedStrategy.AdvancedStrategy.PushPrice | OKX/okx_trading_bot/strategies/advanced_strategy.py:116-120 | only the 1-minute buffer changes, by Pushed with the cap of 100 |
| AdvancedStrategy.AdvancedStrategy.Analyse | OKX/okx_trading_bot/strategies/advanced_strategy.py:128-146 | the state becomes what Analysed says |
| AdvancedStrategy.AdvancedStrategy.RefreshMarketData | OKX/okx_trading_bot/strategies/advanced_strategy.py:128-137 | the state becomes what Refreshed says |
| AdvancedStrategy.AdvancedStrategy.Status | OKX/okx_trading_bot/strategies/advanced_strategy.py:708-716 | the reported win rate lies in [0, 1] and is 0 before the first trade |
| EnhancedStrategy.Tally | OKX/okx_trading_bot/strategies/enhanced_strategy.py:567-572 | an accepted close adds one trade, and one winning trade exactly when the rate is positive, keeping winners within trades |
| EnhancedStrategy.MacdPoint | OKX/okx_trading_bot/strategies/enhanced_strategy.py:112-125 | a prefix contributes at most one entry to the MACD history, and only once it holds both periods |
| EnhancedStrategy.MacdSeries | OKX/okx_trading_bot/strategies/enhanced_strategy.py:112-125 | the history is empty before slow prices and has at most one entry per prefix from slow on |
| EnhancedStrategy.Macd | OKX/okx_trading_bot/strategies/enhanced_strategy.py:98-135 | a value exists only with at least slow + signal - 1 prices (and the fast period) |
| EnhancedStrategy.MacdHistoryEndsWithLine | OKX/okx_trading_bot/strategies/enhanced_strategy.py:98-135 | when both averages are non-zero the signal line averages a history ending with the current MACD value |
| EnhancedStrategy.MacdPointBounds | OKX/okx_trading_bot/strategies/enhanced_strategy.py:112-125 | a prefix's entry lies within the spread of its prices |
| EnhancedStrategy.MacdSeriesBounds | OKX/okx_trading_bot/strategies/enhanced_strategy.py:112-125 | every history entry lies within the spread of the prices |
| EnhancedStrategy.MacdBounds | OKX/okx_trading_bot/strategies/enhanced_strategy.py:98-135 | prices within [lo, hi] keep the MACD value and the signal line within hi - lo of zero |
| EnhancedStrategy.CalculateMacd | OKX/okx_trading_bot/strategies/enhanced_strategy.py:98-135 | the loops compute the value Macd describes |
| EnhancedStrategy.RsvRange | OKX/okx_trading_bot/strategies/enhanced_strategy.py:143-159 | a close within the window's range has a raw value in [0, 100]: 100 at the highest high and 0 at the lowest low |
| EnhancedStrategy.PercentOfRange | OKX/okx_trading_bot/strategies/enhanced_strategy.py:155-159 | a value's place within a range, in percent, lies in [0, 100] |
| EnhancedStrategy.SmoothedBetween | OKX/okx_trading_bot/strategies/enhanced_strategy.py:165-191 | the smoothed value lies between the last value and the new one |
| EnhancedStrategy.KdjOf | OKX/okx_trading_bot/strategies/enhanced_strategy.py:137-193 | a value exists exactly when highs, lows and closes hold at least n entries each |
| EnhancedStrategy.KdjRange | OKX/okx_trading_bot/strategies/enhanced_strategy.py:137-193 | with the close inside the window, K and D stay in [0, 100] and J = 3K - 2D in [-200, 300]; the histories keep their cap and end with the new K and D |
| EnhancedStrategy.PushedWithin | OKX/okx_trading_bot/strategies/enhanced_strategy.py:175-188 | a capped history of values within a range stays within it |
| EnhancedStrategy.MacdPoints | OKX/okx_trading_bot/strategies/enhanced_strategy.py:250-270 | the MACD points lie in [0, 25] |
| EnhancedStrategy.MacdPointsAllOrNothing | OKX/okx_trading_bot/strategies/enhanced_strategy.py:250-270 | the histogram is the MACD minus its signal line, so the 15-point branch never applies: the MACD scores 25 exactly when the line is on the side's side of its signal, 0 otherwise |
| EnhancedStrategy.KdjPoints | OKX/okx_trading_bot/strategies/enhanced_strategy.py:272-295 | the KDJ points lie in [0, 25] |
| EnhancedStrategy.RsiPoints | OKX/okx_trading_bot/strategies/enhanced_strategy.py:297-313 | the RSI points lie in [0, 20] |
| EnhancedStrategy.ScoreBands | OKX/okx_trading_bot/strategies/enhanced_strategy.py:315-318 | bands exist exactly with at least bbPeriod prices |
| EnhancedStrategy.BandPoints | OKX/okx_trading_bot/strategies/enhanced_strategy.py:315-334 | the band points lie in [0, 20] |
| EnhancedStrategy.TrendPoints | OKX/okx_trading_bot/strategies/enhanced_strategy.py:336-346 | the trend points lie in [0, 10] |
| EnhancedStrategy.Score | OKX/okx_trading_bot/strategies/enhanced_strategy.py:236-353 | the score lies in [0, 100] |
| EnhancedStrategy.EntryNeedsThreeIndicators | OKX/okx_trading_bot/strategies/enhanced_strategy.py:236-353 | no two indicators reach the entry score of 70 on their own: an entry needs at least three to contribute (together with lines 448-454) |
| EnhancedStrategy.StrengthFactor | OKX/okx_trading_bot/strategies/enhanced_strategy.py:367-373 | the factor lies in [0.7, 1.5] and is at least 1.2 from a score of 70 |
| EnhancedStrategy.StrengthFactorMonotone | OKX/okx_trading_bot/strategies/enhanced_strategy.py:367-373 | a higher score never gets a smaller factor |
| EnhancedStrategy.RecordFactor | OKX/okx_trading_bot/strategies/enhanced_strategy.py:375-381 | the factor lies in [0.6, 1.3] and is 1 before ten trades |
| EnhancedStrategy.DynamicSizeBounds | OKX/okx_trading_bot/strategies/enhanced_strategy.py:355-386 | the size lies within half and 1.95 times the base (the clamp at 2 is never reached), grows with the score, and an entry score before ten trades sizes at least 1.2 times the base |
| EnhancedStrategy.ClosedTallies | OKX/okx_trading_bot/strategies/enhanced_strategy.py:546-583 | a close sends exactly one order on the closing side; exactly when it is accepted the record gains one trade (a win exactly for a positive rate) and the position and best price are cleared |
| EnhancedStrategy.BestPriceTracks | OKX/okx_trading_bot/strategies/enhanced_strategy.py:511-520 | the best price is the running maximum for a long and the running minimum for a short |
| EnhancedStrategy.ExitedOnRules | OKX/okx_trading_bot/strategies/enhanced_strategy.py:493-544 | an exit sends at most the closing order, and only on take profit, stop loss or a trailing retreat past the trailing distance; with positive prices take profit and stop loss always close |
| EnhancedStrategy.ExitedTracksBest | OKX/okx_trading_bot/strategies/enhanced_strategy.py:511-535 | while the trailing exit runs and the position stays open, the best price follows the price and stays positive |
| EnhancedStrategy.ExitedOneOrder | OKX/okx_trading_bot/strategies/enhanced_strategy.py:493-544 | the exit check sends at most one order, leaves the buffers alone and changes the record by at most one trade |
| EnhancedStrategy.OpenedOrder | OKX/okx_trading_bot/strategies/enhanced_strategy.py:459-491 | an open sends nothing or one market order on the side's order side, leaving record and buffers alone |
| EnhancedStrategy.KdjUpdatedKeeps | OKX/okx_trading_bot/strategies/enhanced_strategy.py:165-191 | recording K and D touches nothing else and keeps both histories within their cap |
| EnhancedStrategy.EnteredOnScores | OKX/okx_trading_bot/strategies/enhanced_strategy.py:437-457 | an entry needs 50 prices and a score of 70: a buy when the long score reaches it, otherwise a sell when the short score (taken after the long calculation recorded its K and D) does; both calculations record K and D |
| EnhancedStrategy.EnteredOneOrder | OKX/okx_trading_bot/strategies/enhanced_strategy.py:437-457 | the entry check sends at most one market order and leaves the record and the prices alone |
| EnhancedStrategy.KlineUpdated | OKX/okx_trading_bot/strategies/enhanced_strategy.py:427-435 | only the highs and the lows can change |
| EnhancedStrategy.BufferedLockstep | OKX/okx_trading_bot/strategies/enhanced_strategy.py:398-407 | the price and close lists stay equal and keep the newest 200 prices in arrival order |
| EnhancedStrategy.TickAtMostOneOrder | OKX/okx_trading_bot/strategies/enhanced_strategy.py:388-425 | a tick keeps the state consistent, sends at most one market order on the symbol, and changes the record by at most one trade |
| EnhancedStrategy.TickBuffersPrice | OKX/okx_trading_bot/strategies/enhanced_strategy.py:388-413 | a missing or non-positive price changes nothing; otherwise the prices keep the newest 200, and within 30 seconds of the last analysis no order is sent |
| EnhancedStrategy.EnhancedStrategy.constructor | OKX/okx_trading_bot/strategies/enhanced_strategy.py:16-85 | the strategy reads its contract details from the instrument list (defaults otherwise) and starts with empty lists, no position and no trades |
| EnhancedStrategy.EnhancedStrategy.CalculateKdj | OKX/okx_trading_bot/strategies/enhanced_strategy.py:137-193 | returns KdjOf of the old state and records K and D as KdjUpdated says |
| EnhancedStrategy.EnhancedStrategy.CalculateSignalScore | OKX/okx_trading_bot/strategies/enhanced_strategy.py:236-353 | returns the Score of the old state, recording K and D on the way |
| EnhancedStrategy.EnhancedStrategy.CalculateDynamicPositionSize | OKX/okx_trading_bot/strategies/enhanced_strategy.py:355-386 | the method computes DynamicSize |
| EnhancedStrategy.EnhancedStrategy.UpdatePosition | OKX/okx_trading_bot/strategies/enhanced_strategy.py:585-601 | only the position changes, to what the positions answer says |
| EnhancedStrategy.EnhancedStrategy.ClosePosition | OKX/okx_trading_bot/strategies/enhanced_strategy.py:546-583 | the state becomes what Closed says |
| EnhancedStrategy.EnhancedStrategy.CheckFixedExit | OKX/okx_trading_bot/strategies/enhanced_strategy.py:537-544 | the state becomes what FixedExit says |
| EnhancedStrategy.EnhancedStrategy.CheckTrailingExit | OKX/okx_trading_bot/strategies/enhanced_strategy.py:511-535 | the state becomes what Trailed says |
| EnhancedStrategy.EnhancedStrategy.CheckExitConditions | OKX/okx_trading_bot/strategies/enhanced_strategy.py:493-544 | the state becomes what Exited says |
| EnhancedStrategy.EnhancedStrategy.OpenPosition | OKX/okx_trading_bot/strategies/enhanced_strategy.py:459-491 | the state becomes what Opened says |
| EnhancedStrategy.EnhancedStrategy.CheckEntrySignals | OKX/okx_trading_bot/strategies/enhanced_strategy.py:437-457 | the state becomes what Entered says |
| EnhancedStrategy.EnhancedStrategy.OnTick | OKX/okx_trading_bot/strategies/enhanced_strategy.py:388-425 | the state becomes what Tick says |
| EnhancedStrategy.EnhancedStrategy.BufferPrice | OKX/okx_trading_bot/strategies/enhanced_strategy.py:398-407 | the state becomes what Buffered says |
| EnhancedStrategy.EnhancedStrategy.UpdateKlineData | OKX/okx_trading_bot/strategies/enhanced_strategy.py:427-435 | the state becomes what KlineUpdated says |
| EnhancedStrategy.EnhancedStrategy.Analyse | OKX/okx_trading_bot/strategies/enhanced_strategy.py:415-422 | the state becomes what Analysed says |
| EnhancedStrategy.EnhancedStrategy.Status | OKX/okx_trading_bot/strategies/enhanced_strategy.py:616-623 | the reported win rate lies in [0, 1] and is 0 before the first trade |
| EnhancedStrategy.EnhancedStrategy.PushK | OKX/okx_trading_bot/strategies/enhanced_strategy.py:176-178 | K joins the K history, which keeps its newest 50 values |
| EnhancedStrategy.EnhancedStrategy.PushD | OKX/okx_trading_bot/strategies/enhanced_strategy.py:186-188 | D joins the D history, which keeps its newest 50 values |
| EnhancedStrategy.SmoothedPairRange | OKX/okx_trading_bot/strategies/enhanced_strategy.py:170-184 | K smoothed from a raw value in [0, 100] and D smoothed from K, over histories in [0, 100], both stay in [0, 100] |
| EnhancedStrategy.FixedExitKeeps | OKX/okx_trading_bot/strategies/enhanced_strategy.py:535-541 | the take profit and stop loss send at most one market order, keep the state consistent and the buffers, and add at most one trade to the record |
| EnhancedStrategy.TrailedKeeps | OKX/okx_trading_bot/strategies/enhanced_strategy.py:513-532 | the trailing exit, with a positive price, keeps the best price positive, sends at most one market order, keeps the buffers and adds at most one trade to the record |
| Backtester.Linspace | OKX/okx_trading_bot/backtest/backtester.py:101 | n levels |
| Backtester.LinspaceShape | OKX/okx_trading_bot/backtest/backtester.py:101 | for at least two levels over an ordered range: the first is lower, the last upper, consecutive levels differ by (upper - lower) / (n - 1), and all lie within the bounds |
| Backtester.LinspaceNonNegative | OKX/okx_trading_bot/backtest/backtester.py:101 | the levels of a non-negative range are non-negative |
| Backtester.SellLevelStep | OKX/okx_trading_bot/backtest/backtester.py:151 | a held level sells one grid step above its buying price, except the top level, which sells at its own price |
| Backtester.LevelStep | OKX/okx_trading_bot/backtest/backtester.py:119-170 | a level check changes only that level's holding and leaves the equity curve alone |
| Backtester.LevelStepBuys | OKX/okx_trading_bot/backtest/backtester.py:121-144 | a free non-zero level the low reaches is bought when the balance covers size*price plus commission: the cost leaves the balance, the level holds the size, and a purchase without profit is recorded |
| Backtester.LevelStepSells | OKX/okx_trading_bot/backtest/backtester.py:147-170 | a held level whose sell level the high reaches is sold there: the revenue net of commission joins the balance, the level is freed, and a sale with its profit over the purchase cost is recorded |
| Backtester.LevelsPass | OKX/okx_trading_bot/backtest/backtester.py:119-170 | the pass over the levels keeps one holding per level and leaves the equity curve alone |
| Backtester.BarStep | OKX/okx_trading_bot/backtest/backtester.py:111-182 | one bar keeps one holding per level |
| Backtester.Run | OKX/okx_trading_bot/backtest/backtester.py:111-182 | the run keeps one holding per level |
| Backtester.LevelStepTrades | OKX/okx_trading_bot/backtest/backtester.py:119-170 | a level check records a trade exactly when it changes the level's holding, after the earlier trades |
| Backtester.LevelsPassOneTradePerLevel | OKX/okx_trading_bot/backtest/backtester.py:119-170 | in one bar each level changes at most once and the pass records exactly one trade per changed level, so a level is never bought and sold on the same bar |
| Backtester.ChangedSelf | OKX/okx_trading_bot/backtest/backtester.py:119-170 | an unchanged holding list has no changed level |
| Backtester.RevenueNonNegative | OKX/okx_trading_bot/backtest/backtester.py:152-154 | a sale with a commission rate in [0, 1] still returns a non-negative amount |
| Backtester.LevelStepSound | OKX/okx_trading_bot/backtest/backtester.py:119-170 | a purchase happens only when the balance covers it and a sale adds non-negative revenue, so a level check keeps the balance and holdings non-negative and the trades well formed |
| Backtester.LevelsPassSound | OKX/okx_trading_bot/backtest/backtester.py:119-170 | the pass over the levels keeps the state sound |
| Backtester.HeldValueNonNegative | OKX/okx_trading_bot/backtest/backtester.py:174-178 | holdings of non-negative price and size have a non-negative value |
| Backtester.RunSound | OKX/okx_trading_bot/backtest/backtester.py:111-182 | over a run the state stays sound and the curve gains one entry per bar, carrying that bar's timestamp, each the balance plus the held value, the earlier entries untouched |
| Backtester.SimulationSound | OKX/okx_trading_bot/backtest/backtester.py:74-188 | the simulation fails exactly for a grid of 0; otherwise the balance never goes negative, there is one equity entry per bar, each the balance plus the held value, and no bars give the empty result |
| Backtester.Count | OKX/okx_trading_bot/backtest/backtester.py:207-209 | a side's count is at most the number of trades |
| Backtester.CountsAddUp | OKX/okx_trading_bot/backtest/backtester.py:207-215 | purchases and sales add up to the trades, and the profitable trades are among the sales |
| Backtester.MetricsCounts | OKX/okx_trading_bot/backtest/backtester.py:190-245 | for a non-empty curve: purchases plus sales are all trades, the win rate is a share and 0 without sales, the final equity is the last recorded, and the total profit is final minus initial |
| Backtester.Backtester.constructor | OKX/okx_trading_bot/backtest/backtester.py:11-24 | the initial capital and the commission rate are the configured ones, 10000 and 0.0005 for a missing key; a new backtester holds the initial capital and no curve and no trades |
| Backtester.Backtester.SimulateGridStrategy | OKX/okx_trading_bot/backtest/backtester.py:74-188 | the state is reset first, so a grid of 0 raises with the reset state; otherwise balance, trades and curve end as the simulation's, investing the configured amount or, when it is missing, the initial capital, and its metrics are returned |
| Backtester.Backtester.CheckLevels | OKX/okx_trading_bot/backtest/backtester.py:119-170 | the inner loop over the levels ends in the state LevelsPass describes |
| Backtester.Backtester.CheckLevel | OKX/okx_trading_bot/backtest/backtester.py:119-170 | one level of the inner loop ends in the state LevelStep describes |
| Backtester.Backtester.CalculateMetrics | OKX/okx_trading_bot/backtest/backtester.py:190-245 | the method returns the metrics of the recorded curve and trades |

## Left out

- Network I/O: the `requests` HTTP calls, the WebSocket socket, the `run_forever` thread, the busy-wait in `connect` and the `_ping_loop` thread. A request's outcome, the socket's open/send results and every reply of the exchange are inputs.
- What websocket-client does with an exception raised inside `_on_open` (its callback wrapper logs it and calls `_on_error`): OkxWebSocket.OnOpen reports the raise, and the connected flag stays as the handler left it.
- Concurrency: the lock in `RateLimiter` is dropped and `wait` is modelled as one sequential call.
- Time: `time.time`, `time.sleep`, `datetime.now` and `utcnow` are parameters; every sleep is returned as a duration instead of being performed.
- Cryptography and encodings: HMAC-SHA256, base64, `urlencode` and `json.dumps` are function parameters, because only the strings fed to them are in scope.
- Logging, `print`, f-string formatting and `format_number`: number-to-text conversion is a `Format` parameter wherever a message text matters.
- Floating point: prices and amounts are exact reals, so float rounding error is not captured. Python's `round` is modelled as exact round-half-even and `int()` as truncation.
- `calculate_geometric_grid_levels`: its fractional exponent has no exact real counterpart.
- `statistics.stdev` (Bollinger bands, `calculate_volatility`): the standard deviation is a parameter.
- Sharpe ratio, maximum drawdown and average profit/loss of `_calculate_metrics`: they need a square root and a standard deviation. Only the counting metrics, final equity, profit and return are modelled.
- `load_historical_data`, `print_results`, `export_results` and the pandas/numpy plumbing of the backtester: bars and levels are plain sequences.
- Backtester fields `positions` and `current_position`: the simulation only clears them, and nothing reads them.
- Backtester.Simulation: `grid_num` is a `nat`. A negative count, which numpy's `linspace` rejects with a `ValueError`, is not modelled.
- The thin endpoint wrappers of the REST client (`get_ticker`, `get_tickers`, `get_candles`, `get_orderbook`, `get_balance`, `get_positions`, `set_leverage`, `get_pending_orders`, `get_order_history`, `get_instruments`, `get_funding_rate`, `cancel_algo_order`, `get_algo_orders`, `batch_orders`, `batch_cancel_orders`, `get_account_config`, `set_position_mode`): each passes a fixed endpoint and its arguments to `_request`, which is modelled.
- The `subscribe_*` shortcuts of the WebSocket client: each calls `subscribe` with a fixed channel name.
- The strategies' data-fetch helpers (`_load_instrument_info`, `_update_orderbook_data`, `_update_funding_rate`, `_update_kline_data` and the fetch part of `_update_multi_timeframe_data`): their API results are inputs.
- The handlers that do nothing or only log (`generate_signals`, `on_order_update` outside the grid strategy, `print_status`, `print_grid_status`): they have no state to model.
- `RiskManager.get_daily_stats` and `get_risk_report`: they only copy fields into a report dictionary.
- The entries of the smart-profit strategy's `trade_history` carry no timestamp, because no rule reads it back.
- PositionStrategy.ConfigValid: moving-average periods below 1 are not modelled. A period of 0 makes `_calculate_ma` divide by zero inside the handler's `try`, which swallows the error on every tick; a negative period averages a wrongly sliced list.
- SmartProfitStrategy.ConfigValid: moving-average and RSI periods below 1 are not modelled, for the same reason: a zero period raises inside a swallowing `try` on every tick, and a negative one slices the price list the wrong way.
- EnhancedStrategy.ConfigValid: periods and smoothing lengths below 1, and a Bollinger period below 2, are not modelled. With a period of 1, `statistics.stdev` raises once 50 prices are buffered, so the long score aborts and `_check_entry_signals` swallows the error without sending an order.
- Builtins.Lower folds ASCII letters only, whereas Python's `str.lower` is Unicode-aware. The only sides compared are "long" and "short", which are ASCII.
- RiskManager.SizeByRisk: the keyword default `risk_per_trade=0.02` is not modelled; the risk share is always an explicit argument.
- YAML loading in `config_loader` (the default path next to the module, opening the file and `yaml.safe_load`): the loaded document is an input, and only the lookups on it are modelled.
- The command-line entry point, the Tkinter user interfaces, logger setup and package re-exports are outside the core.
