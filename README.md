# ATR-breakout trading bot and legacy risk and indicator library, in Dafny

This project models the core of an automated MetaTrader 5 trading bot, with proofs.

The bot trades a volatility breakout:

- It buys when the last close rises above the highest high of the previous N bars.
- It sells when the last close falls below their lowest low.
- It trades only when the average true range (ATR) is above a floor.
- An optional EMA trend filter can veto the trade.

The project also models the repository's older stand-alone risk manager and technical-indicator library.

One Dafny module per source file:

| module | file | models |
|---|---|---|
| `Common` | common.dfy | Shared datatypes: `Option`, `Result` (its `:-` stands for a raised exception), `Num` (a float slot that is NaN or a value), `Bar`. Sums, means, and Python's `round` as half-to-even rounding. |
| `MathUtils` | mathutils.dfy | True range, rolling-mean ATR and the pandas `ewm(adjust=False)` EMA recurrence. |
| `AtrBreakout` | atr_breakout.dfy | `compute_signal`: the breakout band, the ATR floor and the trend filter. |
| `Costs` | costs.dfy | Spread and slippage costs. |
| `Engine` | engine.dfy | The bar-by-bar backtest: exits, P&L with costs, entries sized by risk, the equity curve and the trade ledger. |
| `Metrics` | metrics.dfy | Backtest metrics: maximum drawdown, profit factor, win rate and average R multiple. |
| `Safeguards` | safeguards.dfy | The tradability, spread and stops-level checks. |
| `TimeUtils` | timeutils.dfy | Session windows: parsing "H:MM" times and testing a time of day against the windows, including windows that wrap past midnight. |
| `LiveRisk` | live_risk.dfy | The live risk manager, a class whose per-day state is updated in place: daily reset, trade recording, the trade permission and lot sizing. |
| `OrderBuilder` | order_builder.dfy | Filling-mode selection from the symbol's bitmask; market-order and stop-modification requests. |
| `Mt5Adapter` | mt5_adapter.dfy | The terminal adapter: the check-then-send retry loop with transient codes, the stop modification and the return-code messages. |
| `OrderManager` | order_manager.dfy | The filling-mode fallback: a refused filling mode moves on to the next candidate. |
| `LiveRunner` | run_live.dfy | One pass of the live loop: the gates per symbol, once-per-bar evaluation, order sizing and sending, the invalid-stops resend and the journal and alert entries. |
| `LegacyRisk` | legacy_risk.dfy | The legacy risk manager: sizing, stop and target levels, risk-reward, validation, pip values, trade statistics. |
| `Indicators` | indicators.dfy | The legacy indicator library: validation, SMA, EMA, RSI, MACD, ATR, stochastic oscillator, VWAP, and the summary that computes them all. |

## How the terminal is modelled

- The terminal is a `Gateway` object. It holds the queue of answers the terminal will give, and it logs every call made.
- `order_check` and `order_send` each consume one answer from the queue, and each appends its call to the log.
- This lets the contracts state exactly which requests were checked and which were sent, and which result came back.

## Which form each part takes

- Imperative source becomes imperative Dafny. Loops become methods with loop invariants, proved against a specification function. Examples:
  - `RunBacktest`: the backtest loop.
  - `FillEma`, `SmoothRsi`, `FillTrueRanges`, `WindowKs` and `FillVwap`: the indicator loops over arrays.
  - `PlaceMarketOrder`: the retry loop.
  - `SendWithFillings`: the filling fallback.
  - `RunCycle`: one pass over the symbols.
- Objects whose fields change become classes:
  - the live and legacy risk managers;
  - the gateway, adapter and order manager;
  - the live trader.
- Pure computations become functions, with lemmas that state what they promise.

## Model

| member | source | states |
|---|---|---|
| MathUtils.TrueRange | mt5-ai-bot/src/utils/mathutils.py:7-14 | true range is at least high-low and at least both gaps to the previous close, and equals one of them; the first bar's is high-low |
| MathUtils.TrueRanges | mt5-ai-bot/src/utils/mathutils.py:7-14 | one true range per bar, each that bar's true range |
| MathUtils.Atr | mt5-ai-bot/src/utils/mathutils.py:15 | one ATR slot per bar, each the rolling mean over period true ranges |
| MathUtils.AtrDefinedFrom | mt5-ai-bot/src/utils/mathutils.py:15 | ATR is NaN exactly below index period-1, and from there it is the mean of the last period true ranges |
| MathUtils.AtrNonNegative | mt5-ai-bot/src/utils/mathutils.py:6-15 | on bars with high >= low every defined ATR value is non-negative |
| MathUtils.AtrAtNonNegative | mt5-ai-bot/src/utils/mathutils.py:15 | a rolling mean of non-negative true ranges is non-negative |
| MathUtils.AtrSlides | mt5-ai-bot/src/utils/mathutils.py:15 | the next ATR value is the previous window sum plus the entering and minus the leaving true range, over period |
| MathUtils.SumSlide | mt5-ai-bot/src/utils/mathutils.py:15 | moving the rolling window one step adds the entering and drops the leaving value |
| MathUtils.Ema | mt5-ai-bot/src/utils/mathutils.py:18-19 | the EMA series has one value per input |
| MathUtils.SpanAlpha | mt5-ai-bot/src/utils/mathutils.py:19 | span smoothing factor 2/(period+1) lies in (0, 1] |
| MathUtils.EmaSpan | mt5-ai-bot/src/utils/mathutils.py:18-19 | ewm(span=period) has one value per input |
| MathUtils.EmaPrefix | mt5-ai-bot/src/utils/mathutils.py:18-19 | the EMA of a prefix is the prefix of the EMA (no look-ahead) |
| MathUtils.EmaFirst | mt5-ai-bot/src/utils/mathutils.py:19 | with adjust=False the first EMA value is the first input |
| MathUtils.EmaRecurrence | mt5-ai-bot/src/utils/mathutils.py:19 | every later value is alpha*x[i] + (1-alpha)*ema[i-1] |
| MathUtils.ConvexBetween | mt5-ai-bot/src/utils/mathutils.py:19 | one EMA step keeps a value within bounds that hold for input and previous value |
| MathUtils.EmaBounded | mt5-ai-bot/src/utils/mathutils.py:18-19 | every EMA value lies within any bounds of the inputs seen so far |
| MathUtils.EmaOfConstant | mt5-ai-bot/src/utils/mathutils.py:18-19 | the EMA of a constant series is that constant |
| AtrBreakout.Params.Warmup | mt5-ai-bot/src/strategy/atr_breakout.py:21-22 | the warm-up exceeds N, the ATR period and the EMA period and is their maximum plus one |
| AtrBreakout.MaxHigh | mt5-ai-bot/src/strategy/atr_breakout.py:29 | the band top is at least every high of the window and equals one of them |
| AtrBreakout.MinLow | mt5-ai-bot/src/strategy/atr_breakout.py:30 | the band bottom is at most every low of the window and equals one of them |
| AtrBreakout.Closes | mt5-ai-bot/src/strategy/atr_breakout.py:33 | the close column, bar by bar |
| AtrBreakout.RawDirection | mt5-ai-bot/src/strategy/atr_breakout.py:39-43 | a buy only above the band, a sell only below it, and the direction is -1, 0 or 1 |
| AtrBreakout.TrendFiltered | mt5-ai-bot/src/strategy/atr_breakout.py:45-49 | the filter keeps or zeroes the direction; a kept buy has a rising EMA and a kept sell a falling one |
| AtrBreakout.ComputeSignal | mt5-ai-bot/src/strategy/atr_breakout.py:19-51 | too few bars give the null signal; a trade has a defined ATR at or above atr_min, a close beyond the band on its side and, with the filter, an EMA slope of its sign |
| AtrBreakout.SignalFields | mt5-ai-bot/src/strategy/atr_breakout.py:29-33 | the band is the highest high and lowest low of exactly the N bars before the last; atr and slope are the last rolling ATR and last EMA step |
| AtrBreakout.WindowBand | mt5-ai-bot/src/strategy/atr_breakout.py:29-31 | the band of a slice bounds and is attained within that slice of the history |
| AtrBreakout.AtrDefinedAtLast | mt5-ai-bot/src/strategy/atr_breakout.py:21-32 | after the warm-up the last ATR value is always defined |
| AtrBreakout.VolatilityFloor | mt5-ai-bot/src/strategy/atr_breakout.py:35-36 | an undefined ATR or one below atr_min gives no trade |
| AtrBreakout.UnfilteredDirection | mt5-ai-bot/src/strategy/atr_breakout.py:39-43 | without the filter, buy iff close > band top, sell iff close < band bottom (and not a buy), none iff inside the band |
| AtrBreakout.TrendFilterOnlyRemoves | mt5-ai-bot/src/strategy/atr_breakout.py:45-49 | the filter never creates or flips a trade: with it, buy iff buy without it and rising EMA, sell iff sell and falling; other fields equal |
| AtrBreakout.FlatThenBreakoutBuys | mt5-ai-bot/src/strategy/atr_breakout.py:19-51 | twenty flat bars then a close far above them give a buy |
| Costs.TradingCosts.SpreadCost | mt5-ai-bot/src/backtest/costs.py:12-13 | zero spread or zero value per point costs nothing; the cost has the sign of the value per point |
| Costs.TradingCosts.SlippageCost | mt5-ai-bot/src/backtest/costs.py:15-16 | zero slippage or zero value per point costs nothing; the cost has the sign of the value per point |
| Costs.CostsLinear | mt5-ai-bot/src/backtest/costs.py:12-16 | both costs are linear in the value per point |
| Costs.CostMonotoneInPoints | mt5-ai-bot/src/backtest/costs.py:12-13 | more points never cost less at a non-negative value per point |
| Engine.ExitPrice | mt5-ai-bot/src/backtest/engine.py:45-58 | the stop price when the bar reaches the stop, else the target when it reaches that, else no exit; the stop is checked first |
| Engine.RMultiple | mt5-ai-bot/src/backtest/engine.py:75 | defined exactly for a non-zero risk amount, and then R times risk is the P&L |
| Engine.PnlValue | mt5-ai-bot/src/backtest/engine.py:60-64 | with non-negative lots a move in the trade's favour (or none) nets at least minus the trade's costs, a move against it (or none) at most that |
| Engine.CloseStep | mt5-ai-bot/src/backtest/engine.py:45-78 | no position or no exit leaves the state as it was; an exit closes the position, appends one record after the unchanged ledger and moves the balance by that record's P&L; equity untouched |
| Engine.Entry | mt5-ai-bot/src/backtest/engine.py:91-109 | a position exactly when the stop distance is positive, at the bar's time and close, in the signal's direction, with non-negative lots and the risk percentage of the balance at stake |
| Engine.EntryRisk | mt5-ai-bot/src/backtest/engine.py:91-109 | hitting the stop of a new position loses exactly its risk amount before costs; with a positive reward ratio a buy has stop < entry < target and a sell target < entry < stop |
| Engine.OpenStep | mt5-ai-bot/src/backtest/engine.py:80-109 | balance, equity and ledger unchanged; nothing opens while a position is open or without a direction |
| Engine.Signals | mt5-ai-bot/src/backtest/engine.py:81-89 | one signal per bar, every trading signal with a defined ATR |
| Engine.SignalsAt | mt5-ai-bot/src/backtest/engine.py:81-89 | the signal at bar i is compute_signal on the rows up to and including i |
| Engine.RunStep | mt5-ai-bot/src/backtest/engine.py:41-111 | each bar after the warm-up is one exit/entry/equity step of the loop |
| Engine.Pnls | mt5-ai-bot/src/backtest/engine.py:66-77 | the P&L column of the ledger |
| Engine.BarStep | mt5-ai-bot/src/backtest/engine.py:45-111 | the bar's balance is appended to the equity curve; the ledger keeps its prefix and grows by at most one trade |
| Engine.Run | mt5-ai-bot/src/backtest/engine.py:41-113 | one equity point per bar from the warm-up index on, also for bars whose entry was skipped, and never more trades than equity points |
| Engine.BalanceIsLedger | mt5-ai-bot/src/backtest/engine.py:60-111 | balance is always the initial balance plus the ledger's P&L, and the equity curve ends at the balance |
| Engine.LedgerStep | mt5-ai-bot/src/backtest/engine.py:60-111 | one bar moves the balance by exactly the P&L it books |
| Engine.BarEffects | mt5-ai-bot/src/backtest/engine.py:45-111 | at most one trade closes per bar, its record carries the entry and R against the entry's risk; entries only when flat, at the close, with non-negative lots; no exit keeps the position |
| Engine.RunReadsPrefix | mt5-ai-bot/src/backtest/engine.py:41-111 | the state after n bars depends only on the first n bars and signals |
| Engine.NoLookAhead | mt5-ai-bot/src/backtest/engine.py:81-89 | two histories agreeing on the first n bars give the same backtest state after n bars |
| Engine.SignalAt | mt5-ai-bot/src/backtest/engine.py:81-89 | the loop's signal call equals the specification's signal, and a trading signal has a defined ATR |
| Engine.CloseAtBar | mt5-ai-bot/src/backtest/engine.py:45-78 | the exit block yields the specified balance, position and ledger |
| Engine.OpenAtBar | mt5-ai-bot/src/backtest/engine.py:80-109 | no signal opens nothing; otherwise the entry of the specification (None when the stop distance is not positive) |
| Engine.RunBacktest | mt5-ai-bot/src/backtest/engine.py:18-115 | the returned equity curve and ledger are those of the bar-by-bar specification |
| Metrics.ReturnCount | mt5-ai-bot/src/backtest/metrics.py:20-22 | pct_change().dropna() keeps at most one return per step, none exactly when every step is 0 to 0 |
| Metrics.ReturnsOfNonZeroCurve | mt5-ai-bot/src/backtest/metrics.py:20-22 | a curve without zeros keeps every step as a return |
| Metrics.RunningMax | mt5-ai-bot/src/backtest/metrics.py:25 | cummax is at least every earlier value and equals one of them |
| Metrics.Drawdowns | mt5-ai-bot/src/backtest/metrics.py:25-26 | one slot per equity point, NaN exactly where the running maximum is zero, else that point's drawdown |
| Metrics.FiniteDrawdowns | mt5-ai-bot/src/backtest/metrics.py:25-27 | no finite drawdown iff every running maximum is zero; otherwise their minimum is one of them and at most each |
| Metrics.MaxDrawdown | mt5-ai-bot/src/backtest/metrics.py:27 | min() skips NaN: undefined iff some drawdown is minus infinity or none is finite; otherwise the smallest finite drawdown |
| Metrics.NaNDrawdownSkipped | mt5-ai-bot/src/backtest/metrics.py:26-27 | a zero first point followed by 5 leaves a NaN slot, skipped: the maximum drawdown is 0 |
| Metrics.RelativeDrop | mt5-ai-bot/src/backtest/metrics.py:26 | a positive value below a positive maximum drops by a fraction in (-1, 0], zero iff equal |
| Metrics.DrawdownBounds | mt5-ai-bot/src/backtest/metrics.py:25-26 | with positive equity every drawdown lies in (-1, 0], zero iff at the running maximum |
| Metrics.MaxDrawdownOfPositiveCurve | mt5-ai-bot/src/backtest/metrics.py:25-27 | a positive curve has a maximum drawdown in (-1, 0], zero iff the curve never falls |
| Metrics.Profits | mt5-ai-bot/src/backtest/metrics.py:29 | clipped winning P&L is non-negative |
| Metrics.Losses | mt5-ai-bot/src/backtest/metrics.py:30 | clipped losing P&L, as an amount, is non-negative |
| Metrics.ProfitsAndLosses | mt5-ai-bot/src/backtest/metrics.py:29-30 | profits minus losses is the net P&L; losses are positive iff some trade lost |
| Metrics.ProfitFactor | mt5-ai-bot/src/backtest/metrics.py:29-31 | finite iff some trade lost, and then non-negative with factor times losses equal to profits |
| Metrics.Wins | mt5-ai-bot/src/backtest/metrics.py:34 | winner count is at most the trade count, all iff every P&L is positive, none iff none is |
| Metrics.WinRate | mt5-ai-bot/src/backtest/metrics.py:34 | win rate lies in [0, 1]; 1 iff there are trades and all won; 0 iff none won |
| Metrics.Fraction | mt5-ai-bot/src/backtest/metrics.py:34 | a count out of a positive total is a fraction in [0, 1], 1 and 0 only at the ends |
| Metrics.RColumn | mt5-ai-bot/src/backtest/metrics.py:35 | one slot per trade, NaN exactly where the trade's R is undefined, else that R |
| Metrics.AvgRMultiple | mt5-ai-bot/src/backtest/metrics.py:35 | zero for an empty ledger; otherwise mean() skips NaN: undefined iff some R is infinite or none is defined, else the mean of the defined R multiples |
| Metrics.NaNRSkipped | mt5-ai-bot/src/backtest/metrics.py:35 | a break-even trade with zero risk (NaN R) is left out of the mean |
| Metrics.AvgRBetween | mt5-ai-bot/src/backtest/metrics.py:35 | a finite average R lies between any bounds of the defined R multiples |
| Metrics.ComputeMetricsAsWritten | mt5-ai-bot/src/backtest/metrics.py:19-44 | no returns give all zeros; it fails iff there are returns and no trades; otherwise its drawdown and average R are min() and mean() of the columns |
| Metrics.NoTradesFails | mt5-ai-bot/src/backtest/metrics.py:29 | as written, a curve with a return and no trades fails on the missing pnl column |
| Metrics.ComputeMetrics | mt5-ai-bot/src/backtest/metrics.py:19-44 | no returns give all zeros; otherwise drawdown, profit factor, win rate and average R of the curve and ledger |
| Metrics.CorrectedMetrics | mt5-ai-bot/src/backtest/metrics.py:19-44 | agrees with the code as written wherever that returns; it fails exactly with returns and no trades, where the corrected value is infinite factor, zero rate, zero R |
| Safeguards.IsSymbolTradable | mt5-ai-bot/src/execution/safeguards.py:16-17 | a tradable symbol has info, is visible and is in trade mode 0 |
| Safeguards.RefusedSymbols | mt5-ai-bot/src/execution/safeguards.py:16-17 | missing or hidden symbols and every mode but 0, full access included, are refused; a visible symbol in mode 0 passes |
| Safeguards.SpreadTooHigh | mt5-ai-bot/src/execution/safeguards.py:20-24 | no tick counts as too high; otherwise too high iff (ask-bid)/point exceeds the ceiling |
| Safeguards.SpreadInPriceUnits | mt5-ai-bot/src/execution/safeguards.py:20-24 | with a positive point the test is ask-bid > ceiling*point; a spread at the ceiling passes |
| Safeguards.StopsLevelOk | mt5-ai-bot/src/execution/safeguards.py:27-36 | no info fails with distance 0; else the distance is stops_level*point*1.2 and ok iff each given level is at least that far from the price |
| Safeguards.NoStopsLevelAlwaysOk | mt5-ai-bot/src/execution/safeguards.py:27-36 | a zero stops level accepts any stops |
| Safeguards.StopsAtDistanceOk | mt5-ai-bot/src/execution/safeguards.py:27-36 | stops placed at least the minimum distance away, on either side, pass |
| TimeUtils.ClockTime | mt5-ai-bot/src/utils/timeutils.py:39-41 | an hour and minute give a whole-minute time of day |
| TimeUtils.IsInSession | mt5-ai-bot/src/utils/timeutils.py:26-36 | inside iff some window contains the time (both ends inclusive, wrapping when start > end) |
| TimeUtils.SessionOrderIrrelevant | mt5-ai-bot/src/utils/timeutils.py:29-36 | the order and repetition of windows does not matter |
| TimeUtils.WrappingWindow | mt5-ai-bot/src/utils/timeutils.py:33-35 | a wrapping window contains exactly the times outside the gap between its end and start |
| TimeUtils.ParseInt | mt5-ai-bot/src/utils/timeutils.py:41 | int() accepts exactly non-empty digit strings, giving a non-negative value |
| TimeUtils.ParseTime | mt5-ai-bot/src/utils/timeutils.py:39-41 | anything but one colon is rejected; a parsed time is a whole minute |
| TimeUtils.ParseFormatTime | mt5-ai-bot/src/utils/timeutils.py:39-41 | every valid "H:MM" text parses back to its hour and minute |
| TimeUtils.WindowOf | mt5-ai-bot/src/utils/timeutils.py:19-22 | a missing start key fails; a window has the given name or "session", and start and end parsed from their keys |
| TimeUtils.ParseSessions | mt5-ai-bot/src/utils/timeutils.py:16-23 | ok iff every entry parses, one window per entry in order; otherwise the first failing entry's error |
| TimeUtils.CollectOk | mt5-ai-bot/src/utils/timeutils.py:19-22 | collecting succeeds iff every result is a value and keeps each in place |
| TimeUtils.CollectFirstError | mt5-ai-bot/src/utils/timeutils.py:19-22 | a failed collection reports the first error |
| LiveRisk.AfterReset | mt5-ai-bot/src/execution/risk_manager.py:27-32 | a new day zeroes the counters and records the day; the same day changes nothing |
| LiveRisk.AfterRecord | mt5-ai-bot/src/execution/risk_manager.py:34-36 | recording adds one trade and its P&L and keeps the day |
| LiveRisk.Permit | mt5-ai-bot/src/execution/risk_manager.py:38-44 | allowed iff under the trade maximum and above the loss threshold; reasons "max_trades_per_day", then "daily_loss_limit", else "ok" |
| LiveRisk.RoundToStep | mt5-ai-bot/src/execution/risk_manager.py:60 | round(raw/step)*step is a whole number of steps, within half a positive step of raw |
| LiveRisk.ScaleError | mt5-ai-bot/src/execution/risk_manager.py:60 | an integer within half of raw/step scales to within half a step of raw |
| LiveRisk.Clamp | mt5-ai-bot/src/execution/risk_manager.py:61 | the clamp lies within ordered bounds and keeps a value already inside them |
| LiveRisk.PositionSize | mt5-ai-bot/src/execution/risk_manager.py:46-61 | zero unless stop distance, point and tick value are all positive; then within the volume bounds and either a bound or a whole number of volume steps |
| LiveRisk.PositionSizeNearRaw | mt5-ai-bot/src/execution/risk_manager.py:52-61 | when the risk-based lots lie within the bounds the result is within half a volume step of them |
| LiveRisk.SizingExample | mt5-ai-bot/src/execution/risk_manager.py:46-61 | balance 10000 at 1% risk with a 10-point stop sizes a positive position of at most 1 lot |
| LiveRisk.ResetIdempotent | mt5-ai-bot/src/execution/risk_manager.py:27-32 | resetting twice on the same day is resetting once |
| LiveRisk.RecordedTradesCount | mt5-ai-bot/src/execution/risk_manager.py:34-36 | recording a run of trades adds their number and their total P&L |
| LiveRisk.RiskManager.constructor | mt5-ai-bot/src/execution/risk_manager.py:15-25 | the manager starts with the given limits and an empty day with zero counters |
| LiveRisk.RiskManager.ResetIfNewDay | mt5-ai-bot/src/execution/risk_manager.py:27-32 | the state becomes the reset of the old state on the given day |
| LiveRisk.RiskManager.RecordTrade | mt5-ai-bot/src/execution/risk_manager.py:34-36 | the state becomes the old state with the trade recorded |
| OrderBuilder.BitAnd | mt5-ai-bot/src/execution/order_builder.py:27 | the mask test result is at most either operand and zero when one is zero |
| OrderBuilder.BitAndSelf | mt5-ai-bot/src/execution/order_builder.py:27 | a mode masked with itself is selected |
| OrderBuilder.FirstIndex | mt5-ai-bot/src/execution/order_builder.py:31 | the position of a value's first occurrence |
| OrderBuilder.Dedup | mt5-ai-bot/src/execution/order_builder.py:31 | dict.fromkeys keeps every value, once, starting with the first |
| OrderBuilder.DedupOrder | mt5-ai-bot/src/execution/order_builder.py:31 | the kept values are in the order of their first occurrences |
| OrderBuilder.DedupDistinct | mt5-ai-bot/src/execution/order_builder.py:31 | a list without repeats is kept as it is |
| OrderBuilder.MaskedModes | mt5-ai-bot/src/execution/order_builder.py:23-28 | at most the three candidates FOK, IOC, RETURN |
| OrderBuilder.AllowedFillings | mt5-ai-bot/src/execution/order_builder.py:20-31 | never empty; a zero mask or a mask selecting nothing gives the symbol's default filling mode |
| OrderBuilder.AllowedFillingsDistinct | mt5-ai-bot/src/execution/order_builder.py:31 | no filling mode is offered twice |
| OrderBuilder.AllowedFillingsInOrder | mt5-ai-bot/src/execution/order_builder.py:23-31 | with distinct mode constants and a mask selecting something, the modes are the selected candidates in the order FOK, IOC, RETURN |
| OrderBuilder.AllowedFillingsSelected | mt5-ai-bot/src/execution/order_builder.py:23-31 | when the mask selects something, the modes are exactly the candidates whose bit is set |
| OrderBuilder.ZeroModeNeverSelected | mt5-ai-bot/src/execution/order_builder.py:23-31 | a zero mode constant is never picked from a non-zero mask, only as the default |
| OrderBuilder.FokAndIocAllowed | mt5-ai-bot/src/execution/order_builder.py:23-31 | a mask with the FOK and IOC bits allows both |
| OrderBuilder.BuildMarketOrderRequest | mt5-ai-bot/src/execution/order_builder.py:34-68 | a GTC deal with the given symbol, side, volume, price, deviation, magic and comment, filled with the first allowed mode; sl and tp only when given |
| OrderBuilder.WithoutStopsDropsOnlyStops | mt5-ai-bot/src/execution/order_builder.py:62-65 | building without stops differs only in the stops |
| OrderBuilder.EurUsdRequestExample | mt5-ai-bot/src/execution/order_builder.py:34-68 | a EURUSD buy with only the FOK bit set keeps its symbol and fills FOK |
| OrderBuilder.BuildSlTpRequest | mt5-ai-bot/src/execution/order_builder.py:71-78 | an SL/TP change request for the given position, symbol, stop and target |
| Mt5Adapter.Rest | mt5-ai-bot/src/execution/mt5_adapter.py:78-82 | each terminal call consumes one answer |
| Mt5Adapter.Gateway.constructor | mt5-ai-bot/src/execution/mt5_adapter.py:51-53 | the terminal starts with its answers and no calls made |
| Mt5Adapter.Gateway.OrderCheck | mt5-ai-bot/src/execution/mt5_adapter.py:78-79 | returns the next answer and logs the check |
| Mt5Adapter.Gateway.OrderSend | mt5-ai-bot/src/execution/mt5_adapter.py:81-82 | returns the next answer and logs the send |
| Mt5Adapter.PlaceBounded | mt5-ai-bot/src/execution/mt5_adapter.py:85-109 | at most retry_attempts sends; no attempts means no call and no result |
| Mt5Adapter.PlaceCallCount | mt5-ai-bot/src/execution/mt5_adapter.py:85-103 | at most two calls per attempt |
| Mt5Adapter.SendsOfAttempt | mt5-ai-bot/src/execution/mt5_adapter.py:86-91 | a failed check sends nothing; a check then send is one send |
| Mt5Adapter.PlaceChecksFirst | mt5-ai-bot/src/execution/mt5_adapter.py:86-91 | every call carries the request unchanged and the first is the check |
| Mt5Adapter.PlaceResultIsFinal | mt5-ai-bot/src/execution/mt5_adapter.py:86-106 | a returned result is a failed check or a non-transient send; DONE comes from a send |
| Mt5Adapter.AllTransientGivesUp | mt5-ai-bot/src/execution/mt5_adapter.py:100-109 | transient codes on every attempt end with no result after two calls per attempt |
| Mt5Adapter.RetcodeMessage | mt5-ai-bot/src/execution/mt5_adapter.py:119-121 | the table's text for a known code; "Unknown retcode" exactly for a code outside the table |
| Mt5Adapter.UnknownCodes | mt5-ai-bot/src/execution/mt5_adapter.py:21-47 | busy context, invalid filling and unnamed codes have no text; DONE is "Order completed" |
| Mt5Adapter.PlaceCheckFails | mt5-ai-bot/src/execution/mt5_adapter.py:86-89 | a check that is missing or not DONE ends the loop with that answer after one call |
| Mt5Adapter.PlaceSendFinal | mt5-ai-bot/src/execution/mt5_adapter.py:91-106 | a passed check and a non-transient send answer end the loop with the send's answer |
| Mt5Adapter.PlaceTransient | mt5-ai-bot/src/execution/mt5_adapter.py:100-103 | a transient send is followed by the remaining attempts |
| Mt5Adapter.Adapter.constructor | mt5-ai-bot/src/execution/mt5_adapter.py:51-53 | the adapter keeps its retry count and its terminal |
| Mt5Adapter.Adapter.PlaceMarketOrder | mt5-ai-bot/src/execution/mt5_adapter.py:84-109 | response, answers left and calls made are those of the retry specification |
| Mt5Adapter.Adapter.Attempt | mt5-ai-bot/src/execution/mt5_adapter.py:86-103 | one pass either ends the loop with the specified result or leaves the remaining attempts to do the rest |
| Mt5Adapter.Adapter.ModifyPositionSlTp | mt5-ai-bot/src/execution/mt5_adapter.py:111-117 | one send whose answer is returned as it is |
| OrderManager.WithFilling | mt5-ai-bot/src/execution/order_manager.py:22-23 | the copy carries the candidate filling mode |
| OrderManager.TryFillingsStep | mt5-ai-bot/src/execution/order_manager.py:21-34 | INVALID_FILL moves on to the next candidate; any other answer is returned with that candidate's request |
| OrderManager.Candidates | mt5-ai-bot/src/execution/order_manager.py:21-36 | one request per remaining candidate plus the final fallback |
| OrderManager.CandidatesShape | mt5-ai-bot/src/execution/order_manager.py:21-36 | the candidates' copies in order, ending with the request as built |
| OrderManager.FillingsBounded | mt5-ai-bot/src/execution/order_manager.py:21-36 | the placements are a non-empty prefix of the candidates, and the response belongs to the last |
| OrderManager.OnlyInvalidFillAdvances | mt5-ai-bot/src/execution/order_manager.py:25-36 | only INVALID_FILL advances; an INVALID_FILL response means every candidate and the fallback were tried |
| OrderManager.SendBudget | mt5-ai-bot/src/execution/order_manager.py:21-36 | the send budget is attempts per candidate and fallback |
| OrderManager.FillingsSendBound | mt5-ai-bot/src/execution/order_manager.py:21-36 | the fallback makes at most attempts * (candidates + 1) sends |
| OrderManager.FillAdvance | mt5-ai-bot/src/execution/order_manager.py:29-31 | a refused candidate's placement joins those already made |
| OrderManager.FillStop | mt5-ai-bot/src/execution/order_manager.py:25-34 | any other answer ends the fallback with that answer |
| OrderManager.FillFallback | mt5-ai-bot/src/execution/order_manager.py:35-36 | after the loop the request as built is placed once more |
| OrderManager.Manager.constructor | mt5-ai-bot/src/execution/order_manager.py:16-17 | the manager keeps its adapter |
| OrderManager.Manager.SendOrderWithFillings | mt5-ai-bot/src/execution/order_manager.py:19-36 | response, answers left and calls made are those of the fallback over the symbol's allowed modes |
| OrderManager.Manager.SendWithFillings | mt5-ai-bot/src/execution/order_manager.py:21-36 | the loop over given candidates matches the fallback specification |
| LiveRunner.BareOrder | mt5-ai-bot/scripts/run_live.py:193-202 | the resend is a deal request |
| LiveRunner.FullOrder | mt5-ai-bot/scripts/run_live.py:168-178 | the order is a deal request |
| LiveRunner.BracketsAroundEntry | mt5-ai-bot/scripts/run_live.py:147-149 | a buy enters at the ask with stop below and target above, a sell at the bid the other way, at the stop distance and rr times it |
| LiveRunner.Evaluate | mt5-ai-bot/scripts/run_live.py:126-182 | no signal skips; an order has the signal's direction, permission, a positive ATR-based stop distance, the brackets, stops far enough, positive volume, and is a dry run iff configured |
| LiveRunner.Decide | mt5-ai-bot/scripts/run_live.py:100-136 | an evaluated symbol passed every gate and a new bar, marks that bar and evaluates its signal; otherwise nothing is marked |
| LiveRunner.ScreeningOrder | mt5-ai-bot/scripts/run_live.py:101-115 | the first failing gate decides: not tradable, no tick, wide spread, out of session |
| LiveRunner.FullAccessSkipped | mt5-ai-bot/scripts/run_live.py:101-104 | as written a visible symbol with full trading access is skipped as not tradable and its bar is not marked |
| LiveRunner.OncePerBar | mt5-ai-bot/scripts/run_live.py:121-124 | a bar is evaluated at most once per symbol |
| LiveRunner.ModifyOnlyAfterFilledResend | mt5-ai-bot/scripts/run_live.py:191-208 | the stop modification happens iff the first answer was INVALID_STOPS and the resend was DONE; it carries the new ticket and planned stops |
| LiveRunner.ResendDropsOnlyStops | mt5-ai-bot/scripts/run_live.py:193-202 | the resend is the order without its stops, nothing else changed |
| LiveRunner.RowsFor | mt5-ai-bot/scripts/run_live.py:210-223 | one journal row exactly when filled |
| LiveRunner.AlertsFor | mt5-ai-bot/scripts/run_live.py:210-224 | one alert exactly when filled |
| LiveRunner.OnlySubmitTrades | mt5-ai-bot/scripts/run_live.py:180-224 | skips, halts and dry runs touch neither terminal nor journal; a submitted order adds one row and alert exactly when DONE |
| LiveRunner.CountersStayZero | mt5-ai-bot/scripts/run_live.py:93-141 | the loop never records trades, so the counters stay zero and permission depends on the limits alone |
| LiveRunner.LiveTrader.constructor | mt5-ai-bot/scripts/run_live.py:74-88 | the trader starts with no seen bars, no journal rows and no alerts |
| LiveRunner.LiveTrader.ExecutePlan | mt5-ai-bot/scripts/run_live.py:184-224 | the terminal, journal and alerts change as the execution specification says; seen bars unchanged |
| LiveRunner.LiveTrader.ProcessSymbol | mt5-ai-bot/scripts/run_live.py:100-224 | the new state and outcome are one step of the per-symbol specification |
| LiveRunner.LiveTrader.ScreenSymbol | mt5-ai-bot/scripts/run_live.py:101-136 | the outcome and seen bars are the decision specification's; no journal or alert |
| LiveRunner.LiveTrader.RunCycle | mt5-ai-bot/scripts/run_live.py:93-224 | the daily reset happens; the kill switch changes nothing else; otherwise the pass over the symbols of the specification |
| LegacyRisk.PipsTimesPipValue | src/risk_manager.py:112 | the stop distance in pips times the pip value is 100 times the price distance |
| LegacyRisk.PositionSize | src/risk_manager.py:94-127 | entry at the stop gives the minimum size; fails iff a zero pip value is divided by; otherwise the risk-based size clamped to the bounds, within 0.005, and already rounded to two decimals |
| LegacyRisk.RawSizeRisksBudget | src/risk_manager.py:112-119 | the unclamped size loses exactly the risk amount at the stop, whatever the pip value |
| LegacyRisk.StopLossLevel | src/risk_manager.py:129-153 | below the entry by the pip distance for a buy, above it for a sell, to five decimals |
| LegacyRisk.TakeProfitLevel | src/risk_manager.py:155-179 | above the entry by the pip distance for a buy, below it for a sell, to five decimals |
| LegacyRisk.LevelsMirror | src/risk_manager.py:129-179 | a buy's stop is a sell's target and vice versa, each within rounding of entry minus or plus the distance |
| LegacyRisk.RiskRewardRatio | src/risk_manager.py:181-201 | zero for a zero stop, else tp/sl rounded to two decimals |
| LegacyRisk.EvenRiskReward | src/risk_manager.py:181-201 | equal distances give a ratio of exactly 1 |
| LegacyRisk.CompletePosition | src/risk_manager.py:203-255 | fails iff the size divides by a zero pip value; otherwise the size against the rounded stop, the levels, ratio and inputs, the risk amount equity*pct/100 and the potential profit size*tp pips*pip value, each rounded to cents (within 0.005) |
| LegacyRisk.Check | src/risk_manager.py:270-286 | a check reports its error iff it failed |
| LegacyRisk.AppendCheck | src/risk_manager.py:268-286 | appending one check keeps the errors exactly the failing ones in order |
| LegacyRisk.ValidationErrors | src/risk_manager.py:268-286 | the errors are exactly the failing checks, in check order, none twice |
| LegacyRisk.ValidatePosition | src/risk_manager.py:257-294 | valid iff size within bounds, ratio at least the minimum and stop and target both away from entry; valid iff no errors |
| LegacyRisk.MaxPositionByEquity | src/risk_manager.py:296-311 | equity * pct / 100 * leverage rounded to two decimals |
| LegacyRisk.MaxPositionNonNegative | src/risk_manager.py:296-311 | non-negative inputs give a non-negative allowance |
| LegacyRisk.PipValue | src/risk_manager.py:313-335 | 0.01 iff the pair ends in JPY, else 0.0001 |
| LegacyRisk.Positives | src/risk_manager.py:347-348 | the count of winning results is at most the number of results |
| LegacyRisk.Evens | src/risk_manager.py:351-353 | the count of break-even results is at most the number of results |
| LegacyRisk.Negatives | src/risk_manager.py:349-350 | the count of losing results is at most the number of results |
| LegacyRisk.RecordResult | src/risk_manager.py:337-356 | as written: one more trade, profit added, losing unchanged; winning +1 iff a win, +0.5 iff break-even, unchanged iff a loss |
| LegacyRisk.RecordResultCounted | src/risk_manager.py:337-356 | as intended: the same, and losing +1 iff a loss, so each trade adds at most one to winning plus losing |
| LegacyRisk.TallyCounts | src/risk_manager.py:337-356 | as written: trades and profit exact, winning = wins + half the break-evens, losing stays 0 |
| LegacyRisk.PositivesEvensBound | src/risk_manager.py:347-353 | every result is a win, break-even or loss |
| LegacyRisk.LossNotCounted | src/risk_manager.py:349-350 | as written a loss changes neither the losing nor the winning count |
| LegacyRisk.TallyCountedCounts | src/risk_manager.py:337-356 | with losses counted, losing is the number of losses and every trade is accounted for |
| LegacyRisk.WinRate | src/risk_manager.py:358-368 | zero before any trade, else winning/trades in percent |
| LegacyRisk.WinRateBounds | src/risk_manager.py:358-368 | a winning count within the trade count gives a percentage in [0, 100] |
| LegacyRisk.Truncate | src/risk_manager.py:379 | int() truncates toward zero |
| LegacyRisk.TotalReturn | src/risk_manager.py:385 | total return times balance is 100 times profit |
| LegacyRisk.GetStatistics | src/risk_manager.py:370-390 | fails iff the balance is zero; otherwise the counts, the rounded rate, profit and return |
| LegacyRisk.RiskManager.constructor | src/risk_manager.py:57-79 | settings stored, equity at the balance, counters zero |
| LegacyRisk.RiskManager.UpdateEquity | src/risk_manager.py:84-91 | equity set, counters unchanged |
| LegacyRisk.RiskManager.RecordTradeResult | src/risk_manager.py:337-356 | counters advanced with the loss counted, equity unchanged, counters consistent |
| LegacyRisk.RiskManager.CalculatePositionSize | src/risk_manager.py:94-127 | the sizing at the manager's equity, risk and bounds: minimum at the stop, fails iff the pip value is zero, else the clamped risk-based size within 0.005 |
| LegacyRisk.RiskManager.CalculateCompletePosition | src/risk_manager.py:203-255 | fails iff the stop level differs from the entry and the pip value is zero; the stop, target and ratio are those of the level functions; the size is the sizing at the manager's equity, risk and bounds against that stop; risk amount and potential profit within 0.005 of current equity*risk/100 and size*tp pips*pip value |
| LegacyRisk.RiskManager.CalculateMaxPositionByEquity | src/risk_manager.py:296-311 | within 0.005 of equity * pct / 100 * leverage at the manager's equity |
| LegacyRisk.RiskManager.GetWinRate | src/risk_manager.py:358-368 | for consistent counters the win rate is a percentage in [0, 100] |
| LegacyRisk.RiskManager.ResetStatistics | src/risk_manager.py:392-398 | counters zeroed, equity unchanged |
| Common.RoundHalfEven | mt5-ai-bot/src/execution/risk_manager.py:60 | round() is within half of x, ties going to the even integer |
| Common.RoundTo | src/risk_manager.py:127 | round(x, n) is within half a unit of the n-th decimal of x |
| Common.RoundToIdempotent | src/risk_manager.py:127 | rounding twice to n decimals is rounding once |
| Common.RoundToNonNegative | src/risk_manager.py:127 | rounding keeps a non-negative value non-negative |
| Indicators.ValidateData | src/indicators.py:51-91 | the data unchanged iff at least min_length points, else the insufficient-data error with both counts |
| Indicators.Diff | src/indicators.py:308 | NaN minus anything is NaN; otherwise the difference |
| Common.ValidValues | src/indicators.py:312 | the non-NaN values are at most as many as the slots |
| Indicators.ValidSuffix | src/indicators.py:312 | a series defined from index k keeps exactly its slots from k as values |
| Common.ValidValuesMembers | src/indicators.py:312 | the kept values are exactly the non-NaN slots' values, and nothing is kept iff every slot is NaN |
| Indicators.ValidValuesBetween | src/indicators.py:312 | the valid values keep the series' bounds |
| Indicators.RightAlign | src/indicators.py:319-320 | NaN before, the values at the end |
| Indicators.SmaSeries | src/indicators.py:127-130 | NaN exactly before index period-1 |
| Indicators.Sma | src/indicators.py:94-136 | ok iff 1 <= period <= length, insufficient data when too short, then the SMA series |
| Indicators.SmaBetween | src/indicators.py:127 | every SMA value lies within the data's bounds |
| Indicators.SmaPeriodOne | src/indicators.py:127 | with period 1 the SMA is the data |
| Indicators.Multiplier | src/indicators.py:172 | the multiplier lies in (0, 1] |
| Indicators.EmaSeries | src/indicators.py:173-183 | NaN exactly before index period-1 |
| Indicators.Ema | src/indicators.py:139-189 | ok iff 1 <= period <= length, insufficient data when too short, then the EMA series |
| Indicators.EmaAtBetween | src/indicators.py:176-180 | every EMA value lies within the data's bounds |
| Indicators.EmaBetween | src/indicators.py:176-183 | the EMA series lies within the data's bounds |
| Indicators.ExponentialMovingAverage | src/indicators.py:161-186 | the array loop computes the EMA specification |
| Indicators.SmoothEma | src/indicators.py:179-180 | the loop fills every slot from period-1 with its EMA value |
| Indicators.FillEma | src/indicators.py:172-183 | the filled array is the EMA series |
| Indicators.Gains | src/indicators.py:226-229 | one non-negative gain per change |
| Indicators.Losses | src/indicators.py:226-230 | one non-negative loss per change |
| Indicators.GainsAndLosses | src/indicators.py:229-230 | gain minus loss is the change, and one of them is zero |
| Indicators.Smooth | src/indicators.py:241-242 | Wilder's smoothing of non-negative values stays non-negative, positive for a positive value |
| Indicators.AverageAt | src/indicators.py:237-242 | the smoothed average of non-negative values is non-negative |
| Indicators.MeanPrefixNonNegative | src/indicators.py:237-238 | the seed mean of non-negative values is non-negative |
| Indicators.RsiValueBetween | src/indicators.py:244-248 | RSI lies in [0, 100], is 100 iff a gain and no loss, 0 iff no gain |
| Indicators.RsiSeries | src/indicators.py:233-248 | NaN exactly for the first period slots |
| Indicators.Rsi | src/indicators.py:192-254 | ok iff 1 <= period < length, insufficient data when too short, then the RSI series |
| Indicators.RsiBetween | src/indicators.py:240-248 | every RSI value lies in [0, 100] |
| Indicators.RisingRsi | src/indicators.py:240-248 | a strictly rising series has RSI 100 wherever defined |
| Indicators.AverageAtZero | src/indicators.py:237-242 | all-zero values smooth to zero |
| Indicators.AverageAtPositive | src/indicators.py:237-242 | all-positive values smooth to a positive average |
| Indicators.RsiAsWritten | src/indicators.py:240-242 | as written every validated input ends in the index error; validation errors as before |
| Indicators.RelativeStrengthIndexAsWritten | src/indicators.py:219-248 | the loop as written matches the as-written specification |
| Indicators.RelativeStrengthIndex | src/indicators.py:219-251 | the corrected loop computes the RSI specification |
| Indicators.FillRsi | src/indicators.py:233-248 | the filled array is the RSI series |
| Indicators.SmoothRsi | src/indicators.py:237-248 | the loop fills every slot from period with its RSI |
| Indicators.MacdLine | src/indicators.py:304-308 | the fast minus slow EMA, defined exactly from index slow-1 |
| Indicators.AlignedEma | src/indicators.py:312-320 | one slot per input |
| Indicators.DiffSeries | src/indicators.py:323 | the slot-wise NaN-propagating difference |
| Indicators.Macd | src/indicators.py:257-333 | ok iff the periods are positive, fast < slow and there are slow+1 points; then the line, the aligned signal and their difference |
| Indicators.MacdShape | src/indicators.py:308-323 | line from slow-1; signal from slow+signal-2 when enough values exist, else nowhere; histogram where the signal is, line minus signal |
| Indicators.AlignedEmaShape | src/indicators.py:312-320 | an aligned EMA is defined exactly period-1 slots after the series starts |
| Indicators.MacdOfConstant | src/indicators.py:304-323 | a constant series has all three lines zero wherever defined |
| Indicators.MacdLineOfConstant | src/indicators.py:304-308 | a constant series has a zero MACD line |
| Indicators.RightAlignBetween | src/indicators.py:319-320 | aligning keeps bounds |
| Indicators.AlignedEmaBetween | src/indicators.py:312-320 | an aligned EMA keeps the series' bounds |
| Indicators.SmoothedKBetween | src/indicators.py:560-567 | the smoothed %K keeps the raw values' bounds |
| Indicators.TrueRange | src/indicators.py:469-477 | the first bar's range, else at least and one of the range and both gaps to the previous close |
| Indicators.TrueRanges | src/indicators.py:469-477 | one true range per bar |
| Indicators.Atr | src/indicators.py:421-486 | ok iff positive period, period+1 points in each and equal lengths; then the EMA of the true ranges |
| Indicators.AtrBetween | src/indicators.py:469-480 | with high >= low every ATR value lies in [0, largest true range] |
| Indicators.AverageTrueRange | src/indicators.py:454-483 | the array loop computes the ATR specification |
| Indicators.FillTrueRanges | src/indicators.py:469-477 | the filled array is the true ranges |
| Indicators.KValueBetween | src/indicators.py:553-557 | a close within the range has K in [0, 100] |
| Indicators.RawKBetween | src/indicators.py:549-557 | with closes inside their bars raw %K lies in [0, 100] |
| Indicators.RawKSeries | src/indicators.py:546-557 | NaN exactly before index period-1 |
| Indicators.SmoothedK | src/indicators.py:560-567 | one slot per input |
| Indicators.Stochastic | src/indicators.py:489-586 | ok iff lengths equal, period in [1, length] and both smoothing periods positive; then the smoothed %K and its aligned EMA |
| Indicators.StochasticBetween | src/indicators.py:545-577 | with closes inside their bars %K and %D lie in [0, 100] |
| Indicators.StochasticOscillator | src/indicators.py:528-583 | the array loop computes the stochastic specification |
| Indicators.FillRawK | src/indicators.py:546-557 | the filled array is the raw %K series |
| Indicators.WindowKs | src/indicators.py:549-557 | the loop fills every full window's raw %K |
| Indicators.TypicalPrices | src/indicators.py:639 | one typical price per bar |
| Indicators.Weighted | src/indicators.py:647 | each typical price times its volume |
| Indicators.VwapSeries | src/indicators.py:642-653 | one slot per bar |
| Indicators.Vwap | src/indicators.py:589-659 | ok iff at least one point and equal lengths; then the VWAP series |
| Indicators.WeightedConstant | src/indicators.py:647 | a constant price weighted by every volume is price times the total volume |
| Indicators.WeightedSumBetween | src/indicators.py:647-651 | weighting prices within bounds by non-negative volumes keeps the sum within the volume's multiples |
| Indicators.VwapBetween | src/indicators.py:646-653 | with positive volumes every VWAP is defined and between the lowest and highest typical price |
| Indicators.VwapAtBetween | src/indicators.py:646-651 | each cumulative VWAP lies within the typical prices' bounds |
| Indicators.VolumeWeightedAveragePrice | src/indicators.py:624-656 | the array loop computes the VWAP specification |
| Indicators.FillVwap | src/indicators.py:642-656 | the cumulative loop computes the VWAP series |
| Indicators.Missing | src/indicators.py:691-692 | exactly the required columns not present |
| Indicators.Highs | src/indicators.py:715 | the high column |
| Indicators.Lows | src/indicators.py:715 | the low column |
| Indicators.Closes | src/indicators.py:700 | the close column |
| Indicators.Volumes | src/indicators.py:722 | the volume column |
| Indicators.IndicatorSummaryAsWritten | src/indicators.py:662-743 | as written no table yields a summary; complete tables of 50 rows end in the RSI index error |
| Indicators.IndicatorSummary | src/indicators.py:662-743 | a summary iff all columns are present and at least 50 rows; missing columns reported, too few rows is insufficient data; the symbol and corrected RSI carried |

## Left out

- Floating point: prices and amounts are exact reals, so binary-float rounding is not modelled. Python's `round` is modelled as exact half-to-even rounding at the given decimal.
- NaN inputs: inputs are exact values, so NaN only appears where the code itself produces it (warm-up slots, zero-volume VWAP). `validate_data`'s NaN warning and its TypeError for unsupported input types are left out. The `param_name` text of error messages is not modelled.
- Indicators.Sma and Indicators.Ema: the "period exceeds data length" checks are not modelled, because validation has already rejected every such input.
- Bollinger bands are not part of this model. Indicators.IndicatorSummary therefore carries no `bollinger_bands` entry, and the summary's error cases do not include Bollinger's.
- Metrics: CAGR and the Sharpe ratio are left out (they need a clock span and a square root).
- Metrics.MaxDrawdown and Metrics.AvgRMultiple: NaN slots are skipped as pandas' `min()` and `mean()` skip them; `None` stands only for a result that pandas reports as `-inf`, `inf` or NaN (an infinite slot, or no finite slot at all).
- Indicators.AverageAt: the corrected RSI loop smooths the change ending at each index from period on, so its first step repeats the last change of the seed window; Wilder's seeding is not modelled.
- AtrBreakout.ComputeSignal assumes breakout_N, atr_period and ema_period are at least 1 (`Params.Valid`); `StrategyConfig` does not check this. At 0 Python behaves as follows: breakout_N = 0 gives an empty band window, so the band is NaN and the signal has no direction; atr_period = 0 gives a NaN rolling mean, so no trade; ema_period = 0 makes `ewm(span=0)` raise ValueError. Negative periods are not modelled either. The same assumption reaches Engine.RunBacktest through `BacktestParams.Valid`, LiveRunner.LiveTrader.RunCycle through `LiveConfig.Valid`, and the `period >= 1` requires of MathUtils.Atr, MathUtils.AtrAt, MathUtils.AtrDefinedFrom, MathUtils.AtrNonNegative, MathUtils.AtrAtNonNegative, MathUtils.AtrSlides, MathUtils.SpanAlpha and MathUtils.EmaSpan.
- Engine.RunBacktest requires a positive point size and tick value (`BacktestParams.Valid`). A zero point would be a division by zero in Python.
- Engine: the unused `df["atr"]` column is not computed.
- TimeUtils.ParseInt accepts only plain digit strings. Python's `int()` also accepts signs, surrounding whitespace and underscores.
- Time-zone conversion is left out: `parse_sessions`'s time-zone lookup and the conversion of the clock to local time. The current time is an input, as a local time of day.
- The terminal's initialize, shutdown, symbol_info and symbol_info_tick calls, `fetch_rates`, the account balance and the clock are inputs to the live loop, not calls.
- The MetaTrader 5 constants (filling modes) are a `FillModes` parameter, not their library values. Return codes are a datatype with the named codes.
- Requests are records, not dictionaries. The `order_check`/`order_send` transport is the answer queue of `Gateway`.
- The retry backoff sleep, the loop's `while True`, the sleep between passes, logging, the journal's time stamp, and message and log formatting are left out.
- The kill switch is a boolean parameter of `LiveRunner.LiveTrader.RunCycle` instead of the environment-file lookup.
- LiveRunner.LiveTrader.RunCycle reads the balance per symbol from that symbol's inputs rather than one account query per symbol.
- Safeguards.IsSymbolTradable follows the code as written: it requires trade mode 0, which MetaTrader 5 numbers as trading disabled.
- Safeguards.SpreadTooHigh requires a non-zero point size when there is a quote. A zero point is a ZeroDivisionError in spread_too_high, which the live loop models as a `Halted(ZeroPoint)` outcome before the spread test.
- LiveRisk.PositionSize requires a non-zero volume step when it sizes. A zero step is a ZeroDivisionError, which the live loop models as a `Halted(ZeroVolumeStep)` outcome.
- LiveRisk.RiskManager.CanTrade and LiveRisk.RiskManager.PositionSizeLots only delegate to `Permit` and `PositionSize`, whose contracts are in the table.
- Mt5Adapter.Adapter.PlaceMarketOrder follows the code: the check passes only on `TRADE_RETCODE_DONE`.

## Findings

| source | as written | input that shows it | evidently intended | confidence | as-written member | corrected member |
|---|---|---|---|---|---|---|
| src/indicators.py:240-242 | the RSI loop runs i up to len(data)-1 and reads gains[i], but gains has only len(data)-1 entries | any data of period+1 or more points, e.g. 15 closes with period 14 | read the change that ends at index i (gains[i-1], losses[i-1]) so every slot from period on is filled; this is the correction chosen here, and at i = period it smooths in gains[period-1] a second time, since the seed mean already holds it (Wilder's method would report the seed average's RSI at period and smooth in gains[period] next) | not executed | Indicators.RsiAsWritten, Indicators.RelativeStrengthIndexAsWritten, Indicators.IndicatorSummaryAsWritten | Indicators.Rsi, Indicators.RelativeStrengthIndex, Indicators.RsiBetween, Indicators.IndicatorSummary |
| mt5-ai-bot/src/backtest/metrics.py:29 | with returns but no trades the empty ledger frame has no pnl column and reading it raises KeyError | equity [100, 101] with no trades | no losses (infinite profit factor), zero win rate and zero average R for a run without trades | not executed | Metrics.NoTradesFails | Metrics.ComputeMetrics, Metrics.CorrectedMetrics |
| src/risk_manager.py:350 | a losing trade adds 0 to losing_trades, so the counter never moves | record one trade with pnl -10: losing stays 0 | increment the losing count by one per loss | not executed | LegacyRisk.TallyCounts, LegacyRisk.LossNotCounted | LegacyRisk.TallyCountedCounts, LegacyRisk.RiskManager.RecordTradeResult |
