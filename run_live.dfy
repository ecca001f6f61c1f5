// One pass of the live trading loop (mt5-ai-bot/scripts/run_live.py):
// the daily reset, the kill switch, and for each configured symbol the
// gates in their order, the once-per-bar deduplication, the signal, the
// risk check, the bracket prices, the position size, the order, the
// invalid-stops fallback, and the journal row and alert of a filled trade.
// The terminal's symbol data, quote, bars, account balance and clock are
// passed in; its trade answers come from the gateway's reply queue.

module LiveRunner {
  import opened Common
  import opened MathUtils
  import opened AtrBreakout
  import opened LiveRisk
  import opened Safeguards
  import opened TimeUtils
  import opened Mt5Types
  import opened OrderBuilder
  import opened Mt5Adapter
  import opened OrderManager

  /** The configuration values the per-symbol body reads. */
  datatype LiveConfig = LiveConfig(
    params: Params,
    maxSpreadPoints: int,
    slAtrMult: real,
    rrRatio: real,
    deviation: int,
    dryRun: bool,
    windows: seq<SessionWindow>)
  {
    predicate Valid() { params.Valid() }
  }

  /** What the terminal reports for one symbol on this pass. */
  datatype SymbolInputs = SymbolInputs(
    symbol: string,
    info: Option<SymbolInfo>,
    tick: Option<Tick>,
    rates: seq<Bar>,
    balance: real)

  /** Why a symbol was passed over. */
  datatype Gate =
    | NotTradable | NoTick | WideSpread | OutOfSession | NoRates | SameBar
    | NoSignal | RiskBlocked(reason: string) | NoStopDistance | StopsTooClose(minDistance: real) | NoVolume
  {
    /** The gates checked before the bar is marked as seen. */
    predicate Screening()
    {
      this == NotTradable || this == NoTick || this == WideSpread || this == OutOfSession
      || this == NoRates || this == SameBar
    }
  }

  /** A ZeroDivisionError that ends the loop: a zero point size in the spread test, or a zero volume step in the sizing. */
  datatype HaltCause = ZeroPoint | ZeroVolumeStep

  /** An order ready to be sent: its prices, size and the request built for it. */
  datatype TradePlan = TradePlan(
    symbol: string,
    direction: int,
    side: OrderSide,
    entry: real,
    sl: real,
    tp: real,
    slDistance: real,
    volume: real,
    info: SymbolInfo,
    order: OrderRequest)

  datatype Outcome = Skipped(gate: Gate) | Halted(cause: HaltCause) | DryRun(plan: TradePlan) | Submit(plan: TradePlan)
  {
    /** The bar was marked as seen and the signal was computed. */
    predicate Evaluated()
    {
      match this
      case Skipped(g) => !g.Screening()
      case Halted(c) => c == ZeroVolumeStep
      case _ => true
    }
  }

  /** The outcome of one symbol and the last-bar map after it. */
  datatype Decision = Decision(outcome: Outcome, lastBarTime: map<string, int>)

  /** The time of the newest bar (rates.index[-1]). */
  function LastTime(rates: seq<Bar>): int
    requires |rates| > 0
  {
    rates[|rates| - 1].time
  }

  /** The order of a plan built again without stops, as the invalid-stops fallback does. */
  function BareOrder(cfg: LiveConfig, modes: FillModes, plan: TradePlan): (o: OrderRequest)
    ensures o.request.DealRequest?
  {
    BuildMarketOrderRequest(plan.symbol, plan.side, plan.volume, plan.entry, cfg.deviation, None, None,
                            plan.info, modes, DefaultMagic, DefaultComment)
  }

  /** The order of a plan as first built, with its stops. */
  function FullOrder(cfg: LiveConfig, modes: FillModes, plan: TradePlan): (o: OrderRequest)
    ensures o.request.DealRequest?
  {
    BuildMarketOrderRequest(plan.symbol, plan.side, plan.volume, plan.entry, cfg.deviation, Some(plan.sl), Some(plan.tp),
                            plan.info, modes, DefaultMagic, DefaultComment)
  }

  /** The entry, stop-loss and take-profit of a buy (at the ask) or a sell (at the bid). */
  function Brackets(buy: bool, tick: Tick, slDistance: real, rrRatio: real): (real, real, real)
  {
    var entry := if buy then tick.ask else tick.bid;
    var sl := if buy then entry - slDistance else entry + slDistance;
    var tp := if buy then entry + rrRatio * slDistance else entry - rrRatio * slDistance;
    (entry, sl, tp)
  }

  /**
   * With a positive stop distance and reward ratio, a buy has its stop
   * below the entry and its target above it; a sell the other way round.
   */
  lemma BracketsAroundEntry(buy: bool, tick: Tick, slDistance: real, rrRatio: real)
    requires slDistance > 0.0 && rrRatio > 0.0
    ensures var (entry, sl, tp) := Brackets(buy, tick, slDistance, rrRatio);
      && (buy ==> entry == tick.ask && sl < entry < tp)
      && (!buy ==> entry == tick.bid && tp < entry < sl)
      && Abs(entry - sl) == slDistance && Abs(tp - entry) == rrRatio * slDistance
  {
    assert rrRatio * slDistance >= 0.0;
    assert rrRatio * slDistance != 0.0;
  }

  /**
   * The per-symbol body after the bar was marked, given the signal of its
   * bars: risk check, stop distance, bracket prices, stops level, size,
   * order, dry run.
   */
  function Evaluate(cfg: LiveConfig, modes: FillModes, limits: RiskLimits, rs: RiskState,
                    x: SymbolInputs, info: SymbolInfo, tick: Tick, signal: Signal): (o: Outcome)
    requires signal.direction != 0 ==> signal.atrValue.Val?
    ensures o.Evaluated()
    ensures signal.direction == 0 ==> o == Skipped(NoSignal)
    ensures (o.DryRun? || o.Submit?) ==>
      && signal.direction != 0 && o.plan.direction == signal.direction
      && Permit(limits, rs, x.balance).allowed
      && o.plan.slDistance > 0.0 && o.plan.slDistance == cfg.slAtrMult * signal.atrValue.value
      && (o.plan.entry, o.plan.sl, o.plan.tp) == Brackets(signal.direction == 1, tick, o.plan.slDistance, cfg.rrRatio)
      && o.plan.side == (if signal.direction == 1 then Buy else Sell)
      && StopsLevelOk(Some(info), Some(o.plan.sl), Some(o.plan.tp), o.plan.entry).0
      && o.plan.volume > 0.0
      && o.plan.symbol == x.symbol && o.plan.info == info
      && o.plan.order == FullOrder(cfg, modes, o.plan)
      && (o.DryRun? <==> cfg.dryRun)
  {
    if signal.direction == 0 then Skipped(NoSignal)
    else
      var permit := Permit(limits, rs, x.balance);
      if !permit.allowed then Skipped(RiskBlocked(permit.reason))
      else
        var slDistance := cfg.slAtrMult * signal.atrValue.value;
        if slDistance <= 0.0 then Skipped(NoStopDistance)
        else
          var buy := signal.direction == 1;
          var (entry, sl, tp) := Brackets(buy, tick, slDistance, cfg.rrRatio);
          var stops := StopsLevelOk(Some(info), Some(sl), Some(tp), entry);
          if !stops.0 then Skipped(StopsTooClose(stops.1))
          else if info.point > 0.0 && info.tradeTickValue > 0.0 && info.volumeStep == 0.0 then Halted(ZeroVolumeStep)
          else
            var volume := PositionSize(limits, x.balance, slDistance, info.point, info.tradeTickValue,
                                       info.volumeStep, info.volumeMin, info.volumeMax);
            if volume <= 0.0 then Skipped(NoVolume)
            else
              var side := if buy then Buy else Sell;
              var order := BuildMarketOrderRequest(x.symbol, side, volume, entry, cfg.deviation, Some(sl), Some(tp),
                                                   info, modes, DefaultMagic, DefaultComment);
              var plan := TradePlan(x.symbol, signal.direction, side, entry, sl, tp, slDistance, volume, info, order);
              if cfg.dryRun then DryRun(plan) else Submit(plan)
  }

  /**
   * The whole per-symbol decision: the screening gates in their order
   * (tradable, quote, spread, session, bars, same bar), then the marking of
   * the bar and the evaluation.
   */
  function Decide(cfg: LiveConfig, modes: FillModes, limits: RiskLimits, rs: RiskState,
                  last: map<string, int>, x: SymbolInputs, now: TimeOfDay): (d: Decision)
    requires cfg.Valid()
    ensures !d.outcome.Evaluated() ==> d.lastBarTime == last
    ensures d.outcome.Evaluated() ==>
      && x.info.Some? && IsSymbolTradable(x.info) && x.tick.Some?
      && x.info.value.point != 0.0 && !SpreadTooHigh(x.tick, cfg.maxSpreadPoints, x.info.value.point)
      && IsInSession(now, cfg.windows)
      && |x.rates| > 0
      && !(x.symbol in last && last[x.symbol] == LastTime(x.rates))
      && d.lastBarTime == last[x.symbol := LastTime(x.rates)]
      && d.outcome == Evaluate(cfg, modes, limits, rs, x, x.info.value, x.tick.value, ComputeSignal(x.rates, cfg.params))
  {
    if !IsSymbolTradable(x.info) then Decision(Skipped(NotTradable), last)
    else if x.tick.None? then Decision(Skipped(NoTick), last)
    else if x.info.value.point == 0.0 then Decision(Halted(ZeroPoint), last)
    else if SpreadTooHigh(x.tick, cfg.maxSpreadPoints, x.info.value.point) then Decision(Skipped(WideSpread), last)
    else if !IsInSession(now, cfg.windows) then Decision(Skipped(OutOfSession), last)
    else if |x.rates| == 0 then Decision(Skipped(NoRates), last)
    else if x.symbol in last && last[x.symbol] == LastTime(x.rates) then Decision(Skipped(SameBar), last)
    else Decision(Evaluate(cfg, modes, limits, rs, x, x.info.value, x.tick.value, ComputeSignal(x.rates, cfg.params)), last[x.symbol := LastTime(x.rates)])
  }

  /** The gates in their order: the first failing screening gate decides, with no order and no marking. */
  lemma ScreeningOrder(cfg: LiveConfig, modes: FillModes, limits: RiskLimits, rs: RiskState,
                       last: map<string, int>, x: SymbolInputs, now: TimeOfDay)
    requires cfg.Valid()
    ensures var d := Decide(cfg, modes, limits, rs, last, x, now);
      && (!IsSymbolTradable(x.info) ==> d.outcome == Skipped(NotTradable))
      && (IsSymbolTradable(x.info) && x.tick.None? ==> d.outcome == Skipped(NoTick))
      && ((IsSymbolTradable(x.info) && x.tick.Some? && x.info.value.point != 0.0
           && SpreadTooHigh(x.tick, cfg.maxSpreadPoints, x.info.value.point)) ==> d.outcome == Skipped(WideSpread))
      && ((IsSymbolTradable(x.info) && x.tick.Some? && x.info.value.point != 0.0
           && !SpreadTooHigh(x.tick, cfg.maxSpreadPoints, x.info.value.point)
           && !IsInSession(now, cfg.windows)) ==> d.outcome == Skipped(OutOfSession))
  {
  }

  /**
   * As written, the tradability check passes only trade mode 0, so a
   * visible symbol with full trading access is skipped before any quote,
   * signal or order is looked at, and its bar is not marked.
   */
  lemma FullAccessSkipped(cfg: LiveConfig, modes: FillModes, limits: RiskLimits, rs: RiskState,
                          last: map<string, int>, x: SymbolInputs, now: TimeOfDay)
    requires cfg.Valid()
    requires x.info.Some? && x.info.value.tradeMode == TradeModeFull
    ensures var d := Decide(cfg, modes, limits, rs, last, x, now);
      d.outcome == Skipped(NotTradable) && d.lastBarTime == last
  {
    RefusedSymbols(x.info.value);
  }

  /**
   * A bar is evaluated at most once per symbol: once a decision has marked
   * a bar, any later pass that sees the same newest bar time for that
   * symbol stops before the signal, whatever else has changed.
   */
  lemma OncePerBar(cfg: LiveConfig, modes: FillModes, limits: RiskLimits, rs: RiskState, rs2: RiskState,
                   last: map<string, int>, x: SymbolInputs, x2: SymbolInputs, now: TimeOfDay, now2: TimeOfDay)
    requires cfg.Valid()
    requires Decide(cfg, modes, limits, rs, last, x, now).outcome.Evaluated()
    requires x2.symbol == x.symbol && |x2.rates| > 0 && LastTime(x2.rates) == LastTime(x.rates)
    ensures var d := Decide(cfg, modes, limits, rs, last, x, now);
            var d2 := Decide(cfg, modes, limits, rs2, d.lastBarTime, x2, now2);
            !d2.outcome.Evaluated() && d2.lastBarTime == d.lastBarTime
  {
    var d := Decide(cfg, modes, limits, rs, last, x, now);
    assert x.symbol in d.lastBarTime && d.lastBarTime[x.symbol] == LastTime(x2.rates);
  }

  /** The terminal answers after the order of a plan was handled. */
  datatype Execution = Execution(final: Option<TradeResult>, rest: seq<Option<TradeResult>>,
                                 calls: seq<GatewayCall>, modification: Option<Request>)

  /**
   * Sending a plan: the order with its fillings fallback; on INVALID_STOPS
   * the same order without stops, and, only when that one is DONE, a
   * modification putting the stops on the new position.
   */
  function Execute(cfg: LiveConfig, modes: FillModes, attempts: int, plan: TradePlan, q: seq<Option<TradeResult>>): (e: Execution)
    requires plan.order.request.DealRequest?
  {
    var fillings := AllowedFillings(plan.info, modes);
    var first := TryFillings(fillings, 0, plan.order.request, attempts, q);
    var r := first.response.result;
    if r.Some? && r.value.retcode.InvalidStops? then
      var second := TryFillings(fillings, 0, BareOrder(cfg, modes, plan).request, attempts, first.rest);
      var r2 := second.response.result;
      if r2.None? || !r2.value.retcode.Done? then Execution(r2, second.rest, first.calls + second.calls, None)
      else
        var amendment := BuildSlTpRequest(r2.value.order, plan.symbol, plan.sl, plan.tp);
        Execution(r2, Rest(second.rest), first.calls + second.calls + [OrderSendCall(amendment)], Some(amendment))
    else Execution(r, first.rest, first.calls, None)
  }

  /** The answer is final and filled (TRADE_RETCODE_DONE). */
  predicate Filled(final: Option<TradeResult>)
  {
    final.Some? && final.value.retcode.Done?
  }

  /**
   * The stop modification is issued exactly when the first answer was
   * INVALID_STOPS and the resend without stops was DONE; it carries the
   * new position's ticket and the planned stops, and a modified trade
   * always ends filled.
   */
  lemma ModifyOnlyAfterFilledResend(cfg: LiveConfig, modes: FillModes, attempts: int, plan: TradePlan, q: seq<Option<TradeResult>>)
    requires plan.order.request.DealRequest?
    ensures var e := Execute(cfg, modes, attempts, plan, q);
            var fillings := AllowedFillings(plan.info, modes);
            var first := TryFillings(fillings, 0, plan.order.request, attempts, q);
            var second := TryFillings(fillings, 0, BareOrder(cfg, modes, plan).request, attempts, first.rest);
      && (e.modification.Some? <==> (first.response.result.Some? && first.response.result.value.retcode.InvalidStops?
                                     && Filled(second.response.result)))
      && (e.modification.Some? ==> (e.modification.value == SlTpRequest(second.response.result.value.order, plan.symbol, plan.sl, plan.tp)
                                    && Filled(e.final)))
  {
  }

  /** The resend without stops is the original order with its stops removed and nothing else changed. */
  lemma ResendDropsOnlyStops(cfg: LiveConfig, modes: FillModes, plan: TradePlan)
    requires plan.order == FullOrder(cfg, modes, plan)
    ensures BareOrder(cfg, modes, plan) == plan.order.(request := plan.order.request.(sl := None, tp := None))
  {
    WithoutStopsDropsOnlyStops(plan.symbol, plan.side, plan.volume, plan.entry, cfg.deviation, Some(plan.sl), Some(plan.tp),
                               plan.info, modes, DefaultMagic, DefaultComment);
  }

  /** A journal row (the time stamp is left out). */
  datatype JournalRow = JournalRow(symbol: string, direction: string, volume: real, price: real,
                                   sl: real, tp: real, ticket: int, comment: string)

  /** The content of the alert message. */
  datatype Alert = Alert(symbol: string, direction: int, entry: real)

  function RowOf(plan: TradePlan, result: TradeResult): JournalRow
  {
    JournalRow(plan.symbol, if plan.direction == 1 then "BUY" else "SELL", plan.volume, plan.entry,
               plan.sl, plan.tp, result.order, result.comment)
  }

  /** The journal rows a handled plan adds: one exactly when it was filled. */
  function RowsFor(plan: TradePlan, final: Option<TradeResult>): (rows: seq<JournalRow>)
    ensures |rows| == (if Filled(final) then 1 else 0)
  {
    if Filled(final) then [RowOf(plan, final.value)] else []
  }

  function AlertsFor(plan: TradePlan, final: Option<TradeResult>): (alerts: seq<Alert>)
    ensures |alerts| == (if Filled(final) then 1 else 0)
  {
    if Filled(final) then [Alert(plan.symbol, plan.direction, plan.entry)] else []
  }

  /** What the loop keeps between symbols: the last-bar map, journal, alerts and the terminal's queue and call log. */
  datatype LiveState = LiveState(lastBarTime: map<string, int>, journal: seq<JournalRow>, alerts: seq<Alert>,
                                 replies: seq<Option<TradeResult>>, calls: seq<GatewayCall>)

  /** One symbol of one pass. */
  function Step(cfg: LiveConfig, modes: FillModes, attempts: int, limits: RiskLimits, rs: RiskState,
                st: LiveState, x: SymbolInputs, now: TimeOfDay): (LiveState, Outcome)
    requires cfg.Valid()
  {
    var d := Decide(cfg, modes, limits, rs, st.lastBarTime, x, now);
    if d.outcome.Submit? then
      var plan := d.outcome.plan;
      var e := Execute(cfg, modes, attempts, plan, st.replies);
      (LiveState(d.lastBarTime, st.journal + RowsFor(plan, e.final), st.alerts + AlertsFor(plan, e.final),
                 e.rest, st.calls + e.calls),
       d.outcome)
    else (st.(lastBarTime := d.lastBarTime), d.outcome)
  }

  /**
   * Only a submitted order talks to the terminal: skipped symbols, halts
   * and dry runs leave the queue, the call log, the journal and the alerts
   * as they were. A submitted order adds one journal row and one alert
   * exactly when its final answer is DONE (PLACED is not journalled).
   */
  lemma OnlySubmitTrades(cfg: LiveConfig, modes: FillModes, attempts: int, limits: RiskLimits, rs: RiskState,
                         st: LiveState, x: SymbolInputs, now: TimeOfDay)
    requires cfg.Valid()
    ensures var (st2, o) := Step(cfg, modes, attempts, limits, rs, st, x, now);
      && (!o.Submit? ==> st2.replies == st.replies && st2.calls == st.calls
                         && st2.journal == st.journal && st2.alerts == st.alerts)
      && (o.Submit? ==> var e := Execute(cfg, modes, attempts, o.plan, st.replies);
                        && |st2.journal| == |st.journal| + (if Filled(e.final) then 1 else 0)
                        && st2.journal[..|st.journal|] == st.journal
                        && (Filled(e.final) ==> st2.journal[|st.journal|] == RowOf(o.plan, e.final.value))
                        && |st2.alerts| == |st.alerts| + (if Filled(e.final) then 1 else 0))
  {
    var (st2, o) := Step(cfg, modes, attempts, limits, rs, st, x, now);
    if o.Submit? {
      var e := Execute(cfg, modes, attempts, o.plan, st.replies);
      assert st2.journal == st.journal + RowsFor(o.plan, e.final);
    }
  }

  /** The rest of a pass over the symbols from index i on; a halt ends the pass. */
  function Cycle(cfg: LiveConfig, modes: FillModes, attempts: int, limits: RiskLimits, rs: RiskState,
                 st: LiveState, xs: seq<SymbolInputs>, i: nat, now: TimeOfDay): (LiveState, bool)
    requires cfg.Valid() && i <= |xs|
    decreases |xs| - i
  {
    if i == |xs| then (st, false)
    else
      var (st1, o) := Step(cfg, modes, attempts, limits, rs, st, xs[i], now);
      if o.Halted? then (st1, true) else Cycle(cfg, modes, attempts, limits, rs, st1, xs, i + 1, now)
  }

  /** The state after resetting on each day in turn, from the initial state. */
  function ResetAll(s: RiskState, days: seq<string>): RiskState
    decreases |days|
  {
    if |days| == 0 then s else AfterReset(ResetAll(s, days[..|days| - 1]), days[|days| - 1])
  }

  /**
   * The loop never records a trade, so from the initial state the day's
   * counters stay at zero whatever days pass: the maximum-trades gate only
   * blocks when the maximum is not positive, and the loss gate only when
   * the loss threshold is not negative.
   */
  lemma {:induction false} CountersStayZero(days: seq<string>, limits: RiskLimits, balance: real)
    ensures ResetAll(InitialState, days).tradesToday == 0
    ensures ResetAll(InitialState, days).realizedPnlToday == 0.0
    ensures Permit(limits, ResetAll(InitialState, days), balance).allowed
            <==> 0 < limits.maxTradesPerDay && DailyLossLimit(balance, limits.dailyLossLimitPct) < 0.0
    decreases |days|
  {
    if |days| > 0 {
      CountersStayZero(days[..|days| - 1], limits, balance);
    }
  }

  /** The live loop's state: its configuration, its collaborators, and what it updates in place. */
  class LiveTrader {
    const cfg: LiveConfig
    const risk: RiskManager
    const manager: Manager
    var lastBarTime: map<string, int>
    var journal: seq<JournalRow>
    var alerts: seq<Alert>

    constructor (cfg: LiveConfig, risk: RiskManager, manager: Manager)
      ensures this.cfg == cfg && this.risk == risk && this.manager == manager
      ensures lastBarTime == map[] && journal == [] && alerts == []
    {
      this.cfg := cfg;
      this.risk := risk;
      this.manager := manager;
      lastBarTime := map[];
      journal := [];
      alerts := [];
    }

    function Snapshot(): LiveState
      reads this, manager.adapter.gateway
    {
      LiveState(lastBarTime, journal, alerts, manager.adapter.gateway.replies, manager.adapter.gateway.calls)
    }

    /** The order handling of the per-symbol body, from the send to the journal and alert. */
    method ExecutePlan(plan: TradePlan)
      requires plan.order.request.DealRequest?
      modifies this, manager.adapter.gateway
      ensures var e := Execute(cfg, manager.modes, manager.adapter.retryAttempts, plan, old(manager.adapter.gateway.replies));
        && manager.adapter.gateway.replies == e.rest
        && manager.adapter.gateway.calls == old(manager.adapter.gateway.calls) + e.calls
        && journal == old(journal) + RowsFor(plan, e.final)
        && alerts == old(alerts) + AlertsFor(plan, e.final)
        && lastBarTime == old(lastBarTime)
    {
      ghost var q := manager.adapter.gateway.replies;
      ghost var calls0 := manager.adapter.gateway.calls;
      var response := manager.SendOrderWithFillings(plan.order, plan.info);
      var result := response.result;
      if result.None? {
        return;
      }
      if result.value.retcode.InvalidStops? {
        ghost var calls1 := manager.adapter.gateway.calls;
        var bare := BuildMarketOrderRequest(plan.symbol, plan.side, plan.volume, plan.entry, cfg.deviation, None, None,
                                            plan.info, manager.modes, DefaultMagic, DefaultComment);
        response := manager.SendOrderWithFillings(bare, plan.info);
        result := response.result;
        ConcatAssoc(calls0, calls1[|calls0|..], manager.adapter.gateway.calls[|calls1|..]);
        if result.None? || !result.value.retcode.Done? {
          return;
        }
        ghost var calls2 := manager.adapter.gateway.calls;
        var amendment := BuildSlTpRequest(result.value.order, plan.symbol, plan.sl, plan.tp);
        var _ := manager.adapter.ModifyPositionSlTp(amendment);
        ConcatAssoc(calls0, calls2[|calls0|..], [OrderSendCall(amendment)]);
      }
      if result.value.retcode.Done? {
        journal := journal + [RowOf(plan, result.value)];
        alerts := alerts + [Alert(plan.symbol, plan.direction, plan.entry)];
      }
    }

    /** The per-symbol body of the loop: the gates and the evaluation, then the order when one is submitted. */
    method ProcessSymbol(x: SymbolInputs, now: TimeOfDay) returns (outcome: Outcome)
      requires cfg.Valid()
      modifies this, manager.adapter.gateway
      ensures (Snapshot(), outcome)
              == Step(cfg, manager.modes, manager.adapter.retryAttempts, risk.limits, risk.state, old(Snapshot()), x, now)
    {
      outcome := ScreenSymbol(x, now);
      if outcome.Submit? {
        ExecutePlan(outcome.plan);
      }
    }

    /**
     * The gates of the per-symbol body in their order, the new-bar marking
     * and the evaluation of the signal; nothing is sent.
     */
    method ScreenSymbol(x: SymbolInputs, now: TimeOfDay) returns (outcome: Outcome)
      requires cfg.Valid()
      modifies this
      ensures Decision(outcome, lastBarTime)
              == Decide(cfg, manager.modes, risk.limits, risk.state, old(lastBarTime), x, now)
      ensures journal == old(journal) && alerts == old(alerts)
    {
      if !IsSymbolTradable(x.info) {
        return Skipped(NotTradable);
      }
      var info := x.info.value;
      if x.tick.None? {
        return Skipped(NoTick);
      }
      var tick := x.tick.value;
      if info.point == 0.0 {
        return Halted(ZeroPoint);
      }
      if SpreadTooHigh(x.tick, cfg.maxSpreadPoints, info.point) {
        return Skipped(WideSpread);
      }
      if !IsInSession(now, cfg.windows) {
        return Skipped(OutOfSession);
      }
      if |x.rates| == 0 {
        return Skipped(NoRates);
      }
      var barTime := x.rates[|x.rates| - 1].time;
      if x.symbol in lastBarTime && lastBarTime[x.symbol] == barTime {
        return Skipped(SameBar);
      }
      lastBarTime := lastBarTime[x.symbol := barTime];
      var signal := ComputeSignal(x.rates, cfg.params);
      outcome := Evaluate(cfg, manager.modes, risk.limits, risk.state, x, info, tick, signal);
    }

    /**
     * One pass of the loop: the daily reset, then, unless the kill switch
     * is on, every symbol in order until one halts the loop.
     */
    method RunCycle(day: string, now: TimeOfDay, killSwitch: bool, xs: seq<SymbolInputs>) returns (halted: bool)
      requires cfg.Valid()
      modifies this, risk, manager.adapter.gateway
      ensures risk.state == AfterReset(old(risk.state), day)
      ensures killSwitch ==> Snapshot() == old(Snapshot()) && !halted
      ensures !killSwitch ==>
                ((Snapshot(), halted)
                 == Cycle(cfg, manager.modes, manager.adapter.retryAttempts, risk.limits, risk.state, old(Snapshot()), xs, 0, now))
    {
      risk.ResetIfNewDay(day);
      if killSwitch {
        return false;
      }
      ghost var total := Cycle(cfg, manager.modes, manager.adapter.retryAttempts, risk.limits, risk.state, Snapshot(), xs, 0, now);
      var i := 0;
      while i < |xs|
        invariant 0 <= i <= |xs|
        invariant risk.state == AfterReset(old(risk.state), day)
        invariant total == Cycle(cfg, manager.modes, manager.adapter.retryAttempts, risk.limits, risk.state, Snapshot(), xs, i, now)
      {
        var outcome := ProcessSymbol(xs[i], now);
        if outcome.Halted? {
          return true;
        }
        i := i + 1;
      }
      return false;
    }
  }
}
