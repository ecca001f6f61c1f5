// The bar-by-bar backtest (mt5-ai-bot/src/backtest/engine.py): at most one
// open position, exits at the stop or the target checked before entries,
// entries at the bar close sized by the risk percentage of the balance, a
// trade ledger and one equity value per bar after the warm-up.

module Engine {
  import opened Common
  import opened MathUtils
  import opened AtrBreakout
  import opened Costs

  /** The run's parameters; point and tick value are the symbol's. */
  datatype BacktestParams = BacktestParams(
    strategy: Params,
    slAtrMult: real,
    rrRatio: real,
    riskPerTradePct: real,
    point: real,
    tickValue: real,
    costs: TradingCosts)
  {
    predicate Valid() { strategy.Valid() && point > 0.0 && tickValue > 0.0 }
  }

  /** The open position: entry bar time, direction, prices, size and the risk amount fixed at entry. */
  datatype Position = Position(time: int, direction: int, entry: real, sl: real, tp: real, lots: real, riskAmount: real)

  /** One closed trade. rMultiple is None where the source divides by a zero risk amount. */
  datatype TradeRecord = TradeRecord(entryTime: int, exitTime: int, direction: int, entry: real, exit: real,
                                     lots: real, pnl: real, rMultiple: Option<real>)

  /** The loop's variables: balance, position, equity curve and ledger. */
  datatype BtState = BtState(balance: real, position: Option<Position>, equity: seq<real>, trades: seq<TradeRecord>)

  /** The bar reaches the position's stop: the low for a long, the high for a short. */
  predicate StopReached(pos: Position, bar: Bar)
  {
    if pos.direction == 1 then bar.low <= pos.sl else bar.high >= pos.sl
  }

  /** The bar reaches the position's target: the high for a long, the low for a short. */
  predicate TargetReached(pos: Position, bar: Bar)
  {
    if pos.direction == 1 then bar.high >= pos.tp else bar.low <= pos.tp
  }

  /**
   * The exit price on a bar, if any: the stop when the bar reaches it,
   * otherwise the target when the bar reaches that; the stop is checked
   * first.
   */
  function ExitPrice(pos: Position, bar: Bar): (exit: Option<real>)
    ensures StopReached(pos, bar) ==> exit == Some(pos.sl)
    ensures !StopReached(pos, bar) && TargetReached(pos, bar) ==> exit == Some(pos.tp)
    ensures exit.None? <==> !StopReached(pos, bar) && !TargetReached(pos, bar)
  {
    if pos.direction == 1 then
      if bar.low <= pos.sl then Some(pos.sl) else if bar.high >= pos.tp then Some(pos.tp) else None
    else
      if bar.high >= pos.sl then Some(pos.sl) else if bar.low <= pos.tp then Some(pos.tp) else None
  }

  /**
   * The money result of closing at exit: the price move in the trade's
   * direction, in points, times tick value and lots, less the commission
   * per lot and the spread and slippage costs at the tick value.
   */
  function PnlValue(pos: Position, exit: real, p: BacktestParams): (r: real)
    requires p.Valid()
    ensures pos.lots >= 0.0 && (exit - pos.entry) * (pos.direction as real) >= 0.0 ==> r >= -TradeCost(pos, p)
    ensures pos.lots >= 0.0 && (exit - pos.entry) * (pos.direction as real) <= 0.0 ==> r <= -TradeCost(pos, p)
  {
    var pnl := (exit - pos.entry) * (pos.direction as real);
    pnl / p.point * p.tickValue * pos.lots
    - p.costs.commissionPerLot * pos.lots
    - (p.costs.SpreadCost(p.tickValue) + p.costs.SlippageCost(p.tickValue))
  }

  /** pnl / risk_amount; None stands for the infinite or NaN quotient of a zero risk amount. */
  function RMultiple(pnl: real, riskAmount: real): (r: Option<real>)
    ensures riskAmount != 0.0 <==> r.Some?
    ensures r.Some? ==> r.value * riskAmount == pnl
  {
    if riskAmount == 0.0 then None else Some(pnl / riskAmount)
  }
  /** What closing a position costs whatever its result: commission on its lots, spread and slippage. */
  function TradeCost(pos: Position, p: BacktestParams): real
  {
    p.costs.commissionPerLot * pos.lots + (p.costs.SpreadCost(p.tickValue) + p.costs.SlippageCost(p.tickValue))
  }

  /** The exit part of one bar. */
  function CloseStep(s: BtState, bar: Bar, p: BacktestParams): (r: BtState)
    requires p.Valid()
    ensures r.equity == s.equity
    ensures s.position.None? || ExitPrice(s.position.value, bar).None? ==> r == s
    ensures s.position.Some? && ExitPrice(s.position.value, bar).Some? ==>
      && r.position.None? && |r.trades| == |s.trades| + 1 && r.trades[..|s.trades|] == s.trades
      && r.balance == s.balance + r.trades[|s.trades|].pnl
  {
    if s.position.None? then s
    else
      var pos := s.position.value;
      var exit := ExitPrice(pos, bar);
      if exit.None? then s
      else
        var pnl := PnlValue(pos, exit.value, p);
        var record := TradeRecord(pos.time, bar.time, pos.direction, pos.entry, exit.value, pos.lots, pnl,
                                  RMultiple(pnl, pos.riskAmount));
        BtState(s.balance + pnl, None, s.equity, s.trades + [record])
  }

  /** The money at risk on a new trade: the risk percentage of the balance. */
  function RiskAmount(balance: real, p: BacktestParams): real
  {
    balance * (p.riskPerTradePct / 100.0)
  }

  /** The lots whose stop-out loses riskAmount: the risk over the stop distance priced in ticks. */
  function SizedLots(riskAmount: real, slDistance: real, p: BacktestParams): real
    requires p.Valid() && slDistance > 0.0
  {
    riskAmount / (slDistance / p.point * p.tickValue)
  }

  /** The target: rrRatio stop distances from the entry, in the trade's direction. */
  function Target(buy: bool, entry: real, slDistance: real, p: BacktestParams): real
  {
    if buy then entry + p.rrRatio * slDistance else entry - p.rrRatio * slDistance
  }

  /** The position opened at a bar's close for a signal, or None when the stop distance is not positive. */
  function Entry(signal: Signal, bar: Bar, balance: real, p: BacktestParams): (r: Option<Position>)
    requires p.Valid() && signal.direction != 0 && signal.atrValue.Val?
    ensures r.Some? <==> p.slAtrMult * signal.atrValue.value > 0.0
    ensures r.Some? ==>
      && r.value.time == bar.time && r.value.direction == signal.direction && r.value.entry == bar.close
      && r.value.lots >= 0.0 && r.value.riskAmount == RiskAmount(balance, p)
  {
    var entry := bar.close;
    var slDistance := p.slAtrMult * signal.atrValue.value;
    if slDistance <= 0.0 then None
    else
      var buy := signal.direction == 1;
      var sl := if buy then entry - slDistance else entry + slDistance;
      var riskAmount := RiskAmount(balance, p);
      Some(Position(bar.time, signal.direction, entry, sl, Target(buy, entry, slDistance, p),
                    Max(SizedLots(riskAmount, slDistance, p), 0.0), riskAmount))
  }

  /**
   * A position opened with a non-negative risk amount loses exactly that
   * amount, before costs, when its stop is hit; with a positive reward
   * ratio the stop and the target lie on opposite sides of the entry, the
   * stop below it for a buy and above it for a sell.
   */
  lemma EntryRisk(signal: Signal, bar: Bar, balance: real, p: BacktestParams)
    requires p.Valid() && (signal.direction == 1 || signal.direction == -1) && signal.atrValue.Val?
    requires Entry(signal, bar, balance, p).Some? && RiskAmount(balance, p) >= 0.0
    ensures var pos := Entry(signal, bar, balance, p).value;
      && pos.entry == bar.close && pos.riskAmount == RiskAmount(balance, p)
      && (pos.sl - pos.entry) * (pos.direction as real) / p.point * p.tickValue * pos.lots == -pos.riskAmount
    ensures var pos := Entry(signal, bar, balance, p).value;
      p.rrRatio > 0.0 ==>
        && (pos.direction == 1 ==> pos.sl < pos.entry < pos.tp)
        && (pos.direction == -1 ==> pos.tp < pos.entry < pos.sl)
  {
    var pos := Entry(signal, bar, balance, p).value;
    var d := p.slAtrMult * signal.atrValue.value;
    var risk := RiskAmount(balance, p);
    var perLot := d / p.point * p.tickValue;
    assert perLot > 0.0 by {
      assert d / p.point > 0.0;
    }
    var sized := risk / perLot;
    assert sized >= 0.0 by {
      assert 0.0 <= risk / perLot;
    }
    assert pos.lots == sized;
    assert (pos.sl - pos.entry) * (pos.direction as real) == -d;
    assert (-d) / p.point * p.tickValue == -perLot;
    assert sized * perLot == risk;
    if p.rrRatio > 0.0 {
      assert p.rrRatio * d > 0.0;
    }
  }

  /** The entry part of a bar: only without an open position, on the signal of the bars up to it. */
  function OpenStep(s: BtState, bar: Bar, signal: Signal, p: BacktestParams): (r: BtState)
    requires p.Valid() && (signal.direction != 0 ==> signal.atrValue.Val?)
    ensures r.balance == s.balance && r.equity == s.equity && r.trades == s.trades
    ensures s.position.Some? || signal.direction == 0 ==> r == s
  {
    if s.position.Some? || signal.direction == 0 then s
    else s.(position := Entry(signal, bar, s.balance, p))
  }

  /** One iteration of the bar loop: exit, entry, then the balance joins the equity curve. */
  function BarStep(s: BtState, bar: Bar, signal: Signal, p: BacktestParams): (r: BtState)
    requires p.Valid() && (signal.direction != 0 ==> signal.atrValue.Val?)
    ensures r.equity == s.equity + [r.balance]
    ensures |s.trades| <= |r.trades| <= |s.trades| + 1 && r.trades[..|s.trades|] == s.trades
  {
    var s2 := OpenStep(CloseStep(s, bar, p), bar, signal, p);
    s2.(equity := s2.equity + [s2.balance])
  }

  /** Every signal that has a direction has a defined ATR, as compute_signal guarantees. */
  predicate SignalsDefined(signals: seq<Signal>)
  {
    forall i :: 0 <= i < |signals| ==> (signals[i].direction != 0 ==> signals[i].atrValue.Val?)
  }

  /** The signal at each bar, computed from the bars up to and including it. */
  function Signals(bars: seq<Bar>, strategy: Params): (signals: seq<Signal>)
    requires strategy.Valid()
    ensures |signals| == |bars| && SignalsDefined(signals)
  {
    seq(|bars|, i requires 0 <= i < |bars| => ComputeSignal(bars[..i + 1], strategy))
  }

  /** The signal at bar i is compute_signal on the rows up to and including i. */
  lemma SignalsAt(bars: seq<Bar>, strategy: Params, i: nat)
    requires strategy.Valid() && i < |bars|
    ensures Signals(bars, strategy)[i] == ComputeSignal(bars[..i + 1], strategy)
  {
  }

  /**
   * The loop's state after the bars before index n, given the signal of
   * each bar.
   */
  function Run(bars: seq<Bar>, signals: seq<Signal>, initialBalance: real, p: BacktestParams, n: nat): (r: BtState)
    requires p.Valid() && n <= |bars| == |signals| && SignalsDefined(signals)
    ensures |r.equity| == if n <= p.strategy.Warmup() then 0 else n - p.strategy.Warmup()
    ensures |r.trades| <= |r.equity|
  {
    if n <= p.strategy.Warmup() then BtState(initialBalance, None, [], [])
    else BarStep(Run(bars, signals, initialBalance, p, n - 1), bars[n - 1], signals[n - 1], p)
  }

  /** One more bar past the warm-up is one more BarStep. */
  lemma RunStep(bars: seq<Bar>, signals: seq<Signal>, initialBalance: real, p: BacktestParams, idx: nat)
    requires p.Valid() && idx < |bars| == |signals| && SignalsDefined(signals) && idx >= p.strategy.Warmup()
    ensures Run(bars, signals, initialBalance, p, idx + 1)
            == BarStep(Run(bars, signals, initialBalance, p, idx), bars[idx], signals[idx], p)
  {
  }

  /** The P&L column of a ledger. */
  function Pnls(trades: seq<TradeRecord>): (r: seq<real>)
    ensures |r| == |trades| && forall k :: 0 <= k < |r| ==> r[k] == trades[k].pnl
  {
    if |trades| == 0 then [] else Pnls(trades[..|trades| - 1]) + [trades[|trades| - 1].pnl]
  }

  /**
   * The balance only changes when a trade closes: it is always the initial
   * balance plus the ledger's P&L, and the equity curve ends at it.
   */
  lemma {:induction false} BalanceIsLedger(bars: seq<Bar>, signals: seq<Signal>, initialBalance: real, p: BacktestParams, n: nat)
    requires p.Valid() && n <= |bars| == |signals| && SignalsDefined(signals)
    ensures var s := Run(bars, signals, initialBalance, p, n);
      && s.balance == initialBalance + Sum(Pnls(s.trades))
      && (|s.equity| > 0 ==> s.equity[|s.equity| - 1] == s.balance)
  {
    if n > p.strategy.Warmup() {
      var before := Run(bars, signals, initialBalance, p, n - 1);
      var after := BarStep(before, bars[n - 1], signals[n - 1], p);
      BalanceIsLedger(bars, signals, initialBalance, p, n - 1);
      LedgerStep(before, bars[n - 1], signals[n - 1], p);
      var booked, bookedAfter := Sum(Pnls(before.trades)), Sum(Pnls(after.trades));
      assert before.balance == initialBalance + booked;
      assert after.balance - bookedAfter == before.balance - booked;
      assert Run(bars, signals, initialBalance, p, n) == after;
    }
  }

  /** One bar moves the balance by exactly the P&L it adds to the ledger, and the curve ends at the balance. */
  lemma LedgerStep(s: BtState, bar: Bar, signal: Signal, p: BacktestParams)
    requires p.Valid() && (signal.direction != 0 ==> signal.atrValue.Val?)
    ensures var s2 := BarStep(s, bar, signal, p);
      && s2.balance - Sum(Pnls(s2.trades)) == s.balance - Sum(Pnls(s.trades))
      && |s2.equity| > 0 && s2.equity[|s2.equity| - 1] == s2.balance
  {
    var closed := CloseStep(s, bar, p);
    BarEffects(s, bar, signal, p);
    if closed.trades != s.trades {
      var t := closed.trades[|s.trades|];
      assert closed.trades == s.trades + [t];
      assert Pnls(closed.trades) == Pnls(s.trades) + [t.pnl];
      SumAppend(Pnls(s.trades), [t.pnl]);
      assert Sum([t.pnl]) == t.pnl by {
        assert [t.pnl][..0] == [];
      }
    }
  }

  /**
   * What one bar does: at most one trade closes, and its record carries
   * the position's entry and the R multiple against the risk amount fixed
   * at entry; a position opens only when none is open after the exit check,
   * at the bar's close; an open position without an exit is kept as is.
   */
  lemma BarEffects(s: BtState, bar: Bar, signal: Signal, p: BacktestParams)
    requires p.Valid() && (signal.direction != 0 ==> signal.atrValue.Val?)
    ensures var s2 := BarStep(s, bar, signal, p); var closed := CloseStep(s, bar, p);
      && s2.equity == s.equity + [s2.balance]
      && s2.balance == closed.balance
      && s2.trades == closed.trades
      && (closed.trades == s.trades ==> closed.balance == s.balance)
      && (closed.trades != s.trades ==>
            s.position.Some? && ExitPrice(s.position.value, bar).Some?
            && closed.position.None?
            && |closed.trades| == |s.trades| + 1
            && var t := closed.trades[|s.trades|];
               t.entryTime == s.position.value.time && t.exit == ExitPrice(s.position.value, bar).value
               && t.rMultiple == RMultiple(t.pnl, s.position.value.riskAmount)
               && closed.balance == s.balance + t.pnl)
      && (s2.position != closed.position ==>
            closed.position.None? && s2.position.Some?
            && s2.position.value.time == bar.time && s2.position.value.entry == bar.close
            && s2.position.value.lots >= 0.0)
      && (s.position.Some? && ExitPrice(s.position.value, bar).None? ==> s2.position == s.position)
  {
  }

  /** The run up to bar n reads the signals and bars before n only. */
  lemma {:induction false} RunReadsPrefix(bars: seq<Bar>, signals: seq<Signal>, bars2: seq<Bar>, signals2: seq<Signal>,
                                          initialBalance: real, p: BacktestParams, n: nat)
    requires p.Valid() && n <= |bars| == |signals| && n <= |bars2| == |signals2|
    requires SignalsDefined(signals) && SignalsDefined(signals2)
    requires bars[..n] == bars2[..n] && signals[..n] == signals2[..n]
    ensures Run(bars, signals, initialBalance, p, n) == Run(bars2, signals2, initialBalance, p, n)
  {
    if n > p.strategy.Warmup() {
      assert bars[..n - 1] == bars2[..n - 1] && signals[..n - 1] == signals2[..n - 1];
      RunReadsPrefix(bars, signals, bars2, signals2, initialBalance, p, n - 1);
      assert bars[n - 1] == bars[..n][n - 1] && bars2[n - 1] == bars2[..n][n - 1];
      assert signals[n - 1] == signals[..n][n - 1] && signals2[n - 1] == signals2[..n][n - 1];
    }
  }

  /**
   * No look-ahead: the backtest state after the first n bars is the same
   * for any two histories that agree on those bars, whatever follows.
   */
  lemma NoLookAhead(bars: seq<Bar>, bars2: seq<Bar>, initialBalance: real, p: BacktestParams, n: nat)
    requires p.Valid() && n <= |bars| && n <= |bars2| && bars[..n] == bars2[..n]
    ensures Run(bars, Signals(bars, p.strategy), initialBalance, p, n)
            == Run(bars2, Signals(bars2, p.strategy), initialBalance, p, n)
  {
    var signals := Signals(bars, p.strategy);
    var signals2 := Signals(bars2, p.strategy);
    forall i | 0 <= i < n
      ensures signals[i] == signals2[i]
    {
      SignalsAt(bars, p.strategy, i);
      SignalsAt(bars2, p.strategy, i);
      assert bars[..i + 1] == bars[..n][..i + 1] == bars2[..n][..i + 1] == bars2[..i + 1];
    }
    assert signals[..n] == signals2[..n];
    RunReadsPrefix(bars, signals, bars2, signals2, initialBalance, p, n);
  }

  /** compute_signal on the rows up to and including idx. */
  method SignalAt(bars: seq<Bar>, idx: nat, strategy: Params) returns (signal: Signal)
    requires strategy.Valid() && idx < |bars|
    ensures signal == Signals(bars, strategy)[idx]
    ensures signal.direction != 0 ==> signal.atrValue.Val?
  {
    signal := ComputeSignal(bars[..idx + 1], strategy);
    SignalsAt(bars, strategy, idx);
  }

  /**
   * The exit check of one loop iteration: a position that reaches its stop
   * or target is closed, its P&L booked and its record appended.
   */
  method CloseAtBar(balance: real, position: Option<Position>, trades: seq<TradeRecord>, bar: Bar, p: BacktestParams)
    returns (balance': real, position': Option<Position>, trades': seq<TradeRecord>)
    requires p.Valid()
    ensures forall equity: seq<real> {:trigger BtState(balance, position, equity, trades)} ::
      BtState(balance', position', equity, trades') == CloseStep(BtState(balance, position, equity, trades), bar, p)
  {
    balance', position', trades' := balance, position, trades;
    if position.Some? {
      var pos := position.value;
      var exit := ExitPrice(pos, bar);
      if exit.Some? {
        var pnl := PnlValue(pos, exit.value, p);
        balance' := balance + pnl;
        trades' := trades + [TradeRecord(pos.time, bar.time, pos.direction, pos.entry, exit.value, pos.lots, pnl,
                                         RMultiple(pnl, pos.riskAmount))];
        position' := None;
      }
    }
  }

  /**
   * The entry of one loop iteration without an open position: a signal with
   * a direction and a positive stop distance opens a position at the close.
   */
  method OpenAtBar(balance: real, bar: Bar, signal: Signal, p: BacktestParams) returns (position: Option<Position>)
    requires p.Valid() && (signal.direction != 0 ==> signal.atrValue.Val?)
    ensures position == if signal.direction == 0 then None else Entry(signal, bar, balance, p)
  {
    position := None;
    if signal.direction != 0 {
      var entry := bar.close;
      var slDistance := p.slAtrMult * signal.atrValue.value;
      // A non-positive stop distance skips the entry; the bar still gets its equity value.
      if slDistance > 0.0 {
        var buy := signal.direction == 1;
        var sl := if buy then entry - slDistance else entry + slDistance;
        var tp := Target(buy, entry, slDistance, p);
        var riskAmount := RiskAmount(balance, p);
        var lots := SizedLots(riskAmount, slDistance, p);
        position := Some(Position(bar.time, signal.direction, entry, sl, tp, Max(lots, 0.0), riskAmount));
        ghost var e := Entry(signal, bar, balance, p).value;
        assert e.sl == sl && e.tp == tp && e.lots == Max(lots, 0.0);
      }
    }
  }

  /**
   * run_backtest: returns the equity curve (its index is the times of the
   * bars from the warm-up on) and the ledger.
   */
  method RunBacktest(bars: seq<Bar>, initialBalance: real, p: BacktestParams) returns (equity: seq<real>, trades: seq<TradeRecord>)
    requires p.Valid()
    ensures var s := Run(bars, Signals(bars, p.strategy), initialBalance, p, |bars|);
            equity == s.equity && trades == s.trades
  {
    var balance := initialBalance;
    var position: Option<Position> := None;
    equity := [];
    trades := [];
    var warm := p.strategy.Warmup();
    ghost var signals := Signals(bars, p.strategy);
    if |bars| <= warm {
      return;
    }
    var idx := warm;
    while idx < |bars|
      invariant warm <= idx <= |bars|
      invariant BtState(balance, position, equity, trades) == Run(bars, signals, initialBalance, p, idx)
    {
      var bar := bars[idx];
      ghost var before := BtState(balance, position, equity, trades);
      RunStep(bars, signals, initialBalance, p, idx);
      balance, position, trades := CloseAtBar(balance, position, trades, bar, p);
      assert BtState(balance, position, equity, trades) == CloseStep(before, bar, p);
      if position.None? {
        var signal := SignalAt(bars, idx, p.strategy);
        position := OpenAtBar(balance, bar, signal, p);
      }
      equity := equity + [balance];
      idx := idx + 1;
    }
  }
}
