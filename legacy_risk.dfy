// The legacy pip-based risk manager (src/risk_manager.py): position sizing
// from an equity risk percentage, stop-loss and take-profit levels, the
// risk:reward ratio, position validation, pip values and the trade
// statistics kept on the manager object.

module LegacyRisk {
  import opened Common

  datatype OrderType = Buy | Sell

  /** PositionSizing: the complete plan of one position. */
  datatype PositionSizing = PositionSizing(
    positionSize: real,
    riskAmount: real,
    stopLossPips: real,
    entryPrice: real,
    stopLossPrice: real,
    takeProfitPrice: real,
    riskRewardRatio: real,
    potentialProfit: real)

  /** The ZeroDivisionError of a zero pip value. */
  datatype SizingError = ZeroPipValue

  /** The failures validate_position reports, in the order it checks them. */
  datatype ValidationError = SizeBelowMin | SizeAboveMax | RatioBelowMin | StopAtEntry | TargetAtEntry
  {
    function Rank(): nat
    {
      match this
      case SizeBelowMin => 0
      case SizeAboveMax => 1
      case RatioBelowMin => 2
      case StopAtEntry => 3
      case TargetAtEntry => 4
    }
  }

  /** The trade counters: winning is a real because a break-even trade counts one half. */
  datatype Counters = Counters(trades: nat, winning: real, losing: nat, totalProfit: real)

  const ZeroCounters := Counters(0, 0.0, 0, 0.0)

  /** get_statistics; winning is truncated to an integer. */
  datatype Statistics = Statistics(
    totalTrades: nat,
    winningTrades: int,
    losingTrades: nat,
    winRate: real,
    totalProfit: real,
    currentEquity: real,
    accountBalance: real,
    totalReturn: real)

  /** The money at risk: pct percent of the equity. */
  function RiskAmount(equity: real, pct: real): real
  {
    equity * pct / 100.0
  }

  /** What reaching the target earns: the size times the target distance in pips times the pip value. */
  function PotentialProfit(size: real, takeProfitPips: real, pipValue: real): real
  {
    size * takeProfitPips * pipValue
  }

  /** The distance between entry and stop in pips, a pip being pipValue / 100 in price. */
  function StopLossPips(entry: real, stopLoss: real, pipValue: real): real
    requires pipValue != 0.0
  {
    Abs(entry - stopLoss) / (pipValue / 100.0)
  }

  /** The size before clamping and rounding: the risk amount over the stop's cost per lot. */
  function RawSize(equity: real, pct: real, entry: real, stopLoss: real, pipValue: real): real
    requires pipValue != 0.0 && entry != stopLoss
  {
    assert StopLossPips(entry, stopLoss, pipValue) * pipValue == 100.0 * Abs(entry - stopLoss) by {
      PipsTimesPipValue(entry, stopLoss, pipValue);
    }
    RiskAmount(equity, pct) / (StopLossPips(entry, stopLoss, pipValue) * pipValue)
  }

  /** The stop distance in pips times the pip value is one hundred times the price distance. */
  lemma PipsTimesPipValue(entry: real, stopLoss: real, pipValue: real)
    requires pipValue != 0.0
    ensures StopLossPips(entry, stopLoss, pipValue) * pipValue == 100.0 * Abs(entry - stopLoss)
  {
    var q := pipValue / 100.0;
    var d := Abs(entry - stopLoss);
    assert q * 100.0 == pipValue;
    assert (d / q) * q == d;
    calc {
      (d / q) * pipValue;
      (d / q) * (q * 100.0);
      ((d / q) * q) * 100.0;
      100.0 * d;
    }
  }

  /**
   * calculate_position_size: the minimum size, unrounded, when entry and
   * stop coincide; otherwise the raw size clamped to [minSize, maxSize]
   * and rounded to two decimals.
   */
  function PositionSize(equity: real, pct: real, minSize: real, maxSize: real,
                        entry: real, stopLoss: real, pipValue: real): (r: Result<real, SizingError>)
    ensures entry == stopLoss ==> r == Ok(minSize)
    ensures r.Err? <==> entry != stopLoss && pipValue == 0.0
    ensures r.Ok? && entry != stopLoss && minSize <= maxSize ==>
      minSize - 0.005 <= r.value <= maxSize + 0.005
    ensures r.Ok? && entry != stopLoss ==>
      Abs(r.value - Max(minSize, Min(RawSize(equity, pct, entry, stopLoss, pipValue), maxSize))) <= 0.005
    ensures r.Ok? && entry != stopLoss ==> RoundTo(r.value, 2) == r.value
  {
    if entry == stopLoss then Ok(minSize)
    else if pipValue == 0.0 then Err(ZeroPipValue)
    else
      var clamped := Max(minSize, Min(RawSize(equity, pct, entry, stopLoss, pipValue), maxSize));
      var r := RoundTo(clamped, 2);
      assert Abs(r - clamped) <= 0.5 / 100.0 by {
        assert Pow10(2) == 100.0;
      }
      RoundToIdempotent(clamped, 2);
      Ok(r)
  }

  /**
   * The unclamped size loses exactly the risk amount at the stop, and the
   * pip value cancels out: the size depends on the price distance only.
   */
  lemma RawSizeRisksBudget(equity: real, pct: real, entry: real, stopLoss: real, pipValue: real, otherPipValue: real)
    requires pipValue != 0.0 && otherPipValue != 0.0 && entry != stopLoss
    ensures RawSize(equity, pct, entry, stopLoss, pipValue) * (StopLossPips(entry, stopLoss, pipValue) * pipValue)
            == RiskAmount(equity, pct)
    ensures RawSize(equity, pct, entry, stopLoss, pipValue) == RawSize(equity, pct, entry, stopLoss, otherPipValue)
  {
    PipsTimesPipValue(entry, stopLoss, pipValue);
    PipsTimesPipValue(entry, stopLoss, otherPipValue);
  }

  /** A distance of pips pips in price. */
  function PipDistance(pips: real, pipValue: real): real
  {
    pips * pipValue / 100.0
  }

  /** calculate_stop_loss_level: below the entry for a buy, above it for a sell, to five decimals. */
  function StopLossLevel(entry: real, orderType: OrderType, pips: real, pipValue: real): (r: real)
    ensures orderType == Buy ==> Abs(r - (entry - PipDistance(pips, pipValue))) <= 0.000005
    ensures orderType != Buy ==> Abs(r - (entry + PipDistance(pips, pipValue))) <= 0.000005
  {
    assert Pow10(5) == 100000.0;
    var d := PipDistance(pips, pipValue);
    RoundTo(if orderType == Buy then entry - d else entry + d, 5)
  }

  /** calculate_take_profit_level: above the entry for a buy, below it for a sell, to five decimals. */
  function TakeProfitLevel(entry: real, orderType: OrderType, pips: real, pipValue: real): (r: real)
    ensures orderType == Buy ==> Abs(r - (entry + PipDistance(pips, pipValue))) <= 0.000005
    ensures orderType != Buy ==> Abs(r - (entry - PipDistance(pips, pipValue))) <= 0.000005
  {
    assert Pow10(5) == 100000.0;
    var d := PipDistance(pips, pipValue);
    RoundTo(if orderType == Buy then entry + d else entry - d, 5)
  }

  /**
   * A buy's stop sits where a sell's target does at the same distance and
   * vice versa, each within half a unit of the fifth decimal of the exact
   * level.
   */
  lemma LevelsMirror(entry: real, pips: real, pipValue: real)
    ensures StopLossLevel(entry, Buy, pips, pipValue) == TakeProfitLevel(entry, Sell, pips, pipValue)
    ensures StopLossLevel(entry, Sell, pips, pipValue) == TakeProfitLevel(entry, Buy, pips, pipValue)
    ensures Abs(StopLossLevel(entry, Buy, pips, pipValue) - (entry - PipDistance(pips, pipValue))) <= 0.000005
    ensures Abs(StopLossLevel(entry, Sell, pips, pipValue) - (entry + PipDistance(pips, pipValue))) <= 0.000005
  {
    assert Pow10(5) == 100000.0;
  }

  /** calculate_risk_reward_ratio: zero for a zero stop, else the pips ratio to two decimals. */
  function RiskRewardRatio(stopLossPips: real, takeProfitPips: real): (r: real)
    ensures stopLossPips == 0.0 ==> r == 0.0
    ensures stopLossPips != 0.0 ==> Abs(r - takeProfitPips / stopLossPips) <= 0.005
  {
    if stopLossPips == 0.0 then 0.0
    else
      assert Pow10(2) == 100.0;
      RoundTo(takeProfitPips / stopLossPips, 2)
  }

  /** Equal non-zero stop and target distances give a ratio of exactly one. */
  lemma EvenRiskReward(pips: real)
    requires pips != 0.0
    ensures RiskRewardRatio(pips, pips) == 1.0
  {
    assert pips / pips == 1 as real;
    RoundToIntegral(1, 2);
  }

  /** Rounding to cents moves an amount by at most half a cent. */
  lemma CentsError(x: real)
    ensures Abs(RoundTo(x, 2) - x) <= 0.005
  {
    assert Pow10(2) == 100.0;
  }

  /**
   * calculate_complete_position: levels first, then the size against the
   * rounded stop, and the risk amount, potential profit and ratio.
   */
  function CompletePosition(equity: real, pct: real, minSize: real, maxSize: real, entry: real,
                            stopLossPips: real, takeProfitPips: real, orderType: OrderType,
                            pipValue: real): (r: Result<PositionSizing, SizingError>)
    ensures var sl := StopLossLevel(entry, orderType, stopLossPips, pipValue);
      && (r.Err? <==> sl != entry && pipValue == 0.0)
      && (r.Ok? ==>
            && r.value.positionSize == PositionSize(equity, pct, minSize, maxSize, entry, sl, pipValue).value
            && r.value.stopLossPrice == sl
            && r.value.takeProfitPrice == TakeProfitLevel(entry, orderType, takeProfitPips, pipValue)
            && r.value.riskRewardRatio == RiskRewardRatio(stopLossPips, takeProfitPips)
            && r.value.entryPrice == entry && r.value.stopLossPips == stopLossPips)
    ensures r.Ok? ==>
      && r.value.riskAmount == RoundTo(RiskAmount(equity, pct), 2)
      && Abs(r.value.riskAmount - equity * pct / 100.0) <= 0.005
      && r.value.potentialProfit == RoundTo(PotentialProfit(r.value.positionSize, takeProfitPips, pipValue), 2)
      && Abs(r.value.potentialProfit - PotentialProfit(r.value.positionSize, takeProfitPips, pipValue)) <= 0.005
  {
    var sl := StopLossLevel(entry, orderType, stopLossPips, pipValue);
    var tp := TakeProfitLevel(entry, orderType, takeProfitPips, pipValue);
    match PositionSize(equity, pct, minSize, maxSize, entry, sl, pipValue)
    case Err(e) => Err(e)
    case Ok(size) =>
      var risk := RiskAmount(equity, pct);
      var potential := PotentialProfit(size, takeProfitPips, pipValue);
      var ratio := RiskRewardRatio(stopLossPips, takeProfitPips);
      CentsError(risk);
      CentsError(potential);
      RoundToIdempotent(if orderType == Buy then entry - PipDistance(stopLossPips, pipValue)
                        else entry + PipDistance(stopLossPips, pipValue), 5);
      RoundToIdempotent(if orderType == Buy then entry + PipDistance(takeProfitPips, pipValue)
                        else entry - PipDistance(takeProfitPips, pipValue), 5);
      Ok(PositionSizing(size, RoundTo(risk, 2), stopLossPips, entry, RoundTo(sl, 5), RoundTo(tp, 5),
                        ratio, RoundTo(potential, 2)))
  }

  /** One check of validate_position: its error when it failed, nothing otherwise. */
  function Check(failed: bool, e: ValidationError): (r: seq<ValidationError>)
    ensures |r| <= 1 && (forall x :: x in r <==> failed && x == e)
  {
    if failed then [e] else []
  }

  /** Whether the check that reports e fails for the position. */
  predicate Fails(p: PositionSizing, minSize: real, maxSize: real, minRr: real, e: ValidationError)
  {
    match e
    case SizeBelowMin => p.positionSize < minSize
    case SizeAboveMax => p.positionSize > maxSize
    case RatioBelowMin => p.riskRewardRatio < minRr
    case StopAtEntry => p.entryPrice == p.stopLossPrice
    case TargetAtEntry => p.entryPrice == p.takeProfitPrice
  }

  /** The errors appear in the order their checks run, none twice. */
  predicate Ascending(errors: seq<ValidationError>)
  {
    forall i :: 0 < i < |errors| ==> errors[i - 1].Rank() < errors[i].Rank()
  }

  /** The errors are exactly those of the failing checks ranked below k, in order. */
  predicate ReportsBelow(errors: seq<ValidationError>, p: PositionSizing, minSize: real, maxSize: real, minRr: real, k: nat)
  {
    && Ascending(errors)
    && forall x :: x in errors <==> Fails(p, minSize, maxSize, minRr, x) && x.Rank() < k
  }

  lemma AppendCheck(errors: seq<ValidationError>, p: PositionSizing, minSize: real, maxSize: real, minRr: real, e: ValidationError)
    requires ReportsBelow(errors, p, minSize, maxSize, minRr, e.Rank())
    ensures ReportsBelow(errors + Check(Fails(p, minSize, maxSize, minRr, e), e), p, minSize, maxSize, minRr, e.Rank() + 1)
  {
    var r := errors + Check(Fails(p, minSize, maxSize, minRr, e), e);
    forall i | 0 < i < |r|
      ensures r[i - 1].Rank() < r[i].Rank()
    {
      if i == |errors| {
        assert r[i - 1] in errors;
      }
    }
    forall x
      ensures x in r <==> Fails(p, minSize, maxSize, minRr, x) && x.Rank() < e.Rank() + 1
    {
      if x.Rank() == e.Rank() {
        assert x == e;
      }
    }
  }

  /** The failures of validate_position, in the order they are checked. */
  function ValidationErrors(p: PositionSizing, minSize: real, maxSize: real, minRr: real): (errors: seq<ValidationError>)
    ensures forall e :: e in errors <==> Fails(p, minSize, maxSize, minRr, e)
    ensures Ascending(errors)
  {
    var e0: seq<ValidationError> := [];
    var e1 := e0 + Check(Fails(p, minSize, maxSize, minRr, SizeBelowMin), SizeBelowMin);
    AppendCheck(e0, p, minSize, maxSize, minRr, SizeBelowMin);
    var e2 := e1 + Check(Fails(p, minSize, maxSize, minRr, SizeAboveMax), SizeAboveMax);
    AppendCheck(e1, p, minSize, maxSize, minRr, SizeAboveMax);
    var e3 := e2 + Check(Fails(p, minSize, maxSize, minRr, RatioBelowMin), RatioBelowMin);
    AppendCheck(e2, p, minSize, maxSize, minRr, RatioBelowMin);
    var e4 := e3 + Check(Fails(p, minSize, maxSize, minRr, StopAtEntry), StopAtEntry);
    AppendCheck(e3, p, minSize, maxSize, minRr, StopAtEntry);
    var e5 := e4 + Check(Fails(p, minSize, maxSize, minRr, TargetAtEntry), TargetAtEntry);
    AppendCheck(e4, p, minSize, maxSize, minRr, TargetAtEntry);
    assert forall e: ValidationError :: e.Rank() < 5;
    e5
  }

  /** validate_position: valid exactly when nothing failed; the failures are returned in order. */
  function ValidatePosition(p: PositionSizing, minSize: real, maxSize: real, minRr: real): (r: (bool, seq<ValidationError>))
    ensures r.0 <==> (minSize <= p.positionSize <= maxSize && p.riskRewardRatio >= minRr
                      && p.entryPrice != p.stopLossPrice && p.entryPrice != p.takeProfitPrice)
    ensures r.0 <==> |r.1| == 0
  {
    var errors := ValidationErrors(p, minSize, maxSize, minRr);
    assert |errors| == 0 <==> (minSize <= p.positionSize <= maxSize && p.riskRewardRatio >= minRr
                               && p.entryPrice != p.stopLossPrice && p.entryPrice != p.takeProfitPrice) by {
      if |errors| > 0 {
        assert errors[0] in errors;
      }
    }
    (|errors| == 0, errors)
  }

  /** calculate_max_position_by_equity: pct percent of the equity times the leverage, to two decimals. */
  function MaxPositionByEquity(equity: real, pct: real, leverage: int): (r: real)
    ensures Abs(r - equity * pct / 100.0 * (leverage as real)) <= 0.005
  {
    assert Pow10(2) == 100.0;
    RoundTo(equity * pct / 100.0 * (leverage as real), 2)
  }

  /** The allowance is never negative for a non-negative equity, percentage and leverage. */
  lemma MaxPositionNonNegative(equity: real, pct: real, leverage: int)
    requires equity >= 0.0 && pct >= 0.0 && leverage >= 0
    ensures MaxPositionByEquity(equity, pct, leverage) >= 0.0
  {
    assert equity * pct >= 0.0;
    assert (equity * pct / 100.0) * (leverage as real) >= 0.0;
    RoundToNonNegative(equity * pct / 100.0 * (leverage as real), 2);
  }

  predicate EndsWith(s: string, suffix: string)
  {
    |suffix| <= |s| && s[|s| - |suffix|..] == suffix
  }

  /** calculate_pip_value: 0.01 for a yen-quoted pair, 0.0001 for every other pair. */
  function PipValue(pair: string): (r: real)
    ensures r == 0.01 <==> EndsWith(pair, "JPY")
    ensures r == 0.01 || r == 0.0001
  {
    if EndsWith(pair, "USD") then
      assert pair[|pair| - 3..][2] == pair[|pair| - 1] == 'D';
      0.0001
    else if EndsWith(pair, "JPY") then 0.01
    else 0.0001
  }

  /** record_trade_result on the counters: one more trade, a win or half a win, and the losing count kept as is. */
  function RecordResult(c: Counters, pnl: real): (r: Counters)
    ensures r.trades == c.trades + 1 && r.totalProfit == c.totalProfit + pnl && r.losing == c.losing
    ensures r.winning - c.winning == 1.0 <==> pnl > 0.0
    ensures r.winning - c.winning == 0.5 <==> pnl == 0.0
    ensures r.winning == c.winning <==> pnl < 0.0
  {
    Counters(c.trades + 1,
             c.winning + (if pnl > 0.0 then 1.0 else if pnl < 0.0 then 0.0 else 0.5),
             c.losing,
             c.totalProfit + pnl)
  }

  /** The counters after recording a sequence of results from zero. */
  function Tally(pnls: seq<real>): Counters
  {
    if |pnls| == 0 then ZeroCounters else RecordResult(Tally(pnls[..|pnls| - 1]), pnls[|pnls| - 1])
  }

  /** The number of results above zero and the number equal to zero. */
  function Positives(pnls: seq<real>): (n: nat)
    ensures n <= |pnls|
  {
    if |pnls| == 0 then 0 else Positives(pnls[..|pnls| - 1]) + (if pnls[|pnls| - 1] > 0.0 then 1 else 0)
  }

  function Evens(pnls: seq<real>): (n: nat)
    ensures n <= |pnls|
  {
    if |pnls| == 0 then 0 else Evens(pnls[..|pnls| - 1]) + (if pnls[|pnls| - 1] == 0.0 then 1 else 0)
  }

  function Negatives(pnls: seq<real>): (n: nat)
    ensures n <= |pnls|
  {
    if |pnls| == 0 then 0 else Negatives(pnls[..|pnls| - 1]) + (if pnls[|pnls| - 1] < 0.0 then 1 else 0)
  }

  /**
   * As written, the counters after any run of results: the trade count and
   * total profit are exact, winning counts wins plus half the break-even
   * trades, and losing stays zero however many trades lost.
   */
  lemma {:induction false} TallyCounts(pnls: seq<real>)
    ensures Tally(pnls).trades == |pnls|
    ensures Tally(pnls).totalProfit == Sum(pnls)
    ensures Tally(pnls).winning == Positives(pnls) as real + 0.5 * Evens(pnls) as real
    ensures Tally(pnls).losing == 0
    ensures 0.0 <= Tally(pnls).winning <= |pnls| as real
  {
    if |pnls| > 0 {
      var front := pnls[..|pnls| - 1];
      TallyCounts(front);
      PositivesEvensBound(pnls);
    }
  }

  lemma {:induction false} PositivesEvensBound(pnls: seq<real>)
    ensures Positives(pnls) + Evens(pnls) + Negatives(pnls) == |pnls|
  {
    if |pnls| > 0 {
      PositivesEvensBound(pnls[..|pnls| - 1]);
    }
  }

  /** A losing result leaves the losing count where it was. */
  lemma LossNotCounted(c: Counters, pnl: real)
    requires pnl < 0.0
    ensures RecordResult(c, pnl).losing == c.losing
    ensures RecordResult(c, pnl).winning == c.winning
  {
  }

  /** record_trade_result with the losing count incremented, as the losing_trades counter is evidently meant to work. */
  function RecordResultCounted(c: Counters, pnl: real): (r: Counters)
    ensures r.trades == c.trades + 1 && r.totalProfit == c.totalProfit + pnl
    ensures r.losing == c.losing + 1 <==> pnl < 0.0
    ensures r.winning - c.winning == 1.0 <==> pnl > 0.0
    ensures r.winning - c.winning == 0.5 <==> pnl == 0.0
    ensures r.winning + r.losing as real - (c.winning + c.losing as real) <= 1.0
  {
    Counters(c.trades + 1,
             c.winning + (if pnl > 0.0 then 1.0 else if pnl < 0.0 then 0.0 else 0.5),
             c.losing + (if pnl < 0.0 then 1 else 0),
             c.totalProfit + pnl)
  }

  function TallyCounted(pnls: seq<real>): Counters
  {
    if |pnls| == 0 then ZeroCounters else RecordResultCounted(TallyCounted(pnls[..|pnls| - 1]), pnls[|pnls| - 1])
  }

  /**
   * With the losing count incremented, every trade is accounted for: the
   * losing count is the number of losing results and wins, half the
   * break-even trades and losses together never exceed the trade count.
   */
  lemma {:induction false} TallyCountedCounts(pnls: seq<real>)
    ensures TallyCounted(pnls).trades == |pnls|
    ensures TallyCounted(pnls).losing == Negatives(pnls)
    ensures TallyCounted(pnls).winning == Positives(pnls) as real + 0.5 * Evens(pnls) as real
    ensures TallyCounted(pnls).winning + TallyCounted(pnls).losing as real <= |pnls| as real
  {
    if |pnls| > 0 {
      TallyCountedCounts(pnls[..|pnls| - 1]);
      PositivesEvensBound(pnls);
    }
  }

  /** get_win_rate: the winning share of the trades in percent, zero before any trade. */
  function WinRate(c: Counters): (r: real)
    ensures c.trades == 0 ==> r == 0.0
    ensures c.trades > 0 ==> r * (c.trades as real) == 100.0 * c.winning
  {
    if c.trades == 0 then 0.0 else c.winning / c.trades as real * 100.0
  }

  /** The win rate is a percentage whenever the winning count is at most the trade count. */
  lemma WinRateBounds(c: Counters)
    requires 0.0 <= c.winning <= c.trades as real
    ensures 0.0 <= WinRate(c) <= 100.0
  {
    if c.trades > 0 {
      assert 0.0 <= c.winning / (c.trades as real);
      assert c.winning / (c.trades as real) <= (c.trades as real) / (c.trades as real) by { assert (c.trades as real) / (c.trades as real) - c.winning / (c.trades as real) == ((c.trades as real) - c.winning) / (c.trades as real); }
    }
  }

  /** Python's int() on a number: truncation toward zero. */
  function Truncate(x: real): (r: int)
    ensures Abs(r as real) <= Abs(x) < Abs(r as real) + 1.0
    ensures r as real * x >= 0.0
  {
    if x >= 0.0 then x.Floor else -((-x).Floor)
  }

  /** The ZeroDivisionError of a zero account balance in the total return. */
  datatype StatisticsError = ZeroAccountBalance

  /** The total profit as a percentage of the account balance. */
  function TotalReturn(profit: real, balance: real): (r: real)
    requires balance != 0.0
    ensures r * balance == 100.0 * profit
  {
    profit / balance * 100.0
  }

  /** get_statistics; the total return divides by the account balance and fails when it is zero. */
  function GetStatistics(c: Counters, currentEquity: real, accountBalance: real): (r: Result<Statistics, StatisticsError>)
    ensures r.Err? <==> accountBalance == 0.0
    ensures r.Ok? ==>
      && r.value.totalTrades == c.trades && r.value.losingTrades == c.losing
      && (0.0 <= c.winning <= c.trades as real ==> 0 <= r.value.winningTrades <= c.trades)
      && Abs(r.value.winRate - WinRate(c)) <= 0.005
      && Abs(r.value.totalProfit - c.totalProfit) <= 0.005
      && Abs(r.value.totalReturn - TotalReturn(c.totalProfit, accountBalance)) <= 0.005
  {
    if accountBalance == 0.0 then Err(ZeroAccountBalance)
    else
      assert Pow10(2) == 100.0;
      Ok(Statistics(c.trades, Truncate(c.winning), c.losing, RoundTo(WinRate(c), 2), RoundTo(c.totalProfit, 2),
                    RoundTo(currentEquity, 2), RoundTo(accountBalance, 2),
                    RoundTo(TotalReturn(c.totalProfit, accountBalance), 2)))
  }

  /** The manager object: its settings, the equity it sizes against and the trade counters. */
  class RiskManager {
    const accountBalance: real
    const riskPercentage: real
    const maxPositionSize: real
    const minPositionSize: real
    const leverage: int
    var currentEquity: real
    var tradesCount: nat
    var winningTrades: real
    var losingTrades: nat
    var totalProfit: real

    function Stats(): Counters
      reads this
    {
      Counters(tradesCount, winningTrades, losingTrades, totalProfit)
    }

    /** Wins, half the break-even trades and losses together never exceed the number of trades. */
    predicate Valid()
      reads this
    {
      0.0 <= winningTrades && winningTrades + losingTrades as real <= tradesCount as real
    }

    constructor (accountBalance: real, riskPercentage: real, maxPositionSize: real, minPositionSize: real, leverage: int)
      ensures this.accountBalance == accountBalance && this.riskPercentage == riskPercentage
      ensures this.maxPositionSize == maxPositionSize && this.minPositionSize == minPositionSize
      ensures this.leverage == leverage
      ensures currentEquity == accountBalance && Stats() == ZeroCounters && Valid()
    {
      this.accountBalance := accountBalance;
      this.riskPercentage := riskPercentage;
      this.maxPositionSize := maxPositionSize;
      this.minPositionSize := minPositionSize;
      this.leverage := leverage;
      currentEquity := accountBalance;
      tradesCount := 0;
      winningTrades := 0.0;
      losingTrades := 0;
      totalProfit := 0.0;
    }

    method UpdateEquity(equity: real)
      modifies this
      ensures currentEquity == equity && Stats() == old(Stats())
    {
      currentEquity := equity;
    }

    method RecordTradeResult(pnl: real)
      requires Valid()
      modifies this
      ensures Stats() == RecordResultCounted(old(Stats()), pnl) && currentEquity == old(currentEquity)
      ensures Valid()
    {
      tradesCount := tradesCount + 1;
      totalProfit := totalProfit + pnl;
      if pnl > 0.0 {
        winningTrades := winningTrades + 1.0;
      } else if pnl < 0.0 {
        losingTrades := losingTrades + 1;
      } else {
        winningTrades := winningTrades + 0.5;
      }
    }

    method ResetStatistics()
      modifies this
      ensures Stats() == ZeroCounters && currentEquity == old(currentEquity) && Valid()
    {
      tradesCount := 0;
      winningTrades := 0.0;
      losingTrades := 0;
      totalProfit := 0.0;
    }

    function CalculatePositionSize(entry: real, stopLoss: real, pipValue: real): (r: Result<real, SizingError>)
      reads this
      ensures entry == stopLoss ==> r == Ok(minPositionSize)
      ensures r.Err? <==> entry != stopLoss && pipValue == 0.0
      ensures r.Ok? && entry != stopLoss ==>
        Abs(r.value - Max(minPositionSize, Min(RawSize(currentEquity, riskPercentage, entry, stopLoss, pipValue), maxPositionSize))) <= 0.005
    {
      PositionSize(currentEquity, riskPercentage, minPositionSize, maxPositionSize, entry, stopLoss, pipValue)
    }

    function CalculateCompletePosition(entry: real, stopLossPips: real, takeProfitPips: real,
                                       orderType: OrderType, pipValue: real): (r: Result<PositionSizing, SizingError>)
      reads this
      ensures r.Err? <==> StopLossLevel(entry, orderType, stopLossPips, pipValue) != entry && pipValue == 0.0
      ensures r.Ok? ==>
        && r.value.stopLossPrice == StopLossLevel(entry, orderType, stopLossPips, pipValue)
        && r.value.takeProfitPrice == TakeProfitLevel(entry, orderType, takeProfitPips, pipValue)
        && r.value.riskRewardRatio == RiskRewardRatio(stopLossPips, takeProfitPips)
      ensures r.Ok? ==>
        && r.value.positionSize
           == PositionSize(currentEquity, riskPercentage, minPositionSize, maxPositionSize, entry,
                           StopLossLevel(entry, orderType, stopLossPips, pipValue), pipValue).value
        && Abs(r.value.riskAmount - currentEquity * riskPercentage / 100.0) <= 0.005
        && Abs(r.value.potentialProfit - PotentialProfit(r.value.positionSize, takeProfitPips, pipValue)) <= 0.005
    {
      CompletePosition(currentEquity, riskPercentage, minPositionSize, maxPositionSize, entry,
                       stopLossPips, takeProfitPips, orderType, pipValue)
    }

    function Validate(p: PositionSizing, minRr: real): (bool, seq<ValidationError>)
      reads this
    {
      ValidatePosition(p, minPositionSize, maxPositionSize, minRr)
    }

    function CalculateMaxPositionByEquity(pct: real): (r: real)
      reads this
      ensures Abs(r - currentEquity * pct / 100.0 * (leverage as real)) <= 0.005
    {
      MaxPositionByEquity(currentEquity, pct, leverage)
    }

    function GetWinRate(): (r: real)
      reads this
      ensures Valid() ==> 0.0 <= r <= 100.0
    {
      if Valid() then
        WinRateBounds(Stats());
        WinRate(Stats())
      else WinRate(Stats())
    }

    function Statistics(): Result<Statistics, StatisticsError>
      reads this
    {
      GetStatistics(Stats(), currentEquity, accountBalance)
    }
  }
}
