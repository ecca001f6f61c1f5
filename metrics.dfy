// Backtest summary metrics (mt5-ai-bot/src/backtest/metrics.py): maximum
// drawdown of the equity curve, profit factor, win rate and average R
// multiple of the ledger, all zero when the curve has no returns.

module Metrics {
  import opened Common
  import opened Engine

  /** A quotient that is infinite when its divisor is zero. */
  datatype Ratio = Finite(value: real) | Infinite

  /** The modelled part of BacktestMetrics; None stands for a non-finite value. */
  datatype Metrics = Metrics(maxDrawdown: Option<real>, profitFactor: Ratio, winRate: real, avgRMultiple: Option<real>)

  /** Why compute_metrics can fail. */
  datatype MetricsError = MissingPnlColumn

  const AllZero := Metrics(Some(0.0), Finite(0.0), 0.0, Some(0.0))

  /**
   * The number of values pct_change().dropna() keeps: one per step of the
   * curve except the 0/0 steps, whose NaN is dropped (a step from zero to
   * a non-zero value is infinite and kept).
   */
  function ReturnCount(e: seq<real>): (c: nat)
    ensures |e| <= 1 ==> c == 0
    ensures |e| > 1 ==> c <= |e| - 1
    ensures c == 0 <==> forall i :: 1 <= i < |e| ==> ZeroStep(e, i)
  {
    if |e| <= 1 then 0
    else
      var front := e[..|e| - 1];
      assert forall i :: 1 <= i < |front| ==> (ZeroStep(front, i) <==> ZeroStep(e, i));
      ReturnCount(front) + (if ZeroStep(e, |e| - 1) then 0 else 1)
  }

  /** The step into index i goes from zero to zero: its percentage change is NaN. */
  predicate ZeroStep(e: seq<real>, i: nat)
    requires 1 <= i < |e|
  {
    e[i - 1] == 0.0 && e[i] == 0.0
  }

  /** A curve without zeros keeps every step as a return. */
  lemma {:induction false} ReturnsOfNonZeroCurve(e: seq<real>)
    requires |e| >= 1 && forall i :: 0 <= i < |e| ==> e[i] != 0.0
    ensures ReturnCount(e) == |e| - 1
  {
    if |e| > 1 {
      ReturnsOfNonZeroCurve(e[..|e| - 1]);
    }
  }

  /** cummax: the largest equity value up to and including index i. */
  function RunningMax(e: seq<real>, i: nat): (m: real)
    requires i < |e|
    ensures forall k :: 0 <= k <= i ==> e[k] <= m
    ensures exists k :: 0 <= k <= i && e[k] == m
  {
    if i == 0 then e[0] else Max(RunningMax(e, i - 1), e[i])
  }

  /** The relative distance of equity below its running maximum at index i. */
  function Drawdown(e: seq<real>, i: nat): real
    requires i < |e| && RunningMax(e, i) != 0.0
  {
    (e[i] - RunningMax(e, i)) / RunningMax(e, i)
  }

  /**
   * A zero running maximum over a negative equity value: that drawdown is
   * a negative number over zero, minus infinity. (Over a zero equity value
   * it is 0/0, NaN, which min() skips.)
   */
  predicate MinusInfiniteDrawdown(e: seq<real>)
  {
    exists i :: 0 <= i < |e| && RunningMax(e, i) == 0.0 && e[i] < 0.0
  }

  /**
   * The drawdown series as min() sees it: a value where the running
   * maximum is non-zero, NaN where it is zero.
   */
  function Drawdowns(e: seq<real>): (ds: seq<Num>)
    ensures |ds| == |e|
    ensures forall i :: 0 <= i < |e| ==> (ds[i].Val? <==> RunningMax(e, i) != 0.0)
    ensures forall i :: 0 <= i < |e| && ds[i].Val? ==> ds[i].value == Drawdown(e, i)
  {
    seq(|e|, i requires 0 <= i < |e| => if RunningMax(e, i) != 0.0 then Val(Drawdown(e, i)) else NaN)
  }

  /** The finite drawdowns are those of the points with a non-zero running maximum; their minimum is one of them. */
  lemma FiniteDrawdowns(e: seq<real>)
    ensures |ValidValues(Drawdowns(e))| == 0 <==> forall i :: 0 <= i < |e| ==> RunningMax(e, i) == 0.0
    ensures |ValidValues(Drawdowns(e))| > 0 ==>
      var m := SeqMin(ValidValues(Drawdowns(e)));
      && (exists i :: 0 <= i < |e| && RunningMax(e, i) != 0.0 && m == Drawdown(e, i))
      && forall i :: 0 <= i < |e| && RunningMax(e, i) != 0.0 ==> m <= Drawdown(e, i)
  {
    var slots := Drawdowns(e);
    var ds := ValidValues(slots);
    ValidValuesMembers(slots);
    if |ds| == 0 {
      forall i | 0 <= i < |e|
        ensures RunningMax(e, i) == 0.0
      {
        assert slots[i] == NaN;
      }
    } else {
      var m := SeqMin(ds);
      assert m in ds;
      var w :| 0 <= w < |slots| && slots[w] == Val(m);
      assert RunningMax(e, w) != 0.0 && m == Drawdown(e, w);
      forall i | 0 <= i < |e| && RunningMax(e, i) != 0.0
        ensures m <= Drawdown(e, i)
      {
        assert slots[i].value in ds;
      }
    }
  }

  /**
   * drawdown.min(): the smallest finite drawdown, skipping NaN slots; None
   * where that minimum is not a finite number (minus infinity, or no
   * finite slot at all).
   */
  function MaxDrawdown(e: seq<real>): (r: Option<real>)
    ensures r.None? <==> MinusInfiniteDrawdown(e) || forall i :: 0 <= i < |e| ==> RunningMax(e, i) == 0.0
    ensures r.Some? ==> exists i :: 0 <= i < |e| && RunningMax(e, i) != 0.0 && r.value == Drawdown(e, i)
    ensures r.Some? ==> forall i :: 0 <= i < |e| && RunningMax(e, i) != 0.0 ==> r.value <= Drawdown(e, i)
  {
    var ds := ValidValues(Drawdowns(e));
    FiniteDrawdowns(e);
    if |ds| == 0 || MinusInfiniteDrawdown(e) then None else Some(SeqMin(ds))
  }

  /** A zero first point followed by a positive one leaves one NaN slot, which min() skips. */
  lemma NaNDrawdownSkipped()
    ensures MaxDrawdown([0.0, 5.0]) == Some(0.0)
  {
    var e := [0.0, 5.0];
    assert RunningMax(e, 0) == 0.0;
    assert RunningMax(e, 1) == 5.0;
    assert Drawdown(e, 1) == 0.0;
  }

  /** The relative drop from a positive maximum m to a positive value x <= m lies in (-1, 0]. */
  lemma RelativeDrop(x: real, m: real)
    requires 0.0 < x <= m
    ensures -1.0 < (x - m) / m <= 0.0
    ensures (x - m) / m == 0.0 <==> x == m
  {
    var d := (x - m) / m;
    assert d * m == x - m;
    if d > 0.0 {
      assert false;
    }
    if d <= -1.0 {
      assert false;
    }
  }

  /** With positive equity every drawdown lies in (-1, 0]. */
  lemma DrawdownBounds(e: seq<real>, i: nat)
    requires i < |e| && forall k :: 0 <= k < |e| ==> e[k] > 0.0
    ensures RunningMax(e, i) > 0.0
    ensures -1.0 < Drawdown(e, i) <= 0.0
    ensures Drawdown(e, i) == 0.0 <==> e[i] == RunningMax(e, i)
  {
    RelativeDrop(e[i], RunningMax(e, i));
  }

  /**
   * For a positive equity curve the maximum drawdown exists, lies in
   * (-1, 0], and is zero exactly when the curve never falls.
   */
  lemma MaxDrawdownOfPositiveCurve(e: seq<real>)
    requires |e| > 0 && forall k :: 0 <= k < |e| ==> e[k] > 0.0
    ensures MaxDrawdown(e).Some?
    ensures -1.0 < MaxDrawdown(e).value <= 0.0
    ensures MaxDrawdown(e).value == 0.0 <==> forall i, j :: 0 <= i < j < |e| ==> e[i] <= e[j]
  {
    forall i | 0 <= i < |e|
      ensures RunningMax(e, i) > 0.0
    {
      DrawdownBounds(e, i);
    }
    DrawdownBounds(e, 0);
    var d := MaxDrawdown(e).value;
    var w :| 0 <= w < |e| && RunningMax(e, w) != 0.0 && d == Drawdown(e, w);
    DrawdownBounds(e, w);
    if d == 0.0 {
      forall j | 0 <= j < |e|
        ensures e[j] == RunningMax(e, j)
      {
        DrawdownBounds(e, j);
      }
      forall i, j | 0 <= i < j < |e|
        ensures e[i] <= e[j]
      {
        assert e[i] <= RunningMax(e, j);
      }
    }
    if forall i, j :: 0 <= i < j < |e| ==> e[i] <= e[j] {
      var k :| 0 <= k <= w && e[k] == RunningMax(e, w);
      assert k == w || e[k] <= e[w];
    }
  }

  /** clip(lower=0).sum(): the total of the winning P&L. */
  function Profits(pnls: seq<real>): (r: real)
    ensures r >= 0.0
  {
    if |pnls| == 0 then 0.0 else Profits(pnls[..|pnls| - 1]) + Max(pnls[|pnls| - 1], 0.0)
  }

  /** clip(upper=0).abs().sum(): the total of the losing P&L as a positive amount. */
  function Losses(pnls: seq<real>): (r: real)
    ensures r >= 0.0
  {
    if |pnls| == 0 then 0.0 else Losses(pnls[..|pnls| - 1]) - Min(pnls[|pnls| - 1], 0.0)
  }

  /** Winning minus losing P&L is the net P&L, and losses are positive exactly when a trade lost. */
  lemma {:induction false} ProfitsAndLosses(pnls: seq<real>)
    ensures Profits(pnls) - Losses(pnls) == Sum(pnls)
    ensures Losses(pnls) > 0.0 <==> exists k :: 0 <= k < |pnls| && pnls[k] < 0.0
  {
    if |pnls| > 0 {
      var front := pnls[..|pnls| - 1];
      ProfitsAndLosses(front);
      assert forall k :: 0 <= k < |front| ==> front[k] == pnls[k];
      if Losses(front) > 0.0 {
        var k :| 0 <= k < |front| && front[k] < 0.0;
        assert pnls[k] < 0.0;
      }
    }
  }

  /** profits / losses, infinite when nothing was lost. */
  function ProfitFactor(pnls: seq<real>): (r: Ratio)
    ensures r.Finite? <==> exists k :: 0 <= k < |pnls| && pnls[k] < 0.0
    ensures r.Finite? ==> r.value >= 0.0 && r.value * Losses(pnls) == Profits(pnls)
  {
    ProfitsAndLosses(pnls);
    var losses := Losses(pnls);
    if losses > 0.0 then
      var r := Profits(pnls) / losses;
      assert r >= 0.0 by {
        assert 0.0 <= Profits(pnls) / losses;
      }
      Finite(r)
    else Infinite
  }

  /** The number of trades with a positive P&L. */
  function Wins(pnls: seq<real>): (n: nat)
    ensures n <= |pnls|
    ensures n == |pnls| <==> forall k :: 0 <= k < |pnls| ==> pnls[k] > 0.0
    ensures n == 0 <==> forall k :: 0 <= k < |pnls| ==> pnls[k] <= 0.0
  {
    if |pnls| == 0 then 0
    else
      var front := pnls[..|pnls| - 1];
      assert forall k :: 0 <= k < |front| ==> front[k] == pnls[k];
      Wins(front) + (if pnls[|pnls| - 1] > 0.0 then 1 else 0)
  }

  /** (pnl > 0).mean(), zero for an empty ledger. */
  function WinRate(pnls: seq<real>): (r: real)
    ensures 0.0 <= r <= 1.0
    ensures r == 1.0 <==> |pnls| > 0 && forall k :: 0 <= k < |pnls| ==> pnls[k] > 0.0
    ensures r == 0.0 <==> forall k :: 0 <= k < |pnls| ==> pnls[k] <= 0.0
  {
    if |pnls| == 0 then 0.0
    else
      Fraction(Wins(pnls), |pnls|);
      (Wins(pnls) as real) / (|pnls| as real)
  }

  /** A count w out of n > 0 is a fraction in [0, 1], one only for w == n and zero only for w == 0. */
  lemma Fraction(w: nat, n: nat)
    requires 0 < n && w <= n
    ensures 0.0 <= (w as real) / (n as real) <= 1.0
    ensures (w as real) / (n as real) == 1.0 <==> w == n
    ensures (w as real) / (n as real) == 0.0 <==> w == 0
  {
    var wins, total := w as real, n as real;
    var q := wins / total;
    assert q * total == wins;
    assert q >= 0.0 by { assert wins >= 0.0 * total; }
    assert q <= 1.0 by { assert wins <= 1.0 * total; }
  }

  /**
   * A trade whose R multiple is infinite: a non-zero P&L over a zero risk
   * amount. (A zero P&L over a zero risk amount is 0/0, NaN, which mean()
   * skips.)
   */
  predicate InfiniteR(t: TradeRecord)
  {
    t.rMultiple.None? && t.pnl != 0.0
  }

  /** The r_multiple column as mean() sees it: NaN where the R multiple is undefined. */
  function RColumn(trades: seq<TradeRecord>): (rs: seq<Num>)
    ensures |rs| == |trades|
    ensures forall j :: 0 <= j < |trades| ==> (rs[j].Val? <==> trades[j].rMultiple.Some?)
    ensures forall j :: 0 <= j < |trades| && rs[j].Val? ==> rs[j].value == trades[j].rMultiple.value
  {
    seq(|trades|, j requires 0 <= j < |trades| => if trades[j].rMultiple.Some? then Val(trades[j].rMultiple.value) else NaN)
  }

  /**
   * r_multiple.mean(), zero for an empty ledger: the mean of the defined R
   * multiples, skipping NaN; None where that mean is not a finite number
   * (an infinite R multiple, or no defined one at all).
   */
  function AvgRMultiple(trades: seq<TradeRecord>): (r: Option<real>)
    ensures |trades| == 0 ==> r == Some(0.0)
    ensures |trades| > 0 ==>
      (r.None? <==> (exists j :: 0 <= j < |trades| && InfiniteR(trades[j])) || forall j :: 0 <= j < |trades| ==> trades[j].rMultiple.None?)
  {
    if |trades| == 0 then Some(0.0)
    else
      var rs := ValidValues(RColumn(trades));
      ValidValuesMembers(RColumn(trades));
      if |rs| == 0 || exists j :: 0 <= j < |trades| && InfiniteR(trades[j]) then None
      else Some(Mean(rs))
  }

  /** A NaN R multiple (zero P&L, zero risk) is skipped by the mean. */
  lemma NaNRSkipped(t1: TradeRecord, t2: TradeRecord)
    requires t1.rMultiple == Some(1.0)
    requires t2.rMultiple.None? && t2.pnl == 0.0
    ensures AvgRMultiple([t1, t2]) == Some(1.0)
  {
    var ts := [t1, t2];
    var column := RColumn(ts);
    assert column == [Val(1.0), NaN];
    assert ValidValues(column) == [1.0] by {
      assert column[..1] == [Val(1.0)];
      assert column[..1][..0] == [];
    }
    assert !InfiniteR(ts[0]) && !InfiniteR(ts[1]);
    assert Sum([1.0]) == 1.0 by {
      assert [1.0][..0] == [];
    }
  }

  /** The average R multiple, when finite, lies between the smallest and the largest defined one. */
  lemma AvgRBetween(trades: seq<TradeRecord>, lo: real, hi: real)
    requires |trades| > 0
    requires forall k :: 0 <= k < |trades| ==> trades[k].rMultiple.Some? ==> lo <= trades[k].rMultiple.value <= hi
    ensures AvgRMultiple(trades).Some? ==> lo <= AvgRMultiple(trades).value <= hi
  {
    var column := RColumn(trades);
    var rs := ValidValues(column);
    ValidValuesMembers(column);
    if AvgRMultiple(trades).Some? {
      forall k | 0 <= k < |rs|
        ensures lo <= rs[k] <= hi
      {
        assert rs[k] in rs;
        var j :| 0 <= j < |column| && column[j] == Val(rs[k]);
      }
      MeanBounds(rs, lo, hi);
    }
  }

  /**
   * compute_metrics as written: the pnl column is read whenever there are
   * returns, and the ledger of a run without trades has no columns.
   */
  function ComputeMetricsAsWritten(equity: seq<real>, trades: seq<TradeRecord>): (r: Result<Metrics, MetricsError>)
    ensures ReturnCount(equity) == 0 ==> r == Ok(AllZero)
    ensures r.Err? <==> ReturnCount(equity) > 0 && |trades| == 0
    ensures r.Ok? && ReturnCount(equity) > 0 ==>
      r.value.maxDrawdown == MaxDrawdown(equity) && r.value.avgRMultiple == AvgRMultiple(trades)
  {
    if ReturnCount(equity) == 0 then Ok(AllZero)
    else if |trades| == 0 then Err(MissingPnlColumn)
    else Ok(ComputeMetrics(equity, trades))
  }

  /** A curve with one return and no trades fails at the pnl column. */
  lemma NoTradesFails()
    ensures ComputeMetricsAsWritten([100.0, 101.0], []) == Err(MissingPnlColumn)
  {
    assert ReturnCount([100.0, 101.0]) == 1;
  }

  /**
   * compute_metrics with the no-trades guards of win rate and average R
   * applied to the whole ledger: a run without trades has no losses (an
   * infinite profit factor), a zero win rate and a zero average R.
   */
  function ComputeMetrics(equity: seq<real>, trades: seq<TradeRecord>): (m: Metrics)
    ensures ReturnCount(equity) == 0 ==> m == AllZero
    ensures ReturnCount(equity) > 0 ==>
      && m.maxDrawdown == MaxDrawdown(equity)
      && m.profitFactor == ProfitFactor(Pnls(trades))
      && m.winRate == WinRate(Pnls(trades))
      && m.avgRMultiple == AvgRMultiple(trades)
  {
    if ReturnCount(equity) == 0 then AllZero
    else Metrics(MaxDrawdown(equity), ProfitFactor(Pnls(trades)), WinRate(Pnls(trades)), AvgRMultiple(trades))
  }

  /**
   * The corrected metrics agree with the code as written wherever that
   * returns, and give the guarded values for a run without trades.
   */
  lemma CorrectedMetrics(equity: seq<real>, trades: seq<TradeRecord>)
    ensures ComputeMetricsAsWritten(equity, trades).Ok? ==> ComputeMetricsAsWritten(equity, trades).value == ComputeMetrics(equity, trades)
    ensures ComputeMetricsAsWritten(equity, trades).Err? <==> ReturnCount(equity) > 0 && |trades| == 0
    ensures ReturnCount(equity) > 0 && |trades| == 0 ==>
      ComputeMetrics(equity, trades) == Metrics(MaxDrawdown(equity), Infinite, 0.0, Some(0.0))
  {
  }
}
