// The live bot's risk gate and position sizer
// (mt5-ai-bot/src/execution/risk_manager.py): a per-day state of trade count
// and realised P&L that resets when the calendar day changes, a permission
// check against the daily limits, and a round-then-clamp lot size.

module LiveRisk {
  import opened Common

  /** Percentages are plain numbers (1.0 means one percent). */
  datatype RiskLimits = RiskLimits(
    riskPerTradePct: real,
    dailyLossLimitPct: real,
    maxTradesPerDay: int,
    maxConcurrentPositionsPerSymbol: int)

  /** `day` is the "%Y-%m-%d" text of the day the counters belong to. */
  datatype RiskState = RiskState(day: string, tradesToday: int, realizedPnlToday: real)

  const InitialState := RiskState("", 0, 0.0)

  /** The answer of can_trade: a verdict and its reason text. */
  datatype Permission = Permission(allowed: bool, reason: string)

  /** The state after reset_if_new_day on the given day text. */
  function AfterReset(s: RiskState, day: string): (r: RiskState)
    ensures r.day == day
    ensures day != s.day ==> r.tradesToday == 0 && r.realizedPnlToday == 0.0
    ensures day == s.day ==> r == s
  {
    if day != s.day then RiskState(day, 0, 0.0) else s
  }

  /** The state after record_trade with the given P&L. */
  function AfterRecord(s: RiskState, pnl: real): (r: RiskState)
    ensures r.day == s.day
    ensures r.tradesToday == s.tradesToday + 1
    ensures r.realizedPnlToday == s.realizedPnlToday + pnl
  {
    s.(tradesToday := s.tradesToday + 1, realizedPnlToday := s.realizedPnlToday + pnl)
  }

  /** The loss threshold for the balance passed in: -balance * pct / 100. */
  function DailyLossLimit(balance: real, pct: real): real
  {
    -balance * (pct / 100.0)
  }

  /**
   * The permission check on a state: the trade count is checked first, then
   * the realised P&L against the loss threshold of the given balance.
   */
  function Permit(limits: RiskLimits, s: RiskState, balance: real): (p: Permission)
    ensures p.allowed <==> (s.tradesToday < limits.maxTradesPerDay
                            && s.realizedPnlToday > DailyLossLimit(balance, limits.dailyLossLimitPct))
    ensures s.tradesToday >= limits.maxTradesPerDay ==> p.reason == "max_trades_per_day"
    ensures s.tradesToday < limits.maxTradesPerDay && !p.allowed ==> p.reason == "daily_loss_limit"
    ensures p.allowed ==> p.reason == "ok"
  {
    if s.tradesToday >= limits.maxTradesPerDay then Permission(false, "max_trades_per_day")
    else if s.realizedPnlToday <= DailyLossLimit(balance, limits.dailyLossLimitPct) then Permission(false, "daily_loss_limit")
    else Permission(true, "ok")
  }

  /** x is a whole number of steps. */
  predicate MultipleOf(x: real, step: real)
    requires step != 0.0
  {
    (x / step).Floor as real == x / step
  }

  /** round(raw / step) * step: a multiple of step within half a step of raw. */
  function RoundToStep(raw: real, step: real): (r: real)
    requires step != 0.0
    ensures MultipleOf(r, step)
    ensures step > 0.0 ==> Abs(r - raw) <= step / 2.0
  {
    var k := RoundHalfEven(raw / step);
    WholeSteps(k, step);
    if step > 0.0 then ScaleError(raw / step, k, step); (k as real) * step
    else (k as real) * step
  }

  /** k steps are a multiple of the step. */
  lemma WholeSteps(k: int, step: real)
    requires step != 0.0
    ensures MultipleOf((k as real) * step, step)
  {
    assert (k as real) * step / step == k as real;
  }

  lemma ScaleError(x: real, k: int, step: real)
    requires step > 0.0 && -0.5 <= k as real - x <= 0.5
    ensures Abs((k as real) * step - x * step) <= step / 2.0
  {
    var d := k as real - x;
    assert (k as real) * step - x * step == d * step;
    var below, above := 0.5 - d, 0.5 + d;
    assert below >= 0.0 && above >= 0.0;
    assert below * step >= 0.0 && above * step >= 0.0;
    assert below * step == 0.5 * step - d * step;
    assert above * step == 0.5 * step + d * step;
  }

  function Clamp(x: real, lo: real, hi: real): (r: real)
    ensures lo <= hi ==> lo <= r <= hi
    ensures lo <= x <= hi ==> r == x
  {
    Min(Max(x, lo), hi)
  }

  /**
   * position_size_lots: 0.0 unless the stop distance, point and tick value
   * are all positive; otherwise the lot count that risks riskPerTradePct of
   * the balance, rounded to the volume step and then clamped.
   */
  function PositionSize(limits: RiskLimits, balance: real, slDistance: real, point: real, tickValue: real,
                        volumeStep: real, volumeMin: real, volumeMax: real): (lots: real)
    requires slDistance > 0.0 && point > 0.0 && tickValue > 0.0 ==> volumeStep != 0.0
    ensures slDistance <= 0.0 || point <= 0.0 || tickValue <= 0.0 ==> lots == 0.0
    ensures slDistance > 0.0 && point > 0.0 && tickValue > 0.0 && volumeMin <= volumeMax
            ==> volumeMin <= lots <= volumeMax
    ensures slDistance > 0.0 && point > 0.0 && tickValue > 0.0
            ==> lots == volumeMin || lots == volumeMax || MultipleOf(lots, volumeStep)
  {
    var riskAmount := balance * (limits.riskPerTradePct / 100.0);
    if slDistance <= 0.0 || point <= 0.0 || tickValue <= 0.0 then 0.0
    else
      var rawLots := riskAmount / (slDistance / point * tickValue);
      Clamp(RoundToStep(rawLots, volumeStep), volumeMin, volumeMax)
  }

  /** The unrounded lot count: the risk amount over the money lost per lot at the stop. */
  function RawLots(limits: RiskLimits, balance: real, slDistance: real, point: real, tickValue: real): real
    requires slDistance > 0.0 && point > 0.0 && tickValue > 0.0
  {
    balance * (limits.riskPerTradePct / 100.0) / (slDistance / point * tickValue)
  }

  /**
   * When the unrounded lot count already lies within the volume bounds, the
   * sized position is within half a volume step of it: clamping can only
   * move the rounded value back towards it.
   */
  lemma PositionSizeNearRaw(limits: RiskLimits, balance: real, slDistance: real, point: real, tickValue: real,
                            volumeStep: real, volumeMin: real, volumeMax: real)
    requires slDistance > 0.0 && point > 0.0 && tickValue > 0.0 && volumeStep > 0.0
    requires volumeMin <= RawLots(limits, balance, slDistance, point, tickValue) <= volumeMax
    ensures var lots := PositionSize(limits, balance, slDistance, point, tickValue, volumeStep, volumeMin, volumeMax);
            Abs(lots - RawLots(limits, balance, slDistance, point, tickValue)) <= volumeStep / 2.0
  {
    var raw := RawLots(limits, balance, slDistance, point, tickValue);
    var rounded := RoundToStep(raw, volumeStep);
    assert Abs(rounded - raw) <= volumeStep / 2.0;
    var lots := Clamp(rounded, volumeMin, volumeMax);
    assert Abs(lots - raw) <= Abs(rounded - raw);
  }

  /**
   * Balance 10000 at 1% risk, a 0.0010 stop with point 0.0001 and tick value
   * 10, step 0.01 and bounds [0.01, 1.0] size a positive position of at most
   * 1.0 lot.
   */
  lemma SizingExample()
    ensures var lots := PositionSize(RiskLimits(1.0, 2.0, 3, 1), 10000.0, 0.0010, 0.0001, 10.0, 0.01, 0.01, 1.0);
            0.0 < lots <= 1.0
  {
    var limits := RiskLimits(1.0, 2.0, 3, 1);
    assert RawLots(limits, 10000.0, 0.0010, 0.0001, 10.0) == 1.0;
    PositionSizeNearRaw(limits, 10000.0, 0.0010, 0.0001, 10.0, 0.01, 0.01, 1.0);
  }

  /** Two resets with the same day text leave the state as one reset does. */
  lemma ResetIdempotent(s: RiskState, day: string)
    ensures AfterReset(AfterReset(s, day), day) == AfterReset(s, day)
  {
  }

  /**
   * Recording a run of trades adds their number to the counter and their
   * P&L total to the realised P&L, and keeps the day.
   */
  lemma {:induction false} RecordedTradesCount(s: RiskState, pnls: seq<real>)
    ensures RecordAll(s, pnls).tradesToday == s.tradesToday + |pnls|
    ensures RecordAll(s, pnls).realizedPnlToday == s.realizedPnlToday + Sum(pnls)
    ensures RecordAll(s, pnls).day == s.day
    decreases |pnls|
  {
    if |pnls| > 0 {
      RecordedTradesCount(s, pnls[..|pnls| - 1]);
    }
  }

  /** The state after recording each P&L in order. */
  function RecordAll(s: RiskState, pnls: seq<real>): RiskState
    decreases |pnls|
  {
    if |pnls| == 0 then s else AfterRecord(RecordAll(s, pnls[..|pnls| - 1]), pnls[|pnls| - 1])
  }

  /** The live risk manager: fixed limits and a per-day state updated in place. */
  class RiskManager {
    const limits: RiskLimits
    var state: RiskState

    constructor (limits: RiskLimits)
      ensures this.limits == limits && state == InitialState
    {
      this.limits := limits;
      state := InitialState;
    }

    /** reset_if_new_day: `day` is the "%Y-%m-%d" text of the current time. */
    method ResetIfNewDay(day: string)
      modifies this
      ensures state == AfterReset(old(state), day)
    {
      if day != state.day {
        state := RiskState(day, 0, 0.0);
      }
    }

    method RecordTrade(pnl: real)
      modifies this
      ensures state == AfterRecord(old(state), pnl)
    {
      state := state.(tradesToday := state.tradesToday + 1);
      state := state.(realizedPnlToday := state.realizedPnlToday + pnl);
    }

    /** can_trade: reads the state and changes nothing. */
    function CanTrade(balance: real): (p: Permission)
      reads this
    {
      Permit(limits, state, balance)
    }

    /** position_size_lots for this manager's risk percentage. */
    function PositionSizeLots(balance: real, slDistance: real, point: real, tickValue: real,
                              volumeStep: real, volumeMin: real, volumeMax: real): (lots: real)
      requires slDistance > 0.0 && point > 0.0 && tickValue > 0.0 ==> volumeStep != 0.0
    {
      PositionSize(limits, balance, slDistance, point, tickValue, volumeStep, volumeMin, volumeMax)
    }
  }
}
