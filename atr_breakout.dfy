// The ATR-breakout signal generator (mt5-ai-bot/src/strategy/atr_breakout.py):
// a breakout band over the N bars before the current one, a volatility
// floor on the ATR and an optional veto by the slope of the close EMA.

module AtrBreakout {
  import opened Common
  import opened MathUtils

  /** direction: 1 buy, -1 sell, 0 none. atrValue is NaN when ATR is undefined. */
  datatype Signal = Signal(direction: int, atrValue: Num, breakoutHigh: real, breakoutLow: real, emaSlope: real)

  const NullSignal := Signal(0, Val(0.0), 0.0, 0.0, 0.0)

  /** Strategy parameters shared by the live loop and the backtest. */
  datatype Params = Params(breakoutN: nat, atrPeriod: nat, atrMin: real, emaPeriod: nat, useTrendFilter: bool)
  {
    predicate Valid() { breakoutN >= 1 && atrPeriod >= 1 && emaPeriod >= 1 }

    /** Bars needed before a signal is computed: max(N, atr_period, ema_period) + 1. */
    function Warmup(): (w: nat)
      ensures w > breakoutN && w > atrPeriod && w > emaPeriod
      ensures w - 1 == breakoutN || w - 1 == atrPeriod || w - 1 == emaPeriod
    {
      var m := if breakoutN >= atrPeriod then breakoutN else atrPeriod;
      (if m >= emaPeriod then m else emaPeriod) + 1
    }
  }

  /** Highest high of a non-empty run of bars. */
  function MaxHigh(bs: seq<Bar>): (r: real)
    requires |bs| > 0
    ensures forall k :: 0 <= k < |bs| ==> bs[k].high <= r
    ensures exists k :: 0 <= k < |bs| && bs[k].high == r
  {
    if |bs| == 1 then bs[0].high
    else
      var rest := MaxHigh(bs[1..]);
      assert forall k :: 1 <= k < |bs| ==> bs[k] == bs[1..][k - 1];
      if bs[0].high >= rest then bs[0].high else rest
  }

  /** Lowest low of a non-empty run of bars. */
  function MinLow(bs: seq<Bar>): (r: real)
    requires |bs| > 0
    ensures forall k :: 0 <= k < |bs| ==> r <= bs[k].low
    ensures exists k :: 0 <= k < |bs| && bs[k].low == r
  {
    if |bs| == 1 then bs[0].low
    else
      var rest := MinLow(bs[1..]);
      assert forall k :: 1 <= k < |bs| ==> bs[k] == bs[1..][k - 1];
      if bs[0].low <= rest then bs[0].low else rest
  }

  function Closes(bars: seq<Bar>): (cs: seq<real>)
    ensures |cs| == |bars|
    ensures forall i :: 0 <= i < |bars| ==> cs[i] == bars[i].close
  {
    seq(|bars|, i requires 0 <= i < |bars| => bars[i].close)
  }

  /** Price-only direction: above the band buys, below it sells. */
  function RawDirection(close: real, high: real, low: real): (d: int)
    ensures d == 1 ==> close > high
    ensures d == -1 ==> close < low
    ensures d == -1 || d == 0 || d == 1
  {
    if close > high then 1 else if close < low then -1 else 0
  }

  /** The trend veto: a buy needs a rising EMA, a sell a falling one. */
  function TrendFiltered(direction: int, slope: real, useTrendFilter: bool): (d: int)
    ensures d == 0 || d == direction
    ensures useTrendFilter && d == 1 ==> slope > 0.0
    ensures useTrendFilter && d == -1 ==> slope < 0.0
  {
    if !useTrendFilter || direction == 0 then direction
    else if direction == 1 && slope <= 0.0 then 0
    else if direction == -1 && slope >= 0.0 then 0
    else direction
  }

  function ComputeSignal(bars: seq<Bar>, p: Params): (s: Signal)
    requires p.Valid()
    ensures s.direction == -1 || s.direction == 0 || s.direction == 1
    ensures |bars| < p.Warmup() ==> s == NullSignal
    ensures s.direction != 0 ==> s.atrValue.Val? && s.atrValue.value >= p.atrMin
    ensures s.direction == 1 ==> bars[|bars| - 1].close > s.breakoutHigh
    ensures s.direction == -1 ==> bars[|bars| - 1].close < s.breakoutLow
    ensures p.useTrendFilter && s.direction == 1 ==> s.emaSlope > 0.0
    ensures p.useTrendFilter && s.direction == -1 ==> s.emaSlope < 0.0
  {
    if |bars| < p.Warmup() then NullSignal
    else
      var last := |bars| - 1;
      var prior := bars[last - p.breakoutN .. last];
      var high := MaxHigh(prior);
      var low := MinLow(prior);
      var atrValue := Atr(bars, p.atrPeriod)[last];
      var ema := EmaSpan(Closes(bars), p.emaPeriod);
      var slope := ema[last] - ema[last - 1];
      if atrValue.NaN? || atrValue.value < p.atrMin then Signal(0, atrValue, high, low, slope)
      else
        var direction := TrendFiltered(RawDirection(bars[last].close, high, low), slope, p.useTrendFilter);
        Signal(direction, atrValue, high, low, slope)
  }

  /**
   * With enough history the band is the highest high and lowest low of
   * exactly the N bars before the last one, the ATR is the last rolling value
   * and the slope is the last EMA step.
   */
  lemma SignalFields(bars: seq<Bar>, p: Params)
    requires p.Valid() && |bars| >= p.Warmup()
    ensures var s := ComputeSignal(bars, p); var last := |bars| - 1;
      && (forall k :: last - p.breakoutN <= k < last ==> bars[k].high <= s.breakoutHigh && s.breakoutLow <= bars[k].low)
      && (exists k :: last - p.breakoutN <= k < last && bars[k].high == s.breakoutHigh)
      && (exists k :: last - p.breakoutN <= k < last && bars[k].low == s.breakoutLow)
      && s.atrValue == Atr(bars, p.atrPeriod)[last]
      && s.emaSlope == EmaSpan(Closes(bars), p.emaPeriod)[last] - EmaSpan(Closes(bars), p.emaPeriod)[last - 1]
  {
    var last := |bars| - 1;
    WindowBand(bars, last - p.breakoutN, last);
  }

  /** MaxHigh and MinLow of a slice, restated over the indices of the whole sequence. */
  lemma WindowBand(bars: seq<Bar>, lo: nat, hi: nat)
    requires lo < hi <= |bars|
    ensures forall k :: lo <= k < hi ==> bars[k].high <= MaxHigh(bars[lo .. hi]) && MinLow(bars[lo .. hi]) <= bars[k].low
    ensures exists k :: lo <= k < hi && bars[k].high == MaxHigh(bars[lo .. hi])
    ensures exists k :: lo <= k < hi && bars[k].low == MinLow(bars[lo .. hi])
  {
    var w := bars[lo .. hi];
    forall k | lo <= k < hi
      ensures bars[k].high <= MaxHigh(w) && MinLow(w) <= bars[k].low
    {
      assert bars[k] == w[k - lo];
    }
    var kh :| 0 <= kh < |w| && w[kh].high == MaxHigh(w);
    assert bars[lo + kh] == w[kh];
    var kl :| 0 <= kl < |w| && w[kl].low == MinLow(w);
    assert bars[lo + kl] == w[kl];
  }

  /** With enough history the ATR at the last bar is always defined. */
  lemma AtrDefinedAtLast(bars: seq<Bar>, p: Params)
    requires p.Valid() && |bars| >= p.Warmup()
    ensures ComputeSignal(bars, p).atrValue.Val?
  {
    AtrDefinedFrom(bars, p.atrPeriod, |bars| - 1);
  }

  /** The volatility floor: ATR undefined or below atr_min means no trade. */
  lemma VolatilityFloor(bars: seq<Bar>, p: Params)
    requires p.Valid()
    requires |bars| >= p.Warmup()
    requires Atr(bars, p.atrPeriod)[|bars| - 1].NaN? || Atr(bars, p.atrPeriod)[|bars| - 1].value < p.atrMin
    ensures ComputeSignal(bars, p).direction == 0
  {
  }

  /**
   * Without the trend filter and above the volatility floor, a buy is a
   * close strictly above the band and a sell a close strictly below it.
   */
  lemma UnfilteredDirection(bars: seq<Bar>, p: Params)
    requires p.Valid() && !p.useTrendFilter && |bars| >= p.Warmup()
    requires Atr(bars, p.atrPeriod)[|bars| - 1].Val? && Atr(bars, p.atrPeriod)[|bars| - 1].value >= p.atrMin
    ensures var s := ComputeSignal(bars, p); var close := bars[|bars| - 1].close;
      && (s.direction == 1 <==> close > s.breakoutHigh)
      && (s.direction == -1 <==> close < s.breakoutLow && close <= s.breakoutHigh)
      && (s.direction == 0 <==> s.breakoutLow <= close <= s.breakoutHigh)
  {
  }

  /**
   * The trend filter never creates or flips a signal: it keeps a buy only
   * on a rising EMA and a sell only on a falling one; every other field of
   * the signal is the same with and without it.
   */
  lemma TrendFilterOnlyRemoves(bars: seq<Bar>, p: Params)
    requires p.Valid()
    ensures var on := ComputeSignal(bars, p.(useTrendFilter := true));
            var off := ComputeSignal(bars, p.(useTrendFilter := false));
      && on.(direction := 0) == off.(direction := 0)
      && (on.direction != 0 ==> on.direction == off.direction)
      && (on.direction == 1 <==> off.direction == 1 && off.emaSlope > 0.0)
      && (on.direction == -1 <==> off.direction == -1 && off.emaSlope < 0.0)
  {
  }

  /**
   * Twenty flat bars (high 1.01, low 0.99, close 1.00) and a bar closing at
   * 1.28 give a buy with N = 20, ATR period 14, ATR floor 0.0001, EMA
   * period 5 and no trend filter.
   */
  lemma FlatThenBreakoutBuys()
    ensures var flat := seq(20, i => Bar(i, 1.0 + (i as real) * 0.01, 1.01, 0.99, 1.00, 0.0));
            var bars := flat + [Bar(20, 1.25, 1.30, 1.20, 1.28, 0.0)];
            ComputeSignal(bars, Params(20, 14, 0.0001, 5, false)).direction == 1
  {
    var flat := seq(20, i => Bar(i, 1.0 + (i as real) * 0.01, 1.01, 0.99, 1.00, 0.0));
    var bars := flat + [Bar(20, 1.25, 1.30, 1.20, 1.28, 0.0)];
    var p := Params(20, 14, 0.0001, 5, false);
    assert p.Warmup() == 21;
    var prior := bars[0 .. 20];
    assert forall k :: 0 <= k < 20 ==> prior[k].high == 1.01;
    var kh :| 0 <= kh < |prior| && prior[kh].high == MaxHigh(prior);
    assert MaxHigh(prior) == 1.01;
    // the window of the last ATR value is non-negative and ends with the 0.10-wide last bar
    var trs := TrueRanges(bars);
    var w := trs[7 .. 21];
    assert forall k :: 0 <= k < |w| ==> w[k] == TrueRange(bars, k + 7);
    assert forall k :: 0 <= k < |w| ==> w[k] >= 0.0;
    SumAtLeastLast(w);
    assert w[13] >= 1.30 - 1.20;
    AtrDefinedFrom(bars, 14, 20);
    assert Atr(bars, 14)[20].value >= 0.0001;
  }
}
