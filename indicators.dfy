// The legacy technical-indicator library (src/indicators.py): input
// validation, simple and exponential moving averages, RSI, MACD, ATR, the
// stochastic oscillator, VWAP and the summary that computes them all.
// numpy arrays of floats are sequences of Num (NaN or a value); inputs are
// sequences of exact reals.

module Indicators {
  import opened Common
  import MathUtils

  /** The ValueErrors (and the IndexError) the indicator functions raise. */
  datatype IndicatorError =
    | InsufficientData(minLength: int, got: nat)
    | InvalidPeriod
    | PeriodOrder
    | LengthMismatch
    | IndexOutOfRange
    | MissingColumns(columns: seq<string>)

  // ---------------------------------------------------------------------
  // Validation and shared sequence helpers

  /** validate_data: the data unchanged when it has at least minLength points. */
  function ValidateData(data: seq<real>, minLength: int): (r: Result<seq<real>, IndicatorError>)
    ensures r.Ok? <==> |data| >= minLength
    ensures r.Ok? ==> r.value == data
    ensures r.Err? ==> r.error == InsufficientData(minLength, |data|)
  {
    if |data| < minLength then Err(InsufficientData(minLength, |data|)) else Ok(data)
  }

  /** NaN-propagating subtraction of two array slots. */
  function Diff(a: Num, b: Num): (r: Num)
    ensures r.Val? <==> a.Val? && b.Val?
    ensures r.Val? ==> r.value + b.value == a.value
  {
    if a.Val? && b.Val? then Val(a.value - b.value) else NaN
  }

  /**
   * When exactly the slots from k on hold values, the valid values are
   * those slots' values.
   */
  lemma {:induction false} ValidSuffix(s: seq<Num>, k: nat)
    requires k <= |s|
    requires forall i :: 0 <= i < |s| ==> (s[i].Val? <==> i >= k)
    ensures |ValidValues(s)| == |s| - k
    ensures forall j :: 0 <= j < |s| - k ==> ValidValues(s)[j] == s[k + j].value
  {
    if |s| > 0 {
      var front := s[..|s| - 1];
      if |s| - 1 >= k {
        ValidSuffix(front, k);
      } else {
        ValidSuffix(front, |s| - 1);
      }
    }
  }

  /** Every valid value lies in [lo, hi] when every value slot does. */
  lemma {:induction false} ValidValuesBetween(s: seq<Num>, lo: real, hi: real)
    requires forall i :: 0 <= i < |s| && s[i].Val? ==> lo <= s[i].value <= hi
    ensures forall j :: 0 <= j < |ValidValues(s)| ==> lo <= ValidValues(s)[j] <= hi
  {
    if |s| > 0 {
      ValidValuesBetween(s[..|s| - 1], lo, hi);
    }
  }

  /**
   * out = np.full(n, nan); out[-len(t):] = t: the values of t placed at the
   * end of n slots.
   */
  function RightAlign(t: seq<Num>, n: nat): (r: seq<Num>)
    requires |t| <= n
    ensures |r| == n
    ensures forall i :: 0 <= i < n - |t| ==> r[i] == NaN
    ensures forall j :: 0 <= j < |t| ==> r[n - |t| + j] == t[j]
  {
    seq(n - |t|, _ => NaN) + t
  }

  /** A series whose slots are all NaN or lie in [lo, hi]. */
  predicate Between(s: seq<Num>, lo: real, hi: real)
  {
    forall i :: 0 <= i < |s| && s[i].Val? ==> lo <= s[i].value <= hi
  }

  // ---------------------------------------------------------------------
  // Simple moving average

  /** The mean of the period values ending at index i. */
  function WindowMean(data: seq<real>, period: nat, i: nat): real
    requires 1 <= period && period - 1 <= i < |data|
  {
    Mean(data[i + 1 - period..i + 1])
  }

  /** The SMA series: NaN before the first full window, then each window's mean. */
  function SmaSeries(data: seq<real>, period: nat): (r: seq<Num>)
    requires 1 <= period <= |data|
    ensures |r| == |data|
    ensures forall i :: 0 <= i < |data| ==> (r[i].Val? <==> i >= period - 1)
  {
    seq(|data|, i requires 0 <= i < |data| =>
      if i < period - 1 then NaN else Val(WindowMean(data, period, i)))
  }

  /**
   * simple_moving_average: the SMA series, or the validation error; the
   * check that the period does not exceed the data length can never fire
   * after validation.
   */
  function Sma(data: seq<real>, period: int): (r: Result<seq<Num>, IndicatorError>)
    ensures r.Ok? <==> 1 <= period <= |data|
    ensures |data| < period ==> r == Err(InsufficientData(period, |data|))
    ensures r.Ok? ==> r.value == SmaSeries(data, period)
  {
    if |data| < period then Err(InsufficientData(period, |data|))
    else if period < 1 then Err(InvalidPeriod)
    else Ok(SmaSeries(data, period))
  }

  /** Every SMA value lies between bounds that hold for the data. */
  lemma SmaBetween(data: seq<real>, period: nat, lo: real, hi: real)
    requires 1 <= period <= |data|
    requires forall k :: 0 <= k < |data| ==> lo <= data[k] <= hi
    ensures Between(SmaSeries(data, period), lo, hi)
  {
    var r := SmaSeries(data, period);
    forall i | 0 <= i < |r| && r[i].Val?
      ensures lo <= r[i].value <= hi
    {
      var w := data[i + 1 - period..i + 1];
      assert forall k :: 0 <= k < |w| ==> w[k] == data[i + 1 - period + k];
      MeanBounds(w, lo, hi);
    }
  }

  /** With a period of one the SMA is the data itself. */
  lemma SmaPeriodOne(data: seq<real>, i: nat)
    requires 1 <= |data| && i < |data|
    ensures SmaSeries(data, 1)[i] == Val(data[i])
  {
    var w := data[i..i + 1];
    assert w[..0] == [];
    assert Sum(w) == w[0];
  }

  // ---------------------------------------------------------------------
  // Exponential moving average

  /** The smoothing multiplier 2 / (period + 1). */
  function Multiplier(period: nat): (m: real)
    requires period >= 1
    ensures 0.0 < m <= 1.0
  {
    2.0 / (period as real + 1.0)
  }

  /** One EMA step: the new value weighted by m against the previous EMA. */
  function EmaNext(x: real, previous: real, m: real): real
  {
    x * m + previous * (1.0 - m)
  }

  /**
   * The EMA value at index i: the mean of the first period values at
   * period - 1, then each value weighted by the multiplier against the
   * previous EMA.
   */
  function EmaAt(data: seq<real>, period: nat, i: nat): real
    requires 1 <= period && period - 1 <= i < |data|
    decreases i
  {
    if i == period - 1 then Mean(data[..period])
    else EmaNext(data[i], EmaAt(data, period, i - 1), Multiplier(period))
  }

  /** The EMA series: NaN before index period - 1, EmaAt from there on. */
  function EmaSeries(data: seq<real>, period: nat): (r: seq<Num>)
    requires 1 <= period <= |data|
    ensures |r| == |data|
    ensures forall i :: 0 <= i < |data| ==> (r[i].Val? <==> i >= period - 1)
  {
    seq(|data|, i requires 0 <= i < |data| =>
      if i < period - 1 then NaN else Val(EmaAt(data, period, i)))
  }

  /** exponential_moving_average: the EMA series, or the validation error. */
  function Ema(data: seq<real>, period: int): (r: Result<seq<Num>, IndicatorError>)
    ensures r.Ok? <==> 1 <= period <= |data|
    ensures |data| < period ==> r == Err(InsufficientData(period, |data|))
    ensures r.Ok? ==> r.value == EmaSeries(data, period)
  {
    if |data| < period then Err(InsufficientData(period, |data|))
    else if period < 1 then Err(InvalidPeriod)
    else Ok(EmaSeries(data, period))
  }

  /** Every EMA value lies between bounds that hold for the data. */
  lemma {:induction false} EmaAtBetween(data: seq<real>, period: nat, i: nat, lo: real, hi: real)
    requires 1 <= period && period - 1 <= i < |data|
    requires forall k :: 0 <= k < |data| ==> lo <= data[k] <= hi
    ensures lo <= EmaAt(data, period, i) <= hi
    decreases i
  {
    if i == period - 1 {
      var w := data[..period];
      assert forall k :: 0 <= k < |w| ==> w[k] == data[k];
      MeanBounds(w, lo, hi);
    } else {
      EmaAtBetween(data, period, i - 1, lo, hi);
      var m := Multiplier(period);
      MathUtils.ConvexBetween(m, data[i], EmaAt(data, period, i - 1), lo, hi);
    }
  }

  lemma EmaBetween(data: seq<real>, period: nat, lo: real, hi: real)
    requires 1 <= period <= |data|
    requires forall k :: 0 <= k < |data| ==> lo <= data[k] <= hi
    ensures Between(EmaSeries(data, period), lo, hi)
  {
    var r := EmaSeries(data, period);
    forall i | 0 <= i < |r| && r[i].Val?
      ensures lo <= r[i].value <= hi
    {
      EmaAtBetween(data, period, i, lo, hi);
    }
  }

  /** exponential_moving_average, filling its array in one pass. */
  method ExponentialMovingAverage(data: seq<real>, period: int) returns (r: Result<seq<Num>, IndicatorError>)
    ensures r == Ema(data, period)
  {
    if |data| < period {
      return Err(InsufficientData(period, |data|));
    }
    if period < 1 {
      return Err(InvalidPeriod);
    }
    var ema := FillEma(data, period);
    return Ok(ema);
  }

  /** The EMA loop: from the seed at period - 1, each value from the one before it. */
  method SmoothEma(data: seq<real>, period: nat, ema: array<Num>)
    requires 1 <= period <= |data| && ema.Length == |data|
    requires ema[period - 1] == Val(Mean(data[..period]))
    modifies ema
    ensures forall k :: 0 <= k < period - 1 ==> ema[k] == old(ema[k])
    ensures forall k :: period - 1 <= k < |data| ==> ema[k] == Val(EmaAt(data, period, k))
  {
    var multiplier := Multiplier(period);
    for i := period to |data|
      invariant forall k :: 0 <= k < period - 1 ==> ema[k] == old(ema[k])
      invariant forall k :: period - 1 <= k < i ==> ema[k] == Val(EmaAt(data, period, k))
    {
      ema[i] := Val(EmaNext(data[i], ema[i - 1].value, multiplier));
    }
  }

  /** The array of exponential_moving_average after validation. */
  method FillEma(data: seq<real>, period: nat) returns (r: seq<Num>)
    requires 1 <= period <= |data|
    ensures r == EmaSeries(data, period)
  {
    var ema := new Num[|data|](_ => Val(0.0));
    ema[period - 1] := Val(Mean(data[..period]));
    SmoothEma(data, period, ema);
    forall k | 0 <= k < period - 1 {
      ema[k] := NaN;
    }
    r := ema[..];
    assert forall k :: 0 <= k < |data| ==> r[k] == EmaSeries(data, period)[k];
  }

  // ---------------------------------------------------------------------
  // Relative strength index

  predicate NonNegative(xs: seq<real>)
  {
    forall k :: 0 <= k < |xs| ==> xs[k] >= 0.0
  }

  /** np.diff followed by the positive parts: the rise from each point to the next. */
  function Gains(data: seq<real>): (g: seq<real>)
    requires |data| >= 1
    ensures |g| == |data| - 1 && NonNegative(g)
  {
    seq(|data| - 1, k requires 0 <= k < |data| - 1 =>
      var d := data[k + 1] - data[k]; if d > 0.0 then d else 0.0)
  }

  /** The falls from each point to the next, as non-negative amounts. */
  function Losses(data: seq<real>): (l: seq<real>)
    requires |data| >= 1
    ensures |l| == |data| - 1 && NonNegative(l)
  {
    seq(|data| - 1, k requires 0 <= k < |data| - 1 =>
      var d := data[k + 1] - data[k]; if d < 0.0 then -d else 0.0)
  }

  /** Each change splits into a gain and a loss, both non-negative and at most one of them non-zero. */
  lemma GainsAndLosses(data: seq<real>, k: nat)
    requires k < |data| - 1
    ensures Gains(data)[k] >= 0.0 && Losses(data)[k] >= 0.0
    ensures Gains(data)[k] - Losses(data)[k] == data[k + 1] - data[k]
    ensures Gains(data)[k] == 0.0 || Losses(data)[k] == 0.0
  {
  }

  /** One step of Wilder's smoothing: the old average weighted period - 1 against the new value. */
  function Smooth(average: real, x: real, period: nat): (r: real)
    requires period >= 1
    ensures average >= 0.0 && x >= 0.0 ==> r >= 0.0
    ensures average >= 0.0 && x > 0.0 ==> r > 0.0
  {
    var weighted := average * (period - 1) as real;
    assert average >= 0.0 ==> weighted >= 0.0 by {
      if average >= 0.0 {
        assert average * ((period - 1) as real) >= 0.0;
      }
    }
    (weighted + x) / period as real
  }

  /**
   * The smoothed average at loop index i: the mean of the first period
   * values at period - 1, then one smoothing step per index with the change
   * that ends at that index. At i = period that change, xs[period - 1], is
   * already part of the seed mean and is smoothed in once more. It is never
   * negative for non-negative values.
   */
  function AverageAt(xs: seq<real>, period: nat, i: nat): (r: real)
    requires 1 <= period <= |xs| && period - 1 <= i <= |xs|
    ensures NonNegative(xs) ==> r >= 0.0
    decreases i
  {
    if i == period - 1 then
      MeanPrefixNonNegative(xs, period);
      Mean(xs[..period])
    else Smooth(AverageAt(xs, period, i - 1), xs[i - 1], period)
  }

  lemma MeanPrefixNonNegative(xs: seq<real>, period: nat)
    requires 1 <= period <= |xs|
    ensures NonNegative(xs) ==> Mean(xs[..period]) >= 0.0
  {
    if NonNegative(xs) {
      var w := xs[..period];
      assert forall k :: 0 <= k < |w| ==> w[k] == xs[k];
      SumNonNegative(w);
    }
  }

  /** The RSI of the two averages: 100 - 100 / (1 + gain / loss), with the no-loss case apart. */
  function RsiValue(avgGain: real, avgLoss: real): real
    requires avgGain >= 0.0 && avgLoss >= 0.0
  {
    if avgLoss == 0.0 then (if avgGain > 0.0 then 100.0 else 0.0)
    else 100.0 - 100.0 / (1.0 + avgGain / avgLoss)
  }

  /**
   * For non-negative averages the RSI lies in [0, 100]; it is 100 exactly
   * when there was a gain and no loss, and 0 exactly when there was no gain.
   */
  lemma RsiValueBetween(avgGain: real, avgLoss: real)
    requires avgGain >= 0.0 && avgLoss >= 0.0
    ensures 0.0 <= RsiValue(avgGain, avgLoss) <= 100.0
    ensures RsiValue(avgGain, avgLoss) == 100.0 <==> avgGain > 0.0 && avgLoss == 0.0
    ensures RsiValue(avgGain, avgLoss) == 0.0 <==> avgGain == 0.0
  {
    if avgLoss != 0.0 {
      var rs := avgGain / avgLoss;
      assert rs >= 0.0;
      assert rs == 0.0 <==> avgGain == 0.0 by {
        assert rs * avgLoss == avgGain;
      }
      var q := 100.0 / (1.0 + rs);
      assert q * (1.0 + rs) == 100.0;
      assert 0.0 < q;
      assert q <= 100.0;
      assert q == 100.0 <==> rs == 0.0 by {
        if q == 100.0 {
          assert 100.0 * rs == 0.0;
        }
      }
    }
  }

  /** The RSI series: NaN for the first period points, then the RSI of the smoothed averages. */
  function RsiSeries(data: seq<real>, period: nat): (r: seq<Num>)
    requires 1 <= period && period + 1 <= |data|
    ensures |r| == |data|
    ensures forall i :: 0 <= i < |data| ==> (r[i].Val? <==> i >= period)
  {
    seq(|data|, i requires 0 <= i < |data| => if i < period then NaN else Val(RsiAt(data, period, i)))
  }

  /** The RSI at index i from the smoothed gains and losses up to i. */
  function RsiAt(data: seq<real>, period: nat, i: nat): real
    requires 1 <= period && period + 1 <= |data| && period <= i < |data|
  {
    RsiValue(AverageAt(Gains(data), period, i), AverageAt(Losses(data), period, i))
  }

  /** relative_strength_index with each step reading the change that ends at its own index. */
  function Rsi(data: seq<real>, period: int): (r: Result<seq<Num>, IndicatorError>)
    ensures r.Ok? <==> 1 <= period && period + 1 <= |data|
    ensures |data| < period + 1 ==> r == Err(InsufficientData(period + 1, |data|))
    ensures r.Ok? ==> r.value == RsiSeries(data, period)
  {
    if |data| < period + 1 then Err(InsufficientData(period + 1, |data|))
    else if period < 1 then Err(InvalidPeriod)
    else Ok(RsiSeries(data, period))
  }

  /** Every RSI value lies in [0, 100]. */
  lemma RsiBetween(data: seq<real>, period: nat)
    requires 1 <= period && period + 1 <= |data|
    ensures Between(RsiSeries(data, period), 0.0, 100.0)
  {
    var r := RsiSeries(data, period);
    var gains := Gains(data);
    var losses := Losses(data);
    forall i | 0 <= i < |r| && r[i].Val?
      ensures 0.0 <= r[i].value <= 100.0
    {
      RsiValueBetween(AverageAt(gains, period, i), AverageAt(losses, period, i));
    }
  }

  /** A series that only rises has an RSI of 100 wherever it is defined. */
  lemma {:induction false} RisingRsi(data: seq<real>, period: nat, i: nat)
    requires 1 <= period && period + 1 <= |data| && period <= i < |data|
    requires forall k :: 0 <= k < |data| - 1 ==> data[k] < data[k + 1]
    ensures RsiSeries(data, period)[i] == Val(100.0)
  {
    var gains := Gains(data);
    var losses := Losses(data);
    forall k | 0 <= k < |gains|
      ensures gains[k] > 0.0 && losses[k] == 0.0
    {
      GainsAndLosses(data, k);
    }
    AverageAtZero(losses, period, i);
    AverageAtPositive(gains, period, i);
    RsiValueBetween(AverageAt(gains, period, i), AverageAt(losses, period, i));
  }

  lemma {:induction false} AverageAtZero(xs: seq<real>, period: nat, i: nat)
    requires 1 <= period <= |xs| && period - 1 <= i <= |xs|
    requires forall k :: 0 <= k < |xs| ==> xs[k] == 0.0
    ensures AverageAt(xs, period, i) == 0.0
    decreases i
  {
    if i == period - 1 {
      var w := xs[..period];
      assert forall k :: 0 <= k < |w| ==> w[k] == xs[k];
      MeanBounds(w, 0.0, 0.0);
    } else {
      AverageAtZero(xs, period, i - 1);
    }
  }

  lemma {:induction false} AverageAtPositive(xs: seq<real>, period: nat, i: nat)
    requires 1 <= period <= |xs| && period - 1 <= i <= |xs|
    requires forall k :: 0 <= k < |xs| ==> xs[k] > 0.0
    ensures AverageAt(xs, period, i) > 0.0
    decreases i
  {
    if i == period - 1 {
      var w := xs[..period];
      assert forall k :: 0 <= k < |w| ==> w[k] == xs[k];
      SumAtLeastLast(w);
      assert w[period - 1] / (period as real) <= Sum(w) / (period as real) by { assert Sum(w) / (period as real) - w[period - 1] / (period as real) == (Sum(w) - w[period - 1]) / (period as real); }
    } else {
      AverageAtPositive(xs, period, i - 1);
    }
  }

  /**
   * relative_strength_index as written: every step reads gains[i], so the
   * last step, at index len(data) - 1, indexes one past the end of the
   * len(data) - 1 changes. Every input that passes validation ends in
   * that IndexError.
   */
  function RsiAsWritten(data: seq<real>, period: int): (r: Result<seq<Num>, IndicatorError>)
    ensures r.Err?
    ensures 1 <= period && period + 1 <= |data| ==> r == Err(IndexOutOfRange)
    ensures Rsi(data, period).Err? ==> r == Rsi(data, period)
  {
    if |data| < period + 1 then Err(InsufficientData(period + 1, |data|))
    else if period < 1 then Err(InvalidPeriod)
    else Err(IndexOutOfRange)
  }

  /** relative_strength_index as written, step by step up to the failing index. */
  method RelativeStrengthIndexAsWritten(data: seq<real>, period: int) returns (r: Result<seq<Num>, IndicatorError>)
    ensures r == RsiAsWritten(data, period)
  {
    if |data| < period + 1 {
      return Err(InsufficientData(period + 1, |data|));
    }
    if period < 1 {
      return Err(InvalidPeriod);
    }
    var gains := Gains(data);
    var losses := Losses(data);
    var rsi := new Num[|data|](_ => Val(0.0));
    var avgGain := Mean(gains[..period]);
    var avgLoss := Mean(losses[..period]);
    // Steps period .. len(data) - 2 read gains[i] and losses[i] in range.
    MeanPrefixNonNegative(gains, period);
    MeanPrefixNonNegative(losses, period);
    for i := period to |gains|
      invariant avgGain >= 0.0 && avgLoss >= 0.0
    {
      avgGain := Smooth(avgGain, gains[i], period);
      avgLoss := Smooth(avgLoss, losses[i], period);
      rsi[i] := Val(RsiValue(avgGain, avgLoss));
    }
    // The step at index len(data) - 1 reads gains[len(data) - 1], one past the end.
    return Err(IndexOutOfRange);
  }

  /** relative_strength_index, reading at each index the change that ends there. */
  method RelativeStrengthIndex(data: seq<real>, period: int) returns (r: Result<seq<Num>, IndicatorError>)
    ensures r == Rsi(data, period)
  {
    if |data| < period + 1 {
      return Err(InsufficientData(period + 1, |data|));
    }
    if period < 1 {
      return Err(InvalidPeriod);
    }
    var rsi := FillRsi(data, period);
    return Ok(rsi);
  }

  /** The array of relative_strength_index after validation. */
  method FillRsi(data: seq<real>, period: nat) returns (r: seq<Num>)
    requires 1 <= period && period + 1 <= |data|
    ensures r == RsiSeries(data, period)
  {
    var rsi := new Num[|data|](_ => Val(0.0));
    forall k | 0 <= k < period {
      rsi[k] := NaN;
    }
    SmoothRsi(data, period, rsi);
    r := rsi[..];
    assert forall k :: 0 <= k < |data| ==> r[k] == RsiSeries(data, period)[k];
  }

  /** The loop of relative_strength_index: the smoothed averages and the RSI from index period on. */
  method SmoothRsi(data: seq<real>, period: nat, rsi: array<Num>)
    requires 1 <= period && period + 1 <= |data| && rsi.Length == |data|
    modifies rsi
    ensures forall k :: 0 <= k < period ==> rsi[k] == old(rsi[k])
    ensures forall k :: period <= k < |data| ==> rsi[k] == Val(RsiAt(data, period, k))
  {
    var gains := Gains(data);
    var losses := Losses(data);
    var avgGain := Mean(gains[..period]);
    var avgLoss := Mean(losses[..period]);
    for i := period to |data|
      invariant avgGain == AverageAt(gains, period, i - 1) && avgLoss == AverageAt(losses, period, i - 1)
      invariant forall k :: 0 <= k < period ==> rsi[k] == old(rsi[k])
      invariant forall k :: period <= k < i ==> rsi[k] == Val(RsiAt(data, period, k))
    {
      avgGain := Smooth(avgGain, gains[i - 1], period);
      avgLoss := Smooth(avgLoss, losses[i - 1], period);
      rsi[i] := Val(RsiValue(avgGain, avgLoss));
    }
  }

  // ---------------------------------------------------------------------
  // MACD

  datatype MacdResult = MacdResult(macdLine: seq<Num>, signalLine: seq<Num>, histogram: seq<Num>)

  /** The MACD line: the fast EMA minus the slow EMA, NaN where either is. */
  function MacdLine(data: seq<real>, fast: nat, slow: nat): (r: seq<Num>)
    requires 1 <= fast < slow <= |data|
    ensures |r| == |data|
    ensures forall i :: 0 <= i < |data| ==> (r[i].Val? <==> i >= slow - 1)
  {
    var emaFast := EmaSeries(data, fast);
    var emaSlow := EmaSeries(data, slow);
    seq(|data|, i requires 0 <= i < |data| => Diff(emaFast[i], emaSlow[i]))
  }

  /**
   * The EMA of a series' values placed at its end, or all NaN when there
   * are fewer values than the period: MACD's signal line and the
   * stochastic %D.
   */
  function AlignedEma(s: seq<Num>, period: nat): (r: seq<Num>)
    requires period >= 1
    ensures |r| == |s|
  {
    var valid := ValidValues(s);
    if |valid| < period then seq(|s|, _ => NaN)
    else RightAlign(EmaSeries(valid, period), |s|)
  }

  /** Slot-wise NaN-propagating difference of two series. */
  function DiffSeries(a: seq<Num>, b: seq<Num>): (r: seq<Num>)
    requires |a| == |b|
    ensures |r| == |a|
    ensures forall i :: 0 <= i < |a| ==> r[i] == Diff(a[i], b[i])
  {
    seq(|a|, i requires 0 <= i < |a| => Diff(a[i], b[i]))
  }

  /** moving_average_convergence_divergence: the three lines, or the validation error. */
  function Macd(data: seq<real>, fast: int, slow: int, signal: int): (r: Result<MacdResult, IndicatorError>)
    ensures r.Ok? <==> 1 <= fast < slow && signal >= 1 && slow + 1 <= |data|
    ensures |data| < slow + 1 ==> r == Err(InsufficientData(slow + 1, |data|))
    ensures r.Ok? ==>
      && |r.value.macdLine| == |r.value.signalLine| == |r.value.histogram| == |data|
      && r.value.macdLine == MacdLine(data, fast, slow)
      && r.value.signalLine == AlignedEma(r.value.macdLine, signal)
      && r.value.histogram == DiffSeries(r.value.macdLine, r.value.signalLine)
  {
    if |data| < slow + 1 then Err(InsufficientData(slow + 1, |data|))
    else if fast < 1 || slow < 1 || signal < 1 then Err(InvalidPeriod)
    else if fast >= slow then Err(PeriodOrder)
    else
      var macd := MacdLine(data, fast, slow);
      var signalLine := AlignedEma(macd, signal);
      Ok(MacdResult(macd, signalLine, DiffSeries(macd, signalLine)))
  }

  /**
   * Where the lines are defined: the MACD line from index slow - 1, the
   * signal line signal - 1 points later when there are enough MACD values
   * and nowhere otherwise, and the histogram wherever the signal line is,
   * as the MACD line minus the signal line.
   */
  lemma MacdShape(data: seq<real>, fast: nat, slow: nat, signal: nat, i: nat)
    requires 1 <= fast < slow && signal >= 1 && slow + 1 <= |data| && i < |data|
    ensures var m := Macd(data, fast, slow, signal).value;
      && (m.macdLine[i].Val? <==> i >= slow - 1)
      && (m.signalLine[i].Val? <==> |data| - slow + 1 >= signal && i >= slow + signal - 2)
      && (m.histogram[i].Val? <==> m.signalLine[i].Val?)
      && (m.histogram[i].Val? ==> m.histogram[i].value == m.macdLine[i].value - m.signalLine[i].value)
  {
    var macd := MacdLine(data, fast, slow);
    AlignedEmaShape(macd, slow - 1, signal, i);
  }

  /** A series defined from index `start` on keeps, after its EMA is right-aligned, values exactly from `start + period - 1` on. */
  lemma AlignedEmaShape(s: seq<Num>, start: nat, period: nat, i: nat)
    requires start <= |s| && period >= 1 && i < |s|
    requires forall j :: 0 <= j < |s| ==> (s[j].Val? <==> j >= start)
    ensures AlignedEma(s, period)[i].Val? <==> |s| - start >= period && i >= start + period - 1
  {
    ValidSuffix(s, start);
    var valid := ValidValues(s);
    if |valid| >= period {
      var e := EmaSeries(valid, period);
      if i >= |s| - |e| {
        assert AlignedEma(s, period)[i] == e[i - (|s| - |e|)];
      }
    }
  }

  /** The lines of a constant series are zero wherever they are defined. */
  lemma MacdOfConstant(data: seq<real>, fast: nat, slow: nat, signal: nat, c: real)
    requires 1 <= fast < slow && signal >= 1 && slow + 1 <= |data|
    requires forall k :: 0 <= k < |data| ==> data[k] == c
    ensures var m := Macd(data, fast, slow, signal).value;
      Between(m.macdLine, 0.0, 0.0) && Between(m.signalLine, 0.0, 0.0) && Between(m.histogram, 0.0, 0.0)
  {
    var macd := MacdLine(data, fast, slow);
    MacdLineOfConstant(data, fast, slow, c);
    AlignedEmaBetween(macd, signal, 0.0, 0.0);
    var signalLine := AlignedEma(macd, signal);
    var histogram := DiffSeries(macd, signalLine);
    assert Between(histogram, 0.0, 0.0) by {
      forall i | 0 <= i < |histogram| && histogram[i].Val?
        ensures histogram[i].value == 0.0
      {
        assert macd[i].Val? && signalLine[i].Val?;
      }
    }
  }

  lemma MacdLineOfConstant(data: seq<real>, fast: nat, slow: nat, c: real)
    requires 1 <= fast < slow <= |data|
    requires forall k :: 0 <= k < |data| ==> data[k] == c
    ensures Between(MacdLine(data, fast, slow), 0.0, 0.0)
  {
    EmaBetween(data, fast, c, c);
    EmaBetween(data, slow, c, c);
  }

  /** Placing values at the end keeps their bounds. */
  lemma RightAlignBetween(t: seq<Num>, n: nat, lo: real, hi: real)
    requires |t| <= n && Between(t, lo, hi)
    ensures Between(RightAlign(t, n), lo, hi)
  {
    var r := RightAlign(t, n);
    forall i | 0 <= i < n && r[i].Val?
      ensures lo <= r[i].value <= hi
    {
      assert r[i] == t[i - (n - |t|)];
    }
  }

  /** An EMA of the valid values, placed at the end, keeps the bounds of the series. */
  lemma AlignedEmaBetween(s: seq<Num>, period: nat, lo: real, hi: real)
    requires period >= 1 && Between(s, lo, hi)
    ensures Between(AlignedEma(s, period), lo, hi)
  {
    var valid := ValidValues(s);
    ValidValuesBetween(s, lo, hi);
    if |valid| >= period {
      EmaBetween(valid, period, lo, hi);
      RightAlignBetween(EmaSeries(valid, period), |s|, lo, hi);
    }
  }

  /** An SMA of the valid values, placed at the end, keeps the bounds of the series. */
  lemma SmoothedKBetween(kRaw: seq<Num>, smoothK: nat, lo: real, hi: real)
    requires smoothK >= 1 && Between(kRaw, lo, hi)
    ensures Between(SmoothedK(kRaw, smoothK), lo, hi)
  {
    var valid := ValidValues(kRaw);
    ValidValuesBetween(kRaw, lo, hi);
    if |valid| >= smoothK {
      SmaBetween(valid, smoothK, lo, hi);
      RightAlignBetween(SmaSeries(valid, smoothK), |kRaw|, lo, hi);
    }
  }

  // ---------------------------------------------------------------------
  // Average true range

  /** The true range of bar i: the bar's range for the first bar, else the widest of the range and the gaps to the previous close. */
  function TrueRange(high: seq<real>, low: seq<real>, close: seq<real>, i: nat): (tr: real)
    requires |high| == |low| == |close| && i < |high|
    ensures tr >= high[i] - low[i]
    ensures i > 0 ==> tr >= Abs(high[i] - close[i - 1]) && tr >= Abs(low[i] - close[i - 1])
    ensures i > 0 ==> tr == high[i] - low[i] || tr == Abs(high[i] - close[i - 1]) || tr == Abs(low[i] - close[i - 1])
    ensures i == 0 ==> tr == high[0] - low[0]
  {
    if i == 0 then high[0] - low[0]
    else Max(Max(high[i] - low[i], Abs(high[i] - close[i - 1])), Abs(low[i] - close[i - 1]))
  }

  function TrueRanges(high: seq<real>, low: seq<real>, close: seq<real>): (trs: seq<real>)
    requires |high| == |low| == |close|
    ensures |trs| == |high|
    ensures forall i :: 0 <= i < |high| ==> trs[i] == TrueRange(high, low, close, i)
  {
    seq(|high|, i requires 0 <= i < |high| => TrueRange(high, low, close, i))
  }

  /** average_true_range: the EMA of the true ranges, or the validation error. */
  function Atr(high: seq<real>, low: seq<real>, close: seq<real>, period: int): (r: Result<seq<Num>, IndicatorError>)
    ensures r.Ok? <==> 1 <= period && period + 1 <= |high| && |high| == |low| == |close|
    ensures r.Ok? ==> r.value == EmaSeries(TrueRanges(high, low, close), period)
  {
    var _ :- ValidateData(high, period + 1);
    var _ :- ValidateData(low, period + 1);
    var _ :- ValidateData(close, period + 1);
    if !(|high| == |low| == |close|) then Err(LengthMismatch)
    else if period < 1 then Err(InvalidPeriod)
    else Ok(EmaSeries(TrueRanges(high, low, close), period))
  }

  /** With every high at or above its low, every ATR value is non-negative and at most the widest true range. */
  lemma AtrBetween(high: seq<real>, low: seq<real>, close: seq<real>, period: nat)
    requires 1 <= period && period + 1 <= |high| && |high| == |low| == |close|
    requires forall k :: 0 <= k < |high| ==> low[k] <= high[k]
    ensures var trs := TrueRanges(high, low, close);
      Between(Atr(high, low, close, period).value, 0.0, SeqMax(trs))
  {
    var trs := TrueRanges(high, low, close);
    EmaBetween(trs, period, 0.0, SeqMax(trs));
  }

  /** average_true_range: the true ranges filled bar by bar, then their EMA. */
  method AverageTrueRange(high: seq<real>, low: seq<real>, close: seq<real>, period: int)
    returns (r: Result<seq<Num>, IndicatorError>)
    ensures r == Atr(high, low, close, period)
  {
    if |high| < period + 1 {
      return Err(InsufficientData(period + 1, |high|));
    }
    if |low| < period + 1 {
      return Err(InsufficientData(period + 1, |low|));
    }
    if |close| < period + 1 {
      return Err(InsufficientData(period + 1, |close|));
    }
    if !(|high| == |low| == |close|) {
      return Err(LengthMismatch);
    }
    if period < 1 {
      return Err(InvalidPeriod);
    }
    var trs := FillTrueRanges(high, low, close);
    var atr := FillEma(trs, period);
    return Ok(atr);
  }

  /** The array tr of average_true_range. */
  method FillTrueRanges(high: seq<real>, low: seq<real>, close: seq<real>) returns (r: seq<real>)
    requires 1 <= |high| && |high| == |low| == |close|
    ensures r == TrueRanges(high, low, close)
  {
    var tr := new real[|high|](_ => 0.0);
    tr[0] := high[0] - low[0];
    for i := 1 to |high|
      invariant forall k :: 0 <= k < i ==> tr[k] == TrueRange(high, low, close, k)
    {
      tr[i] := Max(Max(high[i] - low[i], Abs(high[i] - close[i - 1])), Abs(low[i] - close[i - 1]));
    }
    r := tr[..];
  }

  // ---------------------------------------------------------------------
  // Stochastic oscillator

  datatype StochasticResult = StochasticResult(kPercent: seq<Num>, dPercent: seq<Num>)

  /**
   * The raw %K at index i: where the close sits in the window's range,
   * in percent; 50 when the window has no range.
   */
  function RawK(high: seq<real>, low: seq<real>, close: seq<real>, period: nat, i: nat): real
    requires |high| == |low| == |close| && 1 <= period && period - 1 <= i < |close|
  {
    KValue(close[i], SeqMin(low[i + 1 - period..i + 1]), SeqMax(high[i + 1 - period..i + 1]))
  }

  /** Where a close sits in a range, in percent; 50 for an empty range. */
  function KValue(close: real, lowestLow: real, highestHigh: real): real
  {
    var denominator := highestHigh - lowestLow;
    if denominator == 0.0 then 50.0 else 100.0 * (close - lowestLow) / denominator
  }

  /** A close within the range has a K value in [0, 100]. */
  lemma KValueBetween(close: real, lowestLow: real, highestHigh: real)
    requires lowestLow <= close <= highestHigh
    ensures 0.0 <= KValue(close, lowestLow, highestHigh) <= 100.0
  {
    var denominator := highestHigh - lowestLow;
    if denominator != 0.0 {
      var x := 100.0 * (close - lowestLow);
      assert 0.0 <= x <= 100.0 * denominator;
      assert 0.0 <= x / denominator;
      assert x / denominator <= (100.0 * denominator) / denominator by { assert (100.0 * denominator) / denominator - x / denominator == ((100.0 * denominator) - x) / denominator; }
    }
  }

  /** A bar whose close lies within its own low and high. */
  predicate Ordered(high: seq<real>, low: seq<real>, close: seq<real>)
    requires |high| == |low| == |close|
  {
    forall k :: 0 <= k < |close| ==> low[k] <= close[k] <= high[k]
  }

  /** When every close lies within its bar, the raw %K lies in [0, 100]. */
  lemma RawKBetween(high: seq<real>, low: seq<real>, close: seq<real>, period: nat, i: nat)
    requires |high| == |low| == |close| && 1 <= period && period - 1 <= i < |close|
    requires Ordered(high, low, close)
    ensures 0.0 <= RawK(high, low, close, period, i) <= 100.0
  {
    var lows := low[i + 1 - period..i + 1];
    var highs := high[i + 1 - period..i + 1];
    var lowestLow := SeqMin(lows);
    var highestHigh := SeqMax(highs);
    assert lowestLow <= low[i] by { assert lows[period - 1] == low[i]; }
    assert high[i] <= highestHigh by { assert highs[period - 1] == high[i]; }
    KValueBetween(close[i], lowestLow, highestHigh);
  }

  /** The raw %K series: NaN before the first full window. */
  function RawKSeries(high: seq<real>, low: seq<real>, close: seq<real>, period: nat): (r: seq<Num>)
    requires |high| == |low| == |close| && 1 <= period <= |close|
    ensures |r| == |close|
    ensures forall i :: 0 <= i < |close| ==> (r[i].Val? <==> i >= period - 1)
  {
    seq(|close|, i requires 0 <= i < |close| =>
      if i < period - 1 then NaN else Val(RawK(high, low, close, period, i)))
  }

  /** %K: the SMA of the raw values placed at the end, or the raw values when there are too few. */
  function SmoothedK(kRaw: seq<Num>, smoothK: nat): (r: seq<Num>)
    requires smoothK >= 1
    ensures |r| == |kRaw|
  {
    var valid := ValidValues(kRaw);
    if |valid| >= smoothK then RightAlign(SmaSeries(valid, smoothK), |kRaw|) else kRaw
  }

  /** stochastic_oscillator: %K and %D, or the validation error. */
  function Stochastic(high: seq<real>, low: seq<real>, close: seq<real>, period: int, smoothK: int, smoothD: int)
    : (r: Result<StochasticResult, IndicatorError>)
    ensures r.Ok? <==> && 1 <= period <= |close| && |high| == |low| == |close|
                       && smoothK >= 1 && smoothD >= 1
    ensures r.Ok? ==>
      && r.value.kPercent == SmoothedK(RawKSeries(high, low, close, period), smoothK)
      && r.value.dPercent == AlignedEma(r.value.kPercent, smoothD)
  {
    var _ :- ValidateData(high, period);
    var _ :- ValidateData(low, period);
    var _ :- ValidateData(close, period);
    if !(|high| == |low| == |close|) then Err(LengthMismatch)
    else if period < 1 then Err(InvalidPeriod)
    else if smoothK < 1 || smoothD < 1 then Err(InvalidPeriod)
    else
      var kPercent := SmoothedK(RawKSeries(high, low, close, period), smoothK);
      Ok(StochasticResult(kPercent, AlignedEma(kPercent, smoothD)))
  }

  /** When every close lies within its bar, %K and %D lie in [0, 100]. */
  lemma StochasticBetween(high: seq<real>, low: seq<real>, close: seq<real>, period: nat, smoothK: nat, smoothD: nat)
    requires 1 <= period <= |close| && |high| == |low| == |close| && smoothK >= 1 && smoothD >= 1
    requires Ordered(high, low, close)
    ensures var st := Stochastic(high, low, close, period, smoothK, smoothD).value;
      Between(st.kPercent, 0.0, 100.0) && Between(st.dPercent, 0.0, 100.0)
  {
    var kRaw := RawKSeries(high, low, close, period);
    assert Between(kRaw, 0.0, 100.0) by {
      forall i | 0 <= i < |kRaw| && kRaw[i].Val?
        ensures 0.0 <= kRaw[i].value <= 100.0
      {
        RawKBetween(high, low, close, period, i);
      }
    }
    SmoothedKBetween(kRaw, smoothK, 0.0, 100.0);
    AlignedEmaBetween(SmoothedK(kRaw, smoothK), smoothD, 0.0, 100.0);
  }

  /** stochastic_oscillator: the raw %K filled bar by bar, then the smoothing. */
  method StochasticOscillator(high: seq<real>, low: seq<real>, close: seq<real>, period: int, smoothK: int, smoothD: int)
    returns (r: Result<StochasticResult, IndicatorError>)
    ensures r == Stochastic(high, low, close, period, smoothK, smoothD)
  {
    if |high| < period {
      return Err(InsufficientData(period, |high|));
    }
    if |low| < period {
      return Err(InsufficientData(period, |low|));
    }
    if |close| < period {
      return Err(InsufficientData(period, |close|));
    }
    if !(|high| == |low| == |close|) {
      return Err(LengthMismatch);
    }
    if period < 1 {
      return Err(InvalidPeriod);
    }
    if smoothK < 1 || smoothD < 1 {
      return Err(InvalidPeriod);
    }
    var kRaw := FillRawK(high, low, close, period);
    var validK := ValidValues(kRaw);
    var kPercent := kRaw;
    if |validK| >= smoothK {
      kPercent := RightAlign(SmaSeries(validK, smoothK), |kRaw|);
    }
    var validSmooth := ValidValues(kPercent);
    var dPercent := seq(|kPercent|, _ => NaN);
    if |validSmooth| >= smoothD {
      var dTemp := FillEma(validSmooth, smoothD);
      dPercent := RightAlign(dTemp, |kPercent|);
    }
    return Ok(StochasticResult(kPercent, dPercent));
  }

  /** The array k_raw of stochastic_oscillator. */
  method FillRawK(high: seq<real>, low: seq<real>, close: seq<real>, period: nat) returns (r: seq<Num>)
    requires |high| == |low| == |close| && 1 <= period <= |close|
    ensures r == RawKSeries(high, low, close, period)
  {
    var kRaw := new Num[|close|](_ => Val(0.0));
    forall k | 0 <= k < period - 1 {
      kRaw[k] := NaN;
    }
    WindowKs(high, low, close, period, kRaw);
    r := kRaw[..];
    assert forall k :: 0 <= k < |close| ==> r[k] == RawKSeries(high, low, close, period)[k];
  }

  /** The loop of stochastic_oscillator: the raw %K of every full window. */
  method WindowKs(high: seq<real>, low: seq<real>, close: seq<real>, period: nat, kRaw: array<Num>)
    requires |high| == |low| == |close| && 1 <= period <= |close| && kRaw.Length == |close|
    modifies kRaw
    ensures forall k :: 0 <= k < period - 1 ==> kRaw[k] == old(kRaw[k])
    ensures forall k :: period - 1 <= k < |close| ==> kRaw[k] == Val(RawK(high, low, close, period, k))
  {
    for i := period - 1 to |close|
      invariant forall k :: 0 <= k < period - 1 ==> kRaw[k] == old(kRaw[k])
      invariant forall k :: period - 1 <= k < i ==> kRaw[k] == Val(RawK(high, low, close, period, k))
    {
      // lowest low and highest high of the window ending at i, folded into %K
      kRaw[i] := Val(RawK(high, low, close, period, i));
    }
  }

  // ---------------------------------------------------------------------
  // Volume-weighted average price

  /** The typical price of each bar: the mean of its high, low and close. */
  function TypicalPrices(high: seq<real>, low: seq<real>, close: seq<real>): (tp: seq<real>)
    requires |high| == |low| == |close|
    ensures |tp| == |close|
  {
    seq(|close|, i requires 0 <= i < |close| => (high[i] + low[i] + close[i]) / 3.0)
  }

  /** A price weighted by a volume. */
  function Weight(price: real, volume: real): real
  {
    price * volume
  }

  /** Each typical price weighted by its volume. */
  function Weighted(tp: seq<real>, volume: seq<real>): (w: seq<real>)
    requires |tp| == |volume|
    ensures |w| == |tp|
    ensures forall i :: 0 <= i < |tp| ==> w[i] == Weight(tp[i], volume[i])
  {
    seq(|tp|, i requires 0 <= i < |tp| => Weight(tp[i], volume[i]))
  }

  /** The VWAP series: cumulative weighted price over cumulative volume, NaN while that volume is not positive. */
  function VwapSeries(high: seq<real>, low: seq<real>, close: seq<real>, volume: seq<real>): (r: seq<Num>)
    requires |high| == |low| == |close| == |volume|
    ensures |r| == |close|
  {
    var weighted := Weighted(TypicalPrices(high, low, close), volume);
    seq(|close|, i requires 0 <= i < |close| => VwapAt(weighted, volume, i))
  }

  /** The VWAP after bar i from the weighted prices and volumes up to it. */
  function VwapAt(weighted: seq<real>, volume: seq<real>, i: nat): Num
    requires i < |weighted| == |volume|
  {
    var cumulativeVolume := Sum(volume[..i + 1]);
    if cumulativeVolume > 0.0 then Val(Sum(weighted[..i + 1]) / cumulativeVolume) else NaN
  }

  /** volume_weighted_average_price: the VWAP series, or the validation error. */
  function Vwap(high: seq<real>, low: seq<real>, close: seq<real>, volume: seq<real>)
    : (r: Result<seq<Num>, IndicatorError>)
    ensures r.Ok? <==> |high| >= 1 && |high| == |low| == |close| == |volume|
    ensures r.Ok? ==> r.value == VwapSeries(high, low, close, volume)
  {
    var _ :- ValidateData(high, 1);
    var _ :- ValidateData(low, 1);
    var _ :- ValidateData(close, 1);
    var _ :- ValidateData(volume, 1);
    if !(|high| == |low| == |close| == |volume|) then Err(LengthMismatch)
    else Ok(VwapSeries(high, low, close, volume))
  }

  /** Weighting commutes with taking a prefix. */
  lemma WeightedPrefix(tp: seq<real>, volume: seq<real>, n: nat)
    requires |tp| == |volume| && n <= |tp|
    ensures Weighted(tp, volume)[..n] == Weighted(tp[..n], volume[..n])
  {
  }

  /** The weighted sum and the volume sum both split off their last term. */
  lemma WeightedSumSplit(tp: seq<real>, volume: seq<real>)
    requires |tp| == |volume| > 0
    ensures Sum(volume) == Sum(volume[..|tp| - 1]) + volume[|tp| - 1]
    ensures Sum(Weighted(tp, volume))
      == Sum(Weighted(tp[..|tp| - 1], volume[..|tp| - 1])) + Weight(tp[|tp| - 1], volume[|tp| - 1])
  {
    WeightedPrefix(tp, volume, |tp| - 1);
  }

  /** Weighting one constant price by every volume gives that price times the total volume. */
  lemma {:induction false} WeightedConstant(price: real, volume: seq<real>)
    ensures Sum(Weighted(seq(|volume|, _ => price), volume)) == price * Sum(volume)
    decreases |volume|
  {
    var tp := seq(|volume|, _ => price);
    if |volume| > 0 {
      var n := |volume| - 1;
      assert tp[..n] == seq(n, _ => price);
      WeightedConstant(price, volume[..n]);
      WeightedSumSplit(tp, volume);
      assert price * Sum(volume) == price * Sum(volume[..n]) + price * volume[n];
    }
  }

  /** Weighting values in [lo, hi] by non-negative volumes keeps the weighted sum within the volume's multiples. */
  lemma WeightedSumBetween(tp: seq<real>, volume: seq<real>, lo: real, hi: real)
    requires |tp| == |volume|
    requires forall k :: 0 <= k < |tp| ==> lo <= tp[k] <= hi && volume[k] >= 0.0
    ensures lo * Sum(volume) <= Sum(Weighted(tp, volume)) <= hi * Sum(volume)
  {
    var low, high := seq(|tp|, _ => lo), seq(|tp|, _ => hi);
    forall k | 0 <= k < |tp|
      ensures Weight(lo, volume[k]) <= Weight(tp[k], volume[k]) <= Weight(hi, volume[k])
    {
      assert (tp[k] - lo) * volume[k] >= 0.0;
      assert (hi - tp[k]) * volume[k] >= 0.0;
    }
    SumMonotone(Weighted(low, volume), Weighted(tp, volume));
    SumMonotone(Weighted(tp, volume), Weighted(high, volume));
    WeightedConstant(lo, volume);
    WeightedConstant(hi, volume);
  }

  /**
   * With positive volumes every VWAP value is defined and lies between the
   * lowest and highest typical price.
   */
  lemma VwapBetween(high: seq<real>, low: seq<real>, close: seq<real>, volume: seq<real>, i: nat)
    requires |high| == |low| == |close| == |volume| && i < |close|
    requires forall k :: 0 <= k < |volume| ==> volume[k] > 0.0
    ensures var tp := TypicalPrices(high, low, close);
      && VwapSeries(high, low, close, volume)[i].Val?
      && SeqMin(tp) <= VwapSeries(high, low, close, volume)[i].value <= SeqMax(tp)
  {
    var tp := TypicalPrices(high, low, close);
    VwapAtBetween(tp, volume, i, SeqMin(tp), SeqMax(tp));
  }

  lemma VwapAtBetween(tp: seq<real>, volume: seq<real>, i: nat, lo: real, hi: real)
    requires |tp| == |volume| && i < |tp|
    requires forall k :: 0 <= k < |volume| ==> volume[k] > 0.0 && lo <= tp[k] <= hi
    ensures VwapAt(Weighted(tp, volume), volume, i).Val?
    ensures lo <= VwapAt(Weighted(tp, volume), volume, i).value <= hi
  {
    var v := volume[..i + 1];
    var t := tp[..i + 1];
    assert forall k :: 0 <= k < |v| ==> v[k] == volume[k] && t[k] == tp[k];
    SumAtLeastLast(v);
    WeightedSumBetween(t, v, lo, hi);
    WeightedPrefix(tp, volume, i + 1);
    RatioBetween(Sum(Weighted(t, v)), Sum(v), lo, hi);
  }

  lemma RatioBetween(w: real, c: real, lo: real, hi: real)
    requires c > 0.0 && lo * c <= w <= hi * c
    ensures lo <= w / c <= hi
  {
    assert (lo * c) / c <= w / c by { assert w / c - (lo * c) / c == (w - (lo * c)) / c; }
    assert w / c <= (hi * c) / c by { assert (hi * c) / c - w / c == ((hi * c) - w) / c; }
  }

  /** volume_weighted_average_price, accumulating the sums bar by bar. */
  method VolumeWeightedAveragePrice(high: seq<real>, low: seq<real>, close: seq<real>, volume: seq<real>)
    returns (r: Result<seq<Num>, IndicatorError>)
    ensures r == Vwap(high, low, close, volume)
  {
    if |high| < 1 {
      return Err(InsufficientData(1, |high|));
    }
    if |low| < 1 {
      return Err(InsufficientData(1, |low|));
    }
    if |close| < 1 {
      return Err(InsufficientData(1, |close|));
    }
    if |volume| < 1 {
      return Err(InsufficientData(1, |volume|));
    }
    if !(|high| == |low| == |close| == |volume|) {
      return Err(LengthMismatch);
    }
    var vwap := FillVwap(high, low, close, volume);
    return Ok(vwap);
  }

  /** The loop of volume_weighted_average_price. */
  method FillVwap(high: seq<real>, low: seq<real>, close: seq<real>, volume: seq<real>) returns (r: seq<Num>)
    requires |high| == |low| == |close| == |volume|
    ensures r == VwapSeries(high, low, close, volume)
  {
    var typicalPrice := TypicalPrices(high, low, close);
    ghost var weighted := Weighted(typicalPrice, volume);
    var vwap := new Num[|close|](_ => Val(0.0));
    var cumulativeTpVol := 0.0;
    var cumulativeVol := 0.0;
    for i := 0 to |close|
      invariant cumulativeTpVol == Sum(weighted[..i]) && cumulativeVol == Sum(volume[..i])
      invariant forall k :: 0 <= k < i ==> vwap[k] == VwapSeries(high, low, close, volume)[k]
    {
      assert weighted[..i + 1][..i] == weighted[..i];
      assert volume[..i + 1][..i] == volume[..i];
      cumulativeTpVol := cumulativeTpVol + Weight(typicalPrice[i], volume[i]);
      cumulativeVol := cumulativeVol + volume[i];
      if cumulativeVol > 0.0 {
        vwap[i] := Val(cumulativeTpVol / cumulativeVol);
      } else {
        vwap[i] := NaN;
      }
    }
    r := vwap[..];
    assert forall k :: 0 <= k < |close| ==> r[k] == VwapSeries(high, low, close, volume)[k];
  }

  // ---------------------------------------------------------------------
  // Indicator summary

  /** A price table: the names of its columns and its rows. */
  datatype Frame = Frame(columns: set<string>, rows: seq<Bar>)

  const RequiredColumns: seq<string> := ["open", "high", "low", "close", "volume"]

  /** Every indicator get_indicator_summary computes except the Bollinger bands. */
  datatype Summary = Summary(
    symbol: string,
    sma20: seq<Num>,
    sma50: seq<Num>,
    ema12: seq<Num>,
    ema26: seq<Num>,
    rsi14: seq<Num>,
    macd: MacdResult,
    atr14: seq<Num>,
    stochastic: StochasticResult,
    vwap: seq<Num>)

  /** The required columns the table lacks, in the required order. */
  function Missing(columns: set<string>, required: seq<string>): (r: seq<string>)
    ensures forall c :: c in r <==> c in required && c !in columns
    ensures |r| <= |required|
  {
    if |required| == 0 then []
    else
      var last := required[|required| - 1];
      var front := required[..|required| - 1];
      assert required == front + [last];
      Missing(columns, front) + (if last in columns then [] else [last])
  }

  function Highs(rows: seq<Bar>): (r: seq<real>)
    ensures |r| == |rows| && forall i :: 0 <= i < |rows| ==> r[i] == rows[i].high
  {
    seq(|rows|, i requires 0 <= i < |rows| => rows[i].high)
  }

  function Lows(rows: seq<Bar>): (r: seq<real>)
    ensures |r| == |rows| && forall i :: 0 <= i < |rows| ==> r[i] == rows[i].low
  {
    seq(|rows|, i requires 0 <= i < |rows| => rows[i].low)
  }

  function Closes(rows: seq<Bar>): (r: seq<real>)
    ensures |r| == |rows| && forall i :: 0 <= i < |rows| ==> r[i] == rows[i].close
  {
    seq(|rows|, i requires 0 <= i < |rows| => rows[i].close)
  }

  function Volumes(rows: seq<Bar>): (r: seq<real>)
    ensures |r| == |rows| && forall i :: 0 <= i < |rows| ==> r[i] == rows[i].volume
  {
    seq(|rows|, i requires 0 <= i < |rows| => rows[i].volume)
  }

  /**
   * get_indicator_summary given the outcome of its RSI call: the column
   * check, then each indicator in turn, the first failure ending the
   * summary.
   */
  function SummaryWith(frame: Frame, symbol: string, rsi14: Result<seq<Num>, IndicatorError>)
    : (r: Result<Summary, IndicatorError>)
  {
    var missing := Missing(frame.columns, RequiredColumns);
    if |missing| > 0 then Err(MissingColumns(missing))
    else
      var high := Highs(frame.rows);
      var low := Lows(frame.rows);
      var close := Closes(frame.rows);
      var sma20 :- Sma(close, 20);
      var sma50 :- Sma(close, 50);
      var ema12 :- Ema(close, 12);
      var ema26 :- Ema(close, 26);
      var rsi :- rsi14;
      var macd :- Macd(close, 12, 26, 9);
      var atr14 :- Atr(high, low, close, 14);
      var stochastic :- Stochastic(high, low, close, 14, 3, 3);
      var vwap :- Vwap(high, low, close, Volumes(frame.rows));
      Ok(Summary(symbol, sma20, sma50, ema12, ema26, rsi, macd, atr14, stochastic, vwap))
  }

  /**
   * get_indicator_summary as written: its RSI call fails on every table
   * long enough to reach it, so no table yields a summary.
   */
  function IndicatorSummaryAsWritten(frame: Frame, symbol: string): (r: Result<Summary, IndicatorError>)
    ensures r.Err?
    ensures |Missing(frame.columns, RequiredColumns)| == 0 && |frame.rows| >= 50 ==> r == Err(IndexOutOfRange)
  {
    SummaryWith(frame, symbol, RsiAsWritten(Closes(frame.rows), 14))
  }

  /**
   * get_indicator_summary with the corrected RSI: a summary exactly when
   * every required column is present and there are at least 50 rows, the
   * longest window any of its indicators needs.
   */
  function IndicatorSummary(frame: Frame, symbol: string): (r: Result<Summary, IndicatorError>)
    ensures var missing := Missing(frame.columns, RequiredColumns);
      && (r.Ok? <==> |missing| == 0 && |frame.rows| >= 50)
      && (|missing| > 0 ==> r == Err(MissingColumns(missing)))
      && (|missing| == 0 && |frame.rows| < 50 ==> r.Err? && r.error.InsufficientData?)
      && (r.Ok? ==> r.value.symbol == symbol && r.value.rsi14 == RsiSeries(Closes(frame.rows), 14))
  {
    SummaryWith(frame, symbol, Rsi(Closes(frame.rows), 14))
  }
}
