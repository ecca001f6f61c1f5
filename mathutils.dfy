// Indicator maths of the live bot (mt5-ai-bot/src/utils/mathutils.py):
// the true range of each bar, the rolling-mean ATR and the span EMA
// (pandas ewm with adjust=False), as functions over bar sequences.

module MathUtils {
  import opened Common

  /**
   * True range of bar i: the largest of high-low and the distances of high
   * and low from the previous close. The first bar has no previous close;
   * pandas' row-wise max skips the NaN terms, leaving high-low.
   */
  function TrueRange(bars: seq<Bar>, i: nat): (tr: real)
    requires i < |bars|
    ensures tr >= bars[i].high - bars[i].low
    ensures i == 0 ==> tr == bars[i].high - bars[i].low
    ensures i > 0 ==> (tr >= Abs(bars[i].high - bars[i - 1].close)
                       && tr >= Abs(bars[i].low - bars[i - 1].close))
    ensures i > 0 ==> (tr == bars[i].high - bars[i].low
                       || tr == Abs(bars[i].high - bars[i - 1].close)
                       || tr == Abs(bars[i].low - bars[i - 1].close))
  {
    var range := bars[i].high - bars[i].low;
    if i == 0 then range
    else Max(Max(range, Abs(bars[i].high - bars[i - 1].close)), Abs(bars[i].low - bars[i - 1].close))
  }

  function TrueRanges(bars: seq<Bar>): (trs: seq<real>)
    ensures |trs| == |bars|
    ensures forall i :: 0 <= i < |bars| ==> trs[i] == TrueRange(bars, i)
  {
    seq(|bars|, i requires 0 <= i < |bars| => TrueRange(bars, i))
  }

  /**
   * ATR: the rolling mean of the true range over `period` bars, NaN until a
   * full window exists (rolling with min_periods = period).
   */
  function Atr(bars: seq<Bar>, period: nat): (a: seq<Num>)
    requires period >= 1
    ensures |a| == |bars|
    ensures forall i :: 0 <= i < |bars| ==> a[i] == AtrAt(TrueRanges(bars), period, i)
  {
    var trs := TrueRanges(bars);
    seq(|bars|, i requires 0 <= i < |bars| => AtrAt(trs, period, i))
  }

  /** The rolling mean at index i of a true-range series. */
  function AtrAt(trs: seq<real>, period: nat, i: nat): Num
    requires period >= 1 && i < |trs|
  {
    if i < period - 1 then NaN else Val(Sum(trs[i - period + 1 .. i + 1]) / (period as real))
  }

  /** A bar is well formed when its high is not below its low. */
  predicate WellFormed(bars: seq<Bar>)
  {
    forall i :: 0 <= i < |bars| ==> bars[i].low <= bars[i].high
  }

  /** ATR is undefined exactly below index period-1. */
  lemma AtrDefinedFrom(bars: seq<Bar>, period: nat, i: nat)
    requires period >= 1 && i < |bars|
    ensures Atr(bars, period)[i].NaN? <==> i < period - 1
    ensures i >= period - 1 ==>
      Atr(bars, period)[i] == Val(Sum(TrueRanges(bars)[i - period + 1 .. i + 1]) / (period as real))
  {
  }

  /** On well-formed bars the ATR is never negative. */
  lemma AtrNonNegative(bars: seq<Bar>, period: nat, i: nat)
    requires period >= 1 && i < |bars| && WellFormed(bars)
    ensures Atr(bars, period)[i].Val? ==> Atr(bars, period)[i].value >= 0.0
  {
    var trs := TrueRanges(bars);
    forall k | 0 <= k < |trs|
      ensures trs[k] >= 0.0
    {
      assert bars[k].low <= bars[k].high;
    }
    AtrAtNonNegative(trs, period, i);
  }

  /** A rolling mean of non-negative values is non-negative. */
  lemma AtrAtNonNegative(trs: seq<real>, period: nat, i: nat)
    requires period >= 1 && i < |trs| && forall k :: 0 <= k < |trs| ==> trs[k] >= 0.0
    ensures AtrAt(trs, period, i).Val? ==> AtrAt(trs, period, i).value >= 0.0
  {
    if i >= period - 1 {
      var w := trs[i - period + 1 .. i + 1];
      assert forall k :: 0 <= k < |w| ==> w[k] == trs[i - period + 1 + k];
      SumNonNegative(w);
      assert 0.0 <= Sum(w) / (period as real);
    }
  }

  /**
   * The rolling window slides by one bar: the window sum behind the next ATR
   * value gains the true range that enters and loses the one that leaves.
   */
  lemma AtrSlides(bars: seq<Bar>, period: nat, i: nat)
    requires period >= 1 && period - 1 <= i && i + 1 < |bars|
    ensures Atr(bars, period)[i + 1]
         == Val((Sum(TrueRanges(bars)[i + 1 - period .. i + 1])
                 + TrueRange(bars, i + 1) - TrueRange(bars, i + 1 - period)) / (period as real))
  {
    var trs := TrueRanges(bars);
    SumSlide(trs, i + 1 - period, i + 1);
  }

  /** Moving a window one step right adds the entering value and drops the leaving one. */
  lemma SumSlide(s: seq<real>, lo: nat, hi: nat)
    requires lo < hi < |s|
    ensures Sum(s[lo + 1 .. hi + 1]) == Sum(s[lo .. hi]) + s[hi] - s[lo]
  {
    assert s[lo .. hi] == [s[lo]] + s[lo + 1 .. hi];
    assert s[lo + 1 .. hi + 1] == s[lo + 1 .. hi] + [s[hi]];
    SumAppend([s[lo]], s[lo + 1 .. hi]);
    SumAppend(s[lo + 1 .. hi], [s[hi]]);
    assert Sum([s[lo]]) == s[lo] by {
      assert [s[lo]][..0] == [];
    }
    assert Sum([s[hi]]) == s[hi] by {
      assert [s[hi]][..0] == [];
    }
  }

  /**
   * The EMA recurrence with smoothing factor alpha: e[0] = x[0] and
   * e[i] = alpha * x[i] + (1 - alpha) * e[i-1] (pandas ewm, adjust=False).
   */
  function Ema(xs: seq<real>, alpha: real): (e: seq<real>)
    ensures |e| == |xs|
    decreases |xs|
  {
    if |xs| == 0 then []
    else if |xs| == 1 then [xs[0]]
    else
      var prev := Ema(xs[..|xs| - 1], alpha);
      prev + [alpha * xs[|xs| - 1] + (1.0 - alpha) * prev[|prev| - 1]]
  }

  /** The smoothing factor of ewm(span = period): 2 / (period + 1). */
  function SpanAlpha(period: nat): (alpha: real)
    requires period >= 1
    ensures 0.0 < alpha <= 1.0
  {
    2.0 / ((period + 1) as real)
  }

  function EmaSpan(xs: seq<real>, period: nat): (e: seq<real>)
    requires period >= 1
    ensures |e| == |xs|
  {
    Ema(xs, SpanAlpha(period))
  }

  /** An EMA prefix depends only on the inputs seen so far. */
  lemma {:induction false} EmaPrefix(xs: seq<real>, alpha: real, k: nat)
    requires k <= |xs|
    ensures Ema(xs[..k], alpha) == Ema(xs, alpha)[..k]
    decreases |xs|
  {
    if k < |xs| {
      var init := xs[..|xs| - 1];
      assert init[..k] == xs[..k];
      EmaPrefix(init, alpha, k);
      assert Ema(xs, alpha)[..|xs| - 1] == Ema(init, alpha) by {
        if |xs| >= 2 {
        } else {
          assert |xs| == 1 && k == 0;
        }
      }
      assert Ema(xs, alpha)[..k] == Ema(xs, alpha)[..|xs| - 1][..k];
    } else {
      assert xs[..k] == xs;
    }
  }

  lemma EmaFirst(xs: seq<real>, alpha: real)
    requires |xs| >= 1
    ensures Ema(xs, alpha)[0] == xs[0]
  {
    EmaPrefix(xs, alpha, 1);
    assert Ema(xs[..1], alpha) == [xs[0]];
  }

  lemma EmaRecurrence(xs: seq<real>, alpha: real, i: nat)
    requires 0 < i < |xs|
    ensures Ema(xs, alpha)[i] == alpha * xs[i] + (1.0 - alpha) * Ema(xs, alpha)[i - 1]
  {
    EmaPrefix(xs, alpha, i + 1);
    var p := xs[..i + 1];
    assert p[..|p| - 1] == xs[..i];
    EmaPrefix(xs, alpha, i);
    assert Ema(p, alpha)[i] == Ema(xs, alpha)[i];
    assert Ema(p, alpha)[..i] == Ema(xs[..i], alpha);
  }

  /** A convex combination of two values in [lo, hi] stays in [lo, hi]. */
  lemma ConvexBetween(alpha: real, x: real, p: real, lo: real, hi: real)
    requires 0.0 <= alpha <= 1.0
    requires lo <= x <= hi && lo <= p <= hi
    ensures lo <= alpha * x + (1.0 - alpha) * p <= hi
  {
    assert alpha * (x - lo) >= 0.0;
    assert (1.0 - alpha) * (p - lo) >= 0.0;
    assert alpha * (hi - x) >= 0.0;
    assert (1.0 - alpha) * (hi - p) >= 0.0;
  }

  /**
   * Every EMA value lies between bounds that hold for all inputs seen so
   * far; in particular between their minimum and maximum.
   */
  lemma {:induction false} EmaBounded(xs: seq<real>, alpha: real, i: nat, lo: real, hi: real)
    requires 0.0 <= alpha <= 1.0 && i < |xs|
    requires forall k :: 0 <= k <= i ==> lo <= xs[k] <= hi
    ensures lo <= Ema(xs, alpha)[i] <= hi
  {
    if i == 0 {
      EmaFirst(xs, alpha);
    } else {
      EmaBounded(xs, alpha, i - 1, lo, hi);
      EmaRecurrence(xs, alpha, i);
      ConvexBetween(alpha, xs[i], Ema(xs, alpha)[i - 1], lo, hi);
    }
  }

  /** The EMA of a constant series is that constant. */
  lemma EmaOfConstant(xs: seq<real>, alpha: real, c: real, i: nat)
    requires 0.0 <= alpha <= 1.0 && i < |xs|
    requires forall k :: 0 <= k < |xs| ==> xs[k] == c
    ensures Ema(xs, alpha)[i] == c
  {
    EmaBounded(xs, alpha, i, c, c);
  }
}
