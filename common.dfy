// Shared value types and arithmetic helpers used by every other module:
// optional values and results (Python's None and raised exceptions),
// numpy/pandas NaN, the OHLC bar record, sums and means over sequences,
// and Python's round() on exact reals.

module Common {

  datatype Option<+T> = None | Some(value: T)

  datatype Result<+T, +E> = Ok(value: T) | Err(error: E)
  {
    /** Members that let `:-` propagate an Err, as a raised exception propagates. */
    predicate IsFailure()
    {
      Err?
    }

    function PropagateFailure<U>(): Result<U, E>
      requires Err?
    {
      Err(error)
    }

    function Extract(): T
      requires Ok?
    {
      value
    }
  }

  /** A float slot of a numpy array or pandas series: NaN or a number. */
  datatype Num = NaN | Val(value: real)

  /**
   * arr[~np.isnan(arr)]: the values of the non-NaN slots, in order; the
   * values pandas reductions such as min() and mean() look at.
   */
  function ValidValues(s: seq<Num>): (r: seq<real>)
    ensures |r| <= |s|
  {
    if |s| == 0 then []
    else ValidValues(s[..|s| - 1]) + (if s[|s| - 1].Val? then [s[|s| - 1].value] else [])
  }

  /** The valid values are exactly the values of the non-NaN slots, and none are left only when every slot is NaN. */
  lemma {:induction false} ValidValuesMembers(s: seq<Num>)
    ensures forall x :: x in ValidValues(s) ==> Val(x) in s
    ensures forall i :: 0 <= i < |s| && s[i].Val? ==> s[i].value in ValidValues(s)
    ensures |ValidValues(s)| == 0 <==> forall i :: 0 <= i < |s| ==> s[i] == NaN
  {
    if |s| > 0 {
      var front := s[..|s| - 1];
      ValidValuesMembers(front);
      assert forall i :: 0 <= i < |front| ==> front[i] == s[i];
      assert forall x :: Val(x) in front ==> Val(x) in s;
    }
  }

  /** One price bar; prices are exact reals (no floating-point rounding). */
  datatype Bar = Bar(time: int, open: real, high: real, low: real, close: real, volume: real)

  function Abs(x: real): (r: real)
    ensures r >= 0.0 && (r == x || r == -x)
  {
    if x < 0.0 then -x else x
  }

  function Max(a: real, b: real): (r: real)
    ensures r >= a && r >= b && (r == a || r == b)
  {
    if a >= b then a else b
  }

  function Min(a: real, b: real): (r: real)
    ensures r <= a && r <= b && (r == a || r == b)
  {
    if a <= b then a else b
  }

  /** Sum of a sequence, taken from the back so that appending is one step. */
  function Sum(s: seq<real>): real
  {
    if |s| == 0 then 0.0 else Sum(s[..|s| - 1]) + s[|s| - 1]
  }

  function Mean(s: seq<real>): real
    requires |s| > 0
  {
    Sum(s) / (|s| as real)
  }

  lemma {:induction false} SumAppend(s: seq<real>, t: seq<real>)
    ensures Sum(s + t) == Sum(s) + Sum(t)
    decreases |t|
  {
    if |t| == 0 {
      assert s + t == s;
    } else {
      var t' := t[..|t| - 1];
      assert (s + t)[..|s + t| - 1] == s + t';
      SumAppend(s, t');
    }
  }

  lemma {:induction false} SumBounds(s: seq<real>, lo: real, hi: real)
    requires forall k :: 0 <= k < |s| ==> lo <= s[k] <= hi
    ensures lo * (|s| as real) <= Sum(s) <= hi * (|s| as real)
    decreases |s|
  {
    if |s| > 0 {
      SumBounds(s[..|s| - 1], lo, hi);
    }
  }

  /** The mean of values that all lie in [lo, hi] lies in [lo, hi]. */
  lemma MeanBounds(s: seq<real>, lo: real, hi: real)
    requires |s| > 0
    requires forall k :: 0 <= k < |s| ==> lo <= s[k] <= hi
    ensures lo <= Mean(s) <= hi
  {
    SumBounds(s, lo, hi);
    var n := |s| as real;
    assert lo * n <= Sum(s) <= hi * n;
    assert Sum(s) / n >= lo by { assert Sum(s) >= lo * n; }
    assert Sum(s) / n <= hi by { assert Sum(s) <= hi * n; }
  }

  lemma {:induction false} SumNonNegative(s: seq<real>)
    requires forall k :: 0 <= k < |s| ==> s[k] >= 0.0
    ensures Sum(s) >= 0.0
    decreases |s|
  {
    if |s| > 0 {
      SumNonNegative(s[..|s| - 1]);
    }
  }

  /** The largest element of a non-empty sequence. */
  function SeqMax(s: seq<real>): (r: real)
    requires |s| > 0
    ensures forall k :: 0 <= k < |s| ==> s[k] <= r
    ensures exists k :: 0 <= k < |s| && s[k] == r
  {
    if |s| == 1 then s[0]
    else
      var m := SeqMax(s[..|s| - 1]);
      assert forall k :: 0 <= k < |s| - 1 ==> s[..|s| - 1][k] == s[k];
      Max(m, s[|s| - 1])
  }

  /** The smallest element of a non-empty sequence. */
  function SeqMin(s: seq<real>): (r: real)
    requires |s| > 0
    ensures forall k :: 0 <= k < |s| ==> r <= s[k]
    ensures exists k :: 0 <= k < |s| && s[k] == r
  {
    if |s| == 1 then s[0]
    else
      var m := SeqMin(s[..|s| - 1]);
      assert forall k :: 0 <= k < |s| - 1 ==> s[..|s| - 1][k] == s[k];
      Min(m, s[|s| - 1])
  }

  /** Sums are monotone in each term. */
  lemma {:induction false} SumMonotone(s: seq<real>, t: seq<real>)
    requires |s| == |t|
    requires forall k :: 0 <= k < |s| ==> s[k] <= t[k]
    ensures Sum(s) <= Sum(t)
    decreases |s|
  {
    if |s| > 0 {
      SumMonotone(s[..|s| - 1], t[..|t| - 1]);
    }
  }

  /** A sum of non-negative values is at least its last term. */
  lemma SumAtLeastLast(s: seq<real>)
    requires |s| > 0
    requires forall k :: 0 <= k < |s| ==> s[k] >= 0.0
    ensures Sum(s) >= s[|s| - 1]
  {
    SumNonNegative(s[..|s| - 1]);
  }

  /**
   * Python's round(x) on a number: the nearest integer, ties to the even one
   * (banker's rounding).
   */
  function RoundHalfEven(x: real): (r: int)
    ensures -0.5 <= r as real - x <= 0.5
    ensures r as real - x == 0.5 || r as real - x == -0.5 ==> r % 2 == 0
  {
    var f := x.Floor;
    var d := x - f as real;
    if d < 0.5 then f
    else if d > 0.5 then f + 1
    else if f % 2 == 0 then f
    else f + 1
  }

  function Pow10(n: nat): (r: real)
    ensures r >= 1.0
  {
    if n == 0 then 1.0 else 10.0 * Pow10(n - 1)
  }

  /** Python's round(x, n): x rounded half-to-even at the n-th decimal. */
  function RoundTo(x: real, n: nat): (r: real)
    ensures Abs(r - x) <= 0.5 / Pow10(n)
  {
    var p := Pow10(n);
    assert Scale(x, n) == x * p;
    RoundToError(x, p, RoundHalfEven(Scale(x, n)));
    RoundHalfEven(Scale(x, n)) as real / p
  }

  /** x shifted n decimal places to the left. */
  function Scale(x: real, n: nat): real
  {
    x * Pow10(n)
  }

  /** Rounding an integral value changes nothing. */
  lemma RoundHalfEvenIntegral(k: int)
    ensures RoundHalfEven(k as real) == k
  {
  }

  /** Rounding to n decimals twice is rounding once. */
  lemma RoundToIdempotent(x: real, n: nat)
    ensures RoundTo(RoundTo(x, n), n) == RoundTo(x, n)
  {
    var p := Pow10(n);
    var k := RoundHalfEven(Scale(x, n));
    var r := k as real / p;
    assert Scale(r, n) == k as real by {
      assert Scale(r, n) == r * p;
    }
    RoundHalfEvenIntegral(k);
  }

  /** An integer is its own rounding at any number of decimals. */
  lemma RoundToIntegral(k: int, n: nat)
    ensures RoundTo(k as real, n) == k as real
  {
    var p := Pow10(n);
    Pow10Integral(n);
    var j := k * p.Floor;
    assert Scale(k as real, n) == j as real by {
      assert Scale(k as real, n) == (k as real) * p;
    }
    RoundHalfEvenIntegral(j);
  }

  /** Rounding keeps a non-negative value non-negative. */
  lemma RoundToNonNegative(x: real, n: nat)
    requires x >= 0.0
    ensures RoundTo(x, n) >= 0.0
  {
    var p := Pow10(n);
    assert Scale(x, n) == x * p;
    assert x * p >= 0.0;
    assert 0.0 <= (RoundHalfEven(Scale(x, n)) as real) / p;
  }

  lemma {:induction false} Pow10Integral(n: nat)
    ensures Pow10(n) == Pow10(n).Floor as real
  {
    if n > 0 {
      Pow10Integral(n - 1);
      assert Pow10(n) == 10.0 * Pow10(n - 1);
      assert (10 * Pow10(n - 1).Floor) as real == Pow10(n);
    }
  }

  lemma RoundToError(x: real, scale: real, k: int)
    requires scale >= 1.0
    requires -0.5 <= k as real - x * scale <= 0.5
    ensures Abs(k as real / scale - x) <= 0.5 / scale
  {
    var e := k as real / scale - x;
    assert e * scale == k as real - x * scale;
    assert (Abs(e) * scale) / scale <= 0.5 / scale by { assert 0.5 / scale - (Abs(e) * scale) / scale == (0.5 - (Abs(e) * scale)) / scale; }
    assert Abs(e) * scale / scale == Abs(e);
  }

  /** Concatenation regroups; kept as a lemma so the large frame proofs that use it see only this fact. */
  lemma ConcatAssoc<T>(a: seq<T>, b: seq<T>, c: seq<T>)
    ensures (a + b) + c == a + (b + c)
  {
  }
}
