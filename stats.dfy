/**
 * The numeric helpers both detectors share: mean, population variance,
 * range normalisation, clamping and the consecutive-difference series.
 * Numbers of the source (IEEE doubles) are modelled as `real`.
 */
module Stats {

  function Abs(x: real): (r: real)
    ensures r >= 0.0 && (r == x || r == -x)
  {
    if x < 0.0 then -x else x
  }

  function Min(a: real, b: real): (r: real)
    ensures r <= a && r <= b && (r == a || r == b)
  {
    if a <= b then a else b
  }

  function Max(a: real, b: real): (r: real)
    ensures r >= a && r >= b && (r == a || r == b)
  {
    if a >= b then a else b
  }

  /** `Math.max(0, Math.min(1, x))`: clamps a score into [0, 1]. */
  function Clamp01(x: real): (r: real)
    ensures 0.0 <= r <= 1.0
    ensures 0.0 <= x <= 1.0 ==> r == x
    ensures x < 0.0 ==> r == 0.0
    ensures x > 1.0 ==> r == 1.0
  {
    Max(0.0, Min(1.0, x))
  }

  /** Left-to-right sum, as `arr.reduce((a, b) => a + b, 0)`. */
  function Sum(s: seq<real>): real
  {
    if s == [] then 0.0 else Sum(s[..|s| - 1]) + s[|s| - 1]
  }

  /** Sum of squared deviations from `mean`. */
  function SquaredDeviations(s: seq<real>, mean: real): real
  {
    if s == [] then 0.0
    else SquaredDeviations(s[..|s| - 1], mean) + (s[|s| - 1] - mean) * (s[|s| - 1] - mean)
  }

  /** `_calculateMean`: 0 for an empty series. */
  function Mean(s: seq<real>): (r: real)
    ensures s == [] ==> r == 0.0
  {
    if |s| == 0 then 0.0 else Sum(s) / (|s| as real)
  }

  /** `_calculateVariance(arr, mean)`: population variance about the given mean, 0 below two elements. */
  function Variance(s: seq<real>, mean: real): (r: real)
    ensures |s| < 2 ==> r == 0.0
    ensures r >= 0.0
  {
    SquaredDeviationsNonNegative(s, mean);
    if |s| < 2 then 0.0 else SquaredDeviations(s, mean) / (|s| as real)
  }

  /** `_normalizeValue` (and `_normalizeVariance`, which only forwards to it). */
  function Normalize(value: real, min: real, max: real): (r: real)
    ensures max == min ==> r == 0.0
    ensures 0.0 <= r <= 1.0
    ensures min < max && min <= value <= max ==> r == (value - min) / (max - min)
    ensures min < max && value <= min ==> r == 0.0
    ensures min < max && value >= max ==> r == 1.0
  {
    if max == min then 0.0
    else
      var q := (value - min) / (max - min);
      if min < max then
        RatioFacts(value - min, max - min);
        Min(1.0, Max(0.0, q))
      else
        Min(1.0, Max(0.0, q))
  }

  /** A product with a positive factor has the sign of the other factor. */
  lemma ProductSign(x: real, b: real)
    requires b > 0.0
    ensures x < 0.0 ==> x * b < 0.0
    ensures x <= 0.0 ==> x * b <= 0.0
    ensures x > 0.0 ==> x * b > 0.0
  {
    if x < 0.0 {
      assert x * b < 0.0;
    } else if x > 0.0 {
      assert x * b > 0.0;
    }
  }

  /** Where `a / b` lies against 0 and 1, read off `a` and `b` for a positive `b`. */
  lemma RatioFacts(a: real, b: real)
    requires b > 0.0
    ensures a <= 0.0 ==> a / b <= 0.0
    ensures a >= 0.0 ==> a / b >= 0.0
    ensures a <= b ==> a / b <= 1.0
    ensures a >= b ==> a / b >= 1.0
  {
    var q := a / b;
    assert a == q * b;
    ProductSign(q, b);
    assert q * b - b == (q - 1.0) * b;
    ProductSign(q - 1.0, b);
  }

  /** A non-negative ratio, above 1 exactly when the numerator exceeds the denominator. */
  lemma NonNegativeRatio(a: real, b: real)
    requires a >= 0.0 && b > 0.0
    ensures a / b >= 0.0
    ensures a / b <= 1.0 <==> a <= b
  {
    var q := a / b;
    assert a == q * b;
    assert q * b - b == (q - 1.0) * b;
    ProductSign(q - 1.0, b);
    RatioFacts(a, b);
  }

  /** The series of consecutive differences `s[i] - s[i-1]`, one shorter than `s`. */
  function Intervals(s: seq<real>): (r: seq<real>)
  {
    if |s| < 2 then [] else seq(|s| - 1, i requires 0 <= i < |s| - 1 => s[i + 1] - s[i])
  }

  /** The `for (let i = 1; i < arr.length; i++) out.push(arr[i] - arr[i - 1])` loop. */
  method ComputeIntervals(s: seq<real>) returns (out: seq<real>)
    ensures out == Intervals(s)
  {
    out := [];
    var i := 1;
    while i < |s|
      invariant 1 <= i <= |s| || (|s| == 0 && i == 1)
      invariant |out| == i - 1
      invariant forall k :: 0 <= k < i - 1 ==> out[k] == s[k + 1] - s[k]
    {
      out := out + [s[i] - s[i - 1]];
      i := i + 1;
    }
  }

  lemma {:induction false} SquaredDeviationsNonNegative(s: seq<real>, mean: real)
    ensures SquaredDeviations(s, mean) >= 0.0
  {
    if s != [] {
      SquaredDeviationsNonNegative(s[..|s| - 1], mean);
      var d := s[|s| - 1] - mean;
      assert d * d >= 0.0;
    }
  }

  lemma {:induction false} SumOfConstant(s: seq<real>, c: real)
    requires forall i :: 0 <= i < |s| ==> s[i] == c
    ensures Sum(s) == (|s| as real) * c
  {
    if s != [] {
      SumOfConstant(s[..|s| - 1], c);
    }
  }

  lemma {:induction false} SquaredDeviationsOfConstant(s: seq<real>, c: real)
    requires forall i :: 0 <= i < |s| ==> s[i] == c
    ensures SquaredDeviations(s, c) == 0.0
  {
    if s != [] {
      SquaredDeviationsOfConstant(s[..|s| - 1], c);
    }
  }

  /** A constant series (constant speed, constant timing, constant heading) has mean c and zero variance. */
  lemma ConstantSeriesHasNoVariance(s: seq<real>, c: real)
    requires |s| > 0
    requires forall i :: 0 <= i < |s| ==> s[i] == c
    ensures Mean(s) == c
    ensures Variance(s, Mean(s)) == 0.0
  {
    SumOfConstant(s, c);
    SquaredDeviationsOfConstant(s, c);
  }

  lemma {:induction false} SumBounds(s: seq<real>, lo: real, hi: real)
    requires forall i :: 0 <= i < |s| ==> lo <= s[i] <= hi
    ensures (|s| as real) * lo <= Sum(s) <= (|s| as real) * hi
  {
    if s != [] {
      SumBounds(s[..|s| - 1], lo, hi);
    }
  }

  /** The mean of a non-empty series lies between any bounds of its elements. */
  lemma MeanBounds(s: seq<real>, lo: real, hi: real)
    requires |s| > 0
    requires forall i :: 0 <= i < |s| ==> lo <= s[i] <= hi
    ensures lo <= Mean(s) <= hi
  {
    SumBounds(s, lo, hi);
    var n := |s| as real;
    assert Sum(s) / n >= lo by {
      assert Sum(s) >= n * lo;
    }
    assert Sum(s) / n <= hi by {
      assert Sum(s) <= n * hi;
    }
  }

  /** Every interval is the difference of its two neighbours, and there is one fewer of them. */
  lemma IntervalsShape(s: seq<real>)
    ensures |Intervals(s)| == if |s| < 2 then 0 else |s| - 1
    ensures forall i :: 0 <= i < |Intervals(s)| ==> Intervals(s)[i] == s[i + 1] - s[i]
  {
  }
}
