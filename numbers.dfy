/** Arithmetic as the dashboards' JavaScript expressions evaluate it, on exact
    integers and exact reals (no floating-point rounding). */
module Numbers {

  /** `Math.round(n / d)` for integers `n` and `d > 0`: the integer nearest to the
      exact quotient, halves rounded toward +infinity (`Math.round(-0.5)` is 0). */
  function RoundDiv(n: int, d: int): (r: int)
    requires d > 0
    ensures d * (2 * r - 1) <= 2 * n < d * (2 * r + 1)
  {
    var q := (2 * n + d) / (2 * d);
    assert 2 * d * q <= 2 * n + d < 2 * d * q + 2 * d by {
      DivBounds(2 * n + d, 2 * d);
    }
    q
  }

  lemma {:induction false} DivBounds(a: int, b: int)
    requires b > 0
    ensures b * (a / b) <= a < b * (a / b) + b
  {
  }

  /** Rounding a quotient never leaves the integer interval the exact quotient lies in. */
  lemma {:induction false} RoundDivBetween(n: int, d: int, lo: int, hi: int)
    requires d > 0 && d * lo <= n <= d * hi
    ensures lo <= RoundDiv(n, d) <= hi
  {
    var r := RoundDiv(n, d);
    assert d * (2 * hi + 1) == 2 * (d * hi) + d;
    assert d * (2 * lo - 1) == 2 * (d * lo) - d;
    MulCancel(d, 2 * r - 1, 2 * hi + 1);
    MulCancel(d, 2 * lo - 1, 2 * r + 1);
  }

  lemma {:induction false} MulCancel(d: int, a: int, b: int)
    requires d > 0 && d * a < d * b
    ensures a < b
  {
    if b <= a {
      MulMonotone(d, b, a);
    }
  }

  lemma {:induction false} MulMonotone(d: int, a: int, b: int)
    requires d > 0 && a <= b
    ensures d * a <= d * b
  {
  }

  /** `Math.round(x)`: the integer nearest to `x`, halves rounded toward +infinity. */
  function Round(x: real): (r: int)
    ensures r as real - 0.5 <= x < r as real + 0.5
  {
    (x + 0.5).Floor
  }

  /** Rounding keeps a number inside an interval with integer ends. */
  lemma {:induction false} RoundBetween(x: real, lo: int, hi: int)
    requires lo as real <= x <= hi as real
    ensures lo <= Round(x) <= hi
  {
  }

  /** `xs.reduce((sum, x) => sum + x, 0)` on reals. */
  function RealSum(xs: seq<real>): real
    decreases |xs|
  {
    if |xs| == 0 then 0.0 else RealSum(xs[..|xs| - 1]) + xs[|xs| - 1]
  }

  /** A sum of `n` reals, each within `[lo, hi]`, lies within `[n * lo, n * hi]`. */
  lemma {:induction false} RealSumBetween(xs: seq<real>, lo: real, hi: real)
    requires forall i :: 0 <= i < |xs| ==> lo <= xs[i] <= hi
    ensures |xs| as real * lo <= RealSum(xs) <= |xs| as real * hi
    decreases |xs|
  {
    if |xs| > 0 {
      RealSumBetween(xs[..|xs| - 1], lo, hi);
      assert |xs| as real * lo == (|xs| - 1) as real * lo + lo;
      assert |xs| as real * hi == (|xs| - 1) as real * hi + hi;
    }
  }

  /** `Math.round(sum / xs.length)`: the rounded mean of a non-empty list. */
  function RoundedMean(xs: seq<real>): int
    requires |xs| > 0
  {
    Round(RealSum(xs) / |xs| as real)
  }

  /** The rounded mean of values that all lie within `[lo, hi]`, integer ends,
      lies there too. */
  lemma {:induction false} RoundedMeanBetween(xs: seq<real>, lo: int, hi: int)
    requires |xs| > 0
    requires forall i :: 0 <= i < |xs| ==> lo as real <= xs[i] <= hi as real
    ensures lo <= RoundedMean(xs) <= hi
  {
    var n := |xs| as real;
    RealSumBetween(xs, lo as real, hi as real);
    var mean := RealSum(xs) / n;
    assert mean * n == RealSum(xs);
    assert lo as real <= mean <= hi as real;
    RoundBetween(mean, lo, hi);
  }
}
