/**
 * The summary statistics the samplers attach to a list of timings:
 * `statistics.mean` and `statistics.stdev` in the Python samplers, and
 * `stats` in benchmarks/rust/src/main.rs. Square roots are not computed
 * here: the spread is kept as the sample variance, and whoever prints a
 * standard deviation takes the square root as a parameter.
 */
module Stats {

  function Sum(xs: seq<real>): real {
    if xs == [] then 0.0 else Sum(xs[..|xs| - 1]) + xs[|xs| - 1]
  }

  lemma {:induction false} SumPositive(xs: seq<real>)
    requires xs != [] && forall k :: 0 <= k < |xs| ==> xs[k] > 0.0
    ensures Sum(xs) > 0.0
  {
    if |xs| > 1 {
      SumPositive(xs[..|xs| - 1]);
    }
  }

  /** A sum of values between `lo` and `hi` lies between `n*lo` and `n*hi`. */
  lemma {:induction false} SumBounds(xs: seq<real>, lo: real, hi: real)
    requires forall k :: 0 <= k < |xs| ==> lo <= xs[k] <= hi
    ensures |xs| as real * lo <= Sum(xs) <= |xs| as real * hi
  {
    if xs != [] {
      SumBounds(xs[..|xs| - 1], lo, hi);
    }
  }

  /** `statistics.mean(xs)`, and `sum / n` in the Rust `stats`. */
  function Mean(xs: seq<real>): real
    requires xs != []
  {
    Sum(xs) / |xs| as real
  }

  /** The fold of `f64::min` over a non-empty list. */
  function MinOf(xs: seq<real>): (m: real)
    requires xs != []
    ensures m in xs
    ensures forall k :: 0 <= k < |xs| ==> m <= xs[k]
  {
    if |xs| == 1 then xs[0]
    else
      var m := MinOf(xs[..|xs| - 1]);
      if xs[|xs| - 1] < m then xs[|xs| - 1] else m
  }

  /** The fold of `f64::max` over a non-empty list. */
  function MaxOf(xs: seq<real>): (m: real)
    requires xs != []
    ensures m in xs
    ensures forall k :: 0 <= k < |xs| ==> xs[k] <= m
  {
    if |xs| == 1 then xs[0]
    else
      var m := MaxOf(xs[..|xs| - 1]);
      if xs[|xs| - 1] > m then xs[|xs| - 1] else m
  }

  /** The mean lies between the smallest and the largest sample. */
  lemma MeanBounds(xs: seq<real>)
    requires xs != []
    ensures MinOf(xs) <= Mean(xs) <= MaxOf(xs)
  {
    var n, lo, hi := |xs| as real, MinOf(xs), MaxOf(xs);
    SumBounds(xs, lo, hi);
    DivideBounds(Sum(xs), n, lo, hi);
  }

  lemma QuotientPositive(s: real, n: real)
    requires s > 0.0 && n > 0.0
    ensures s / n > 0.0
  {
    assert s / n * n == s;
  }

  lemma DivideBounds(s: real, n: real, lo: real, hi: real)
    requires n > 0.0 && n * lo <= s <= n * hi
    ensures lo <= s / n <= hi
  {
  }

  /** The sum of squared deviations from `m`. */
  function SquaredDeviations(xs: seq<real>, m: real): real {
    if xs == [] then 0.0
    else SquaredDeviations(xs[..|xs| - 1], m) + (xs[|xs| - 1] - m) * (xs[|xs| - 1] - m)
  }

  lemma {:induction false} SquaredDeviationsNonNegative(xs: seq<real>, m: real)
    ensures SquaredDeviations(xs, m) >= 0.0
  {
    if xs != [] {
      SquaredDeviationsNonNegative(xs[..|xs| - 1], m);
      var d := xs[|xs| - 1] - m;
      assert d * d >= 0.0;
    }
  }

  lemma {:induction false} SquaredDeviationsOfConstant(xs: seq<real>, c: real)
    requires forall k :: 0 <= k < |xs| ==> xs[k] == c
    ensures SquaredDeviations(xs, c) == 0.0
  {
    if xs != [] {
      SquaredDeviationsOfConstant(xs[..|xs| - 1], c);
    }
  }

  /** The sample variance (divisor n - 1), zero for fewer than two samples:
      the square of `statistics.stdev` and of the Rust `stdev`. */
  function SampleVariance(xs: seq<real>): (v: real)
    ensures v >= 0.0
  {
    if |xs| > 1 then
      SquaredDeviationsNonNegative(xs, Mean(xs));
      SquaredDeviations(xs, Mean(xs)) / (|xs| - 1) as real
    else 0.0
  }

  /** Samples that are all equal have no spread. */
  lemma ConstantVarianceZero(xs: seq<real>, c: real)
    requires forall k :: 0 <= k < |xs| ==> xs[k] == c
    ensures SampleVariance(xs) == 0.0
  {
    if |xs| > 1 {
      SumBounds(xs, c, c);
      assert Mean(xs) * |xs| as real == Sum(xs);
      assert Mean(xs) == c;
      SquaredDeviationsOfConstant(xs, c);
    }
  }

  /** `(mean, min, max, stdev)` with the stdev kept squared. */
  datatype Summary = Summary(mean: real, min: real, max: real, variance: real)

  /** `stats(times)` of benchmarks/rust/src/main.rs: all zero for no samples;
      otherwise the mean lies between the extreme samples, both of which occur,
      and a single sample has no spread. */
  function RustStats(times: seq<real>): (s: Summary)
    ensures times == [] ==> s == Summary(0.0, 0.0, 0.0, 0.0)
    ensures times != [] ==> s.min in times && s.max in times && s.min <= s.mean <= s.max
    ensures times != [] ==> forall k :: 0 <= k < |times| ==> s.min <= times[k] <= s.max
    ensures s.variance >= 0.0
    ensures |times| == 1 ==> s == Summary(times[0], times[0], times[0], 0.0)
  {
    if times == [] then Summary(0.0, 0.0, 0.0, 0.0)
    else
      MeanBounds(times);
      Summary(Mean(times), MinOf(times), MaxOf(times), SampleVariance(times))
  }
}
