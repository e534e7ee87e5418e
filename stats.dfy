/** Reductions over a column of values: the sums, means, extrema and variances that pandas'
    rolling windows and numpy's per-window statistics compute. */
module Stats {

  function Sum(s: seq<real>): real
  {
    if s == [] then 0.0 else s[0] + Sum(s[1..])
  }

  function Mean(s: seq<real>): real
    requires |s| > 0
  {
    Sum(s) / (|s| as real)
  }

  /** The largest element (`MaxIsGreatest`). */
  function Max(s: seq<real>): real
    requires |s| > 0
  {
    if |s| == 1 then s[0]
    else
      var rest := Max(s[1..]);
      if s[0] >= rest then s[0] else rest
  }

  /** The smallest element (`MinIsLeast`). */
  function Min(s: seq<real>): real
    requires |s| > 0
  {
    if |s| == 1 then s[0]
    else
      var rest := Min(s[1..]);
      if s[0] <= rest then s[0] else rest
  }

  /** The maximum is an element and bounds every element. */
  lemma {:induction false} MaxIsGreatest(s: seq<real>)
    requires |s| > 0
    ensures Max(s) in s
    ensures forall i :: 0 <= i < |s| ==> s[i] <= Max(s)
  {
    if |s| > 1 {
      MaxIsGreatest(s[1..]);
      forall i | 1 <= i < |s| ensures s[i] <= Max(s) {
        assert s[i] == s[1..][i - 1];
      }
    }
  }

  /** The minimum is an element and bounds every element from below. */
  lemma {:induction false} MinIsLeast(s: seq<real>)
    requires |s| > 0
    ensures Min(s) in s
    ensures forall i :: 0 <= i < |s| ==> Min(s) <= s[i]
  {
    if |s| > 1 {
      MinIsLeast(s[1..]);
      forall i | 1 <= i < |s| ensures Min(s) <= s[i] {
        assert s[i] == s[1..][i - 1];
      }
    }
  }

  /** The sum of squared deviations from `m`. */
  function SquaredDeviations(s: seq<real>, m: real): real
  {
    if s == [] then 0.0 else (s[0] - m) * (s[0] - m) + SquaredDeviations(s[1..], m)
  }

  /** Sample variance (ddof = 1), what pandas' rolling `std` takes the root of. */
  function SampleVariance(s: seq<real>): real
    requires |s| >= 2
  {
    SquaredDeviations(s, Mean(s)) / ((|s| - 1) as real)
  }

  /** Population variance (ddof = 0), what `np.std` takes the root of. */
  function PopulationVariance(s: seq<real>): real
    requires |s| > 0
  {
    SquaredDeviations(s, Mean(s)) / (|s| as real)
  }

  /** Every element plus `c`. */
  function Shift(s: seq<real>, c: real): (r: seq<real>)
    ensures |r| == |s|
    ensures forall i :: 0 <= i < |s| ==> r[i] == s[i] + c
  {
    seq(|s|, i requires 0 <= i < |s| => s[i] + c)
  }

  /** The last `k` elements, or all of them when there are fewer (numpy's `[-k:]` for a
      positive `k`; `[-0:]` would be the whole sequence). */
  function LastK(s: seq<real>, k: nat): (r: seq<real>)
    requires k >= 1
    ensures |r| == if |s| < k then |s| else k
    ensures r == s[|s| - |r|..]
  {
    if |s| < k then s else s[|s| - k..]
  }

  lemma {:induction false} SumBounds(s: seq<real>, lo: real, hi: real)
    requires forall i :: 0 <= i < |s| ==> lo <= s[i] <= hi
    ensures (|s| as real) * lo <= Sum(s) <= (|s| as real) * hi
  {
    if s != [] {
      SumBounds(s[1..], lo, hi);
    }
  }

  /** The mean lies between the smallest and the largest element. */
  lemma MeanBetweenMinAndMax(s: seq<real>)
    requires |s| > 0
    ensures Min(s) <= Mean(s) <= Max(s)
  {
    MaxIsGreatest(s);
    MinIsLeast(s);
    MeanWithinBounds(s, Min(s), Max(s));
  }

  /** Bounds on every element are bounds on the mean. */
  lemma MeanWithinBounds(s: seq<real>, lo: real, hi: real)
    requires |s| > 0
    requires forall i :: 0 <= i < |s| ==> lo <= s[i] <= hi
    ensures lo <= Mean(s) <= hi
  {
    SumBounds(s, lo, hi);
    DivideBounds(Sum(s), |s| as real, lo, hi);
  }

  lemma DivideBounds(x: real, n: real, lo: real, hi: real)
    requires n > 0.0 && n * lo <= x <= n * hi
    ensures lo <= x / n <= hi
  {
    var q := x / n;
    assert q * n == x;
    if q < lo { ScaleStrict(q, lo, n); }
    if q > hi { ScaleStrict(hi, q, n); }
  }

  lemma ScaleStrict(a: real, b: real, n: real)
    requires a < b && n > 0.0
    ensures a * n < b * n
  {
    assert (b - a) * n > 0.0;
  }

  /** The maximum of a suffix never exceeds the maximum of the whole. */
  lemma MaxOfSuffix(s: seq<real>, k: nat)
    requires k < |s|
    ensures Max(s[k..]) <= Max(s)
  {
    MaxIsGreatest(s);
    MaxIsGreatest(s[k..]);
    var m := Max(s[k..]);
    var j :| 0 <= j < |s[k..]| && s[k..][j] == m;
    assert s[k + j] == m;
  }

  lemma {:induction false} SumShift(s: seq<real>, c: real)
    ensures Sum(Shift(s, c)) == Sum(s) + (|s| as real) * c
  {
    if s != [] {
      assert Shift(s, c)[1..] == Shift(s[1..], c);
      SumShift(s[1..], c);
    }
  }

  /** Adding a constant to every element moves the mean by that constant. */
  lemma MeanShift(s: seq<real>, c: real)
    requires |s| > 0
    ensures Mean(Shift(s, c)) == Mean(s) + c
  {
    SumShift(s, c);
    var n := |s| as real;
    assert Sum(Shift(s, c)) == Sum(s) + n * c;
    assert (Sum(s) + n * c) / n == Sum(s) / n + c;
  }

  lemma {:induction false} SquaredDeviationsShift(s: seq<real>, m: real, c: real)
    ensures SquaredDeviations(Shift(s, c), m + c) == SquaredDeviations(s, m)
  {
    if s != [] {
      assert Shift(s, c)[1..] == Shift(s[1..], c);
      SquaredDeviationsShift(s[1..], m, c);
    }
  }

  /** Adding a constant to every element leaves both variances unchanged. */
  lemma VarianceShift(s: seq<real>, c: real)
    requires |s| > 0
    ensures PopulationVariance(Shift(s, c)) == PopulationVariance(s)
    ensures |s| >= 2 ==> SampleVariance(Shift(s, c)) == SampleVariance(s)
  {
    MeanShift(s, c);
    SquaredDeviationsShift(s, Mean(s), c);
  }

  /** A column whose elements all equal `c` has mean `c`. */
  lemma {:induction false} MeanOfConstant(s: seq<real>, c: real)
    requires |s| > 0
    requires forall i :: 0 <= i < |s| ==> s[i] == c
    ensures Mean(s) == c
  {
    MeanWithinBounds(s, c, c);
  }

  lemma {:induction false} SquaredDeviationsNonNegative(s: seq<real>, m: real)
    ensures SquaredDeviations(s, m) >= 0.0
  {
    if s != [] {
      SquaredDeviationsNonNegative(s[1..], m);
      var d := s[0] - m;
      assert d * d >= 0.0 by {
        if d < 0.0 { assert d * d == (-d) * (-d); }
      }
    }
  }
}
