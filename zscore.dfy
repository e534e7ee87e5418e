/** The trailing rolling z-score of Prepare_data/label_pump_dump.py (calculate_rolling_zscore):
    mean and sample standard deviation over the last `window` observations, with the neutral
    value 0 wherever pandas would produce NaN or divide by a zero deviation.
    The square root is a parameter: the model does not compute roots. */
module RollingZScore {
  import opened Stats

  /** The observations pandas' `rolling(window)` sees at position `i`: the last `window`
      values up to and including `s[i]`, fewer near the start. */
  function TrailingWindow(s: seq<real>, i: nat, window: nat): (w: seq<real>)
    requires i < |s|
    ensures |w| == if i + 1 < window then i + 1 else window
  {
    s[WindowStart(i, window)..i + 1]
  }

  /** The first position inside the trailing window at `i`. */
  function WindowStart(i: nat, window: nat): nat
  {
    if i + 1 < window then 0 else i + 1 - window
  }

  /** Whether pandas yields a number at `i`: at least `minPeriods` observations (otherwise
      mean and std are NaN) and at least two (otherwise the ddof = 1 std is NaN). */
  predicate Defined(s: seq<real>, i: nat, window: nat, minPeriods: nat)
    requires i < |s|
  {
    var n := |TrailingWindow(s, i, window)|;
    n >= minPeriods && n >= 2
  }

  /** The rolling sample standard deviation at a defined position. */
  function RollingStd(s: seq<real>, i: nat, window: nat, sqrt: real -> real): real
    requires i < |s| && |TrailingWindow(s, i, window)| >= 2
  {
    sqrt(SampleVariance(TrailingWindow(s, i, window)))
  }

  function ScoreAt(s: seq<real>, i: nat, window: nat, minPeriods: nat, sqrt: real -> real): real
    requires i < |s|
  {
    if !Defined(s, i, window, minPeriods) then 0.0
    else
      var sd := RollingStd(s, i, window, sqrt);
      if sd == 0.0 then 0.0 else Quotient(s[i] - Mean(TrailingWindow(s, i, window)), sd)
  }

  function Quotient(a: real, b: real): (q: real)
    requires b != 0.0
    ensures q * b == a
  {
    a / b
  }

  /** The z-score column: as long as its input; 0 where pandas' result is NaN (too few
      observations, or an undefined or zero deviation, lines 12-16); elsewhere the deviation
      from the trailing mean in units of the trailing standard deviation. */
  function ZScore(s: seq<real>, window: nat, minPeriods: nat, sqrt: real -> real): (z: seq<real>)
    ensures |z| == |s|
    ensures forall i :: 0 <= i < |s| && !Defined(s, i, window, minPeriods) ==> z[i] == 0.0
    ensures forall i :: 0 <= i < |s| && Defined(s, i, window, minPeriods) ==>
      var sd := RollingStd(s, i, window, sqrt);
      (sd == 0.0 ==> z[i] == 0.0) &&
      (sd != 0.0 ==> z[i] * sd == s[i] - Mean(TrailingWindow(s, i, window)))
  {
    seq(|s|, i requires 0 <= i < |s| => ScoreAt(s, i, window, minPeriods, sqrt))
  }

  /** The z-score does not move when a constant is added to the whole series. */
  lemma ShiftInvariant(s: seq<real>, c: real, window: nat, minPeriods: nat, sqrt: real -> real)
    ensures ZScore(Shift(s, c), window, minPeriods, sqrt) == ZScore(s, window, minPeriods, sqrt)
  {
    forall i | 0 <= i < |s|
      ensures ScoreAt(Shift(s, c), i, window, minPeriods, sqrt) == ScoreAt(s, i, window, minPeriods, sqrt)
    {
      ScoreAtShift(s, c, i, window, minPeriods, sqrt);
    }
  }

  lemma ScoreAtShift(s: seq<real>, c: real, i: nat, window: nat, minPeriods: nat, sqrt: real -> real)
    requires i < |s|
    ensures ScoreAt(Shift(s, c), i, window, minPeriods, sqrt) == ScoreAt(s, i, window, minPeriods, sqrt)
  {
    var t := Shift(s, c);
    var w := TrailingWindow(s, i, window);
    WindowShift(s, c, i, window);
    if |w| >= 2 {
      VarianceShift(w, c);
      MeanShift(w, c);
      assert t[i] - Mean(Shift(w, c)) == s[i] - Mean(w);
    }
  }

  lemma WindowShift(s: seq<real>, c: real, i: nat, window: nat)
    requires i < |s|
    ensures TrailingWindow(Shift(s, c), i, window) == Shift(TrailingWindow(s, i, window), c)
  {
    var lo := WindowStart(i, window);
    var t := Shift(s, c);
    var w := TrailingWindow(s, i, window);
    forall k | 0 <= k < |w| ensures TrailingWindow(t, i, window)[k] == Shift(w, c)[k] {
      assert TrailingWindow(t, i, window)[k] == t[lo + k];
    }
  }

  /** A trailing window in which every observation equals the current one scores 0. */
  lemma ConstantWindowScoresZero(s: seq<real>, i: nat, window: nat, minPeriods: nat, sqrt: real -> real)
    requires i < |s|
    requires forall k :: 0 <= k < |TrailingWindow(s, i, window)| ==> TrailingWindow(s, i, window)[k] == s[i]
    ensures ZScore(s, window, minPeriods, sqrt)[i] == 0.0
  {
    var w := TrailingWindow(s, i, window);
    if Defined(s, i, window, minPeriods) {
      MeanOfConstant(w, s[i]);
    }
  }

  /** Where the deviation is positive, the score has the sign of the deviation from the
      trailing mean: above the mean scores above 0, below the mean scores below 0. */
  lemma SignFollowsDeviation(s: seq<real>, i: nat, window: nat, minPeriods: nat, sqrt: real -> real)
    requires i < |s| && Defined(s, i, window, minPeriods)
    requires RollingStd(s, i, window, sqrt) > 0.0
    ensures var z := ZScore(s, window, minPeriods, sqrt)[i];
      var m := Mean(TrailingWindow(s, i, window));
      (z > 0.0 <==> s[i] > m) && (z < 0.0 <==> s[i] < m)
  {
    var z := ZScore(s, window, minPeriods, sqrt)[i];
    var sd := RollingStd(s, i, window, sqrt);
    var d := s[i] - Mean(TrailingWindow(s, i, window));
    assert z * sd == d;
    if z > 0.0 { assert z * sd > 0.0; }
    if z < 0.0 { assert (-z) * sd > 0.0; }
    if z == 0.0 { assert d == 0.0; }
  }
}
