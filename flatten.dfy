/** The window flattener of Prepare_data/Data_prepare_Lightgmb.py (flatten_sequences, lines
    26-79): every window of time steps becomes one row of columns, the values of its last time
    step followed by six statistics of each important channel the windows carry. */
module Flattening {
  import opened Wrappers
  import opened Stats
  import Columns

  /** `important_cols`, in the order their statistics are appended. */
  const IMPORTANT_COLUMNS: seq<string> := [
    "z_return", "z_volume", "z_spread", "z_bid_ask_ratio",
    "price_return", "close_position", "spread_pct",
    "z_return_5m", "z_volume_5m", "close_position_5m",
    "z_return_15m", "z_volume_15m", "close_position_15m"]

  /** How many of the last time steps the recent statistics look at (`[:, -10:, ...]`). */
  const RECENT_STEPS: nat := 10

  /** A 3-D array: windows of `steps` time steps holding `channels` values each. */
  datatype Windows = Windows(steps: nat, channels: nat, data: seq<seq<seq<real>>>)

  predicate Shaped(x: Windows)
  {
    forall w :: 0 <= w < |x.data| ==>
      |x.data[w]| == x.steps && forall t :: 0 <= t < x.steps ==> |x.data[w][t]| == x.channels
  }

  /** Why flattening raises: `X_3d[:, -1, :]` on windows without a time step, or a data frame
      built with a different number of column names than values per row. */
  datatype FlattenError = NoTimesteps | ColumnCountMismatch

  /** A data frame: column names and rows of values. */
  datatype Frame = Frame(columns: seq<string>, rows: seq<seq<real>>)

  /** `X_3d[w, :, c]`: the values of channel `c` across a window. */
  function Channel(window: seq<seq<real>>, c: nat): (xs: seq<real>)
    requires forall t :: 0 <= t < |window| ==> c < |window[t]|
    ensures |xs| == |window| && forall t :: 0 <= t < |window| ==> xs[t] == window[t][c]
  {
    seq(|window|, t requires 0 <= t < |window| => window[t][c])
  }

  /** The six statistics of one channel over one window: mean, standard deviation (`np.std`,
      the root of the population variance), maximum and minimum over every step, then mean and
      maximum over the last ten steps. */
  function ChannelStats(xs: seq<real>, sqrt: real -> real): (r: seq<real>)
    requires |xs| > 0
    ensures |r| == 6
  {
    var recent := LastK(xs, RECENT_STEPS);
    [Mean(xs), sqrt(PopulationVariance(xs)), Max(xs), Min(xs), Mean(recent), Max(recent)]
  }

  /** The names of a channel's six statistic columns, in the order of `ChannelStats`. */
  function StatNames(name: string): (r: seq<string>)
    ensures |r| == 6
  {
    [name + "_mean_60", name + "_std_60", name + "_max_60", name + "_min_60",
     name + "_mean_10", name + "_max_10"]
  }

  /** `[f"{col}_last" for col in feature_names]`. */
  function LastStepNames(names: seq<string>): (r: seq<string>)
    ensures |r| == |names| && forall i :: 0 <= i < |names| ==> r[i] == names[i] + "_last"
  {
    seq(|names|, i requires 0 <= i < |names| => names[i] + "_last")
  }

  /** The entries of `imp` that are feature names, in order: those that get statistics. */
  function Included(names: seq<string>, imp: seq<string>): (r: seq<string>)
    ensures |r| <= |imp|
    ensures forall x :: x in r <==> x in imp && x in names
  {
    if imp == [] then []
    else
      var last := imp[|imp| - 1];
      Included(names, imp[..|imp| - 1]) + (if last in names then [last] else [])
  }

  /** The statistic columns the channels of `imp` contribute. */
  function StatColumns(names: seq<string>, imp: seq<string>): seq<string>
  {
    if imp == [] then []
    else
      var last := imp[|imp| - 1];
      StatColumns(names, imp[..|imp| - 1]) + (if last in names then StatNames(last) else [])
  }

  predicate WindowFits(window: seq<seq<real>>, names: seq<string>)
  {
    |window| > 0 && forall t :: 0 <= t < |window| ==> |window[t]| == |names|
  }

  /** The statistic values the channels of `imp` contribute for one window; a channel is read
      at the first position of its name (`feature_names.index`). */
  function StatValues(window: seq<seq<real>>, names: seq<string>, imp: seq<string>, sqrt: real -> real): seq<real>
    requires WindowFits(window, names)
  {
    if imp == [] then []
    else
      var last := imp[|imp| - 1];
      StatValues(window, names, imp[..|imp| - 1], sqrt) +
        (if last in names then ChannelStats(Channel(window, Columns.IndexOf(names, last)), sqrt) else [])
  }

  /** The flattened frame's columns. */
  function FlatColumns(names: seq<string>): seq<string>
  {
    LastStepNames(names) + StatColumns(names, IMPORTANT_COLUMNS)
  }

  /** The flattened row of one window. */
  function FlatRow(window: seq<seq<real>>, names: seq<string>, sqrt: real -> real): seq<real>
    requires WindowFits(window, names)
  {
    window[|window| - 1] + StatValues(window, names, IMPORTANT_COLUMNS, sqrt)
  }

  /** flatten_sequences: the last-step frame, then for each important column present among the
      feature names its four whole-window and two recent-window statistics, put side by side. */
  method FlattenSequences(x: Windows, names: seq<string>, sqrt: real -> real) returns (r: Result<Frame, FlattenError>)
    requires Shaped(x)
    ensures x.steps == 0 <==> r == Failure(NoTimesteps)
    ensures x.steps > 0 && x.channels != |names| <==> r == Failure(ColumnCountMismatch)
    ensures r.Success? ==>
      r.value.columns == FlatColumns(names) && |r.value.rows| == |x.data| &&
      forall w :: 0 <= w < |x.data| ==> WindowFits(x.data[w], names) && r.value.rows[w] == FlatRow(x.data[w], names, sqrt)
  {
    if x.steps == 0 {
      return Failure(NoTimesteps);
    }
    if x.channels != |names| {
      return Failure(ColumnCountMismatch);
    }
    var statColumns, statRows := StatFrames(x, names, IMPORTANT_COLUMNS, sqrt);
    var rows := seq(|x.data|, w requires 0 <= w < |x.data| => x.data[w][x.steps - 1] + statRows[w]);
    return Success(Frame(LastStepNames(names) + statColumns, rows));
  }

  /** The loop over the important columns: each one present among the feature names adds its
      six statistic columns; the others are skipped. */
  method StatFrames(x: Windows, names: seq<string>, imp: seq<string>, sqrt: real -> real)
    returns (columns: seq<string>, rows: seq<seq<real>>)
    requires Shaped(x) && x.steps > 0 && x.channels == |names|
    ensures columns == StatColumns(names, imp)
    ensures |rows| == |x.data|
    ensures forall w :: 0 <= w < |x.data| ==>
      WindowFits(x.data[w], names) && rows[w] == StatValues(x.data[w], names, imp, sqrt)
  {
    assert forall w :: 0 <= w < |x.data| ==> WindowFits(x.data[w], names);
    columns := [];
    rows := seq(|x.data|, w => []);
    var i := 0;
    while i < |imp|
      invariant 0 <= i <= |imp|
      invariant columns == StatColumns(names, imp[..i])
      invariant |rows| == |x.data|
      invariant forall w :: 0 <= w < |rows| ==> rows[w] == StatValues(x.data[w], names, imp[..i], sqrt)
    {
      var name := imp[i];
      assert imp[..i + 1][..i] == imp[..i];
      if name in names {
        var c := Columns.IndexOf(names, name);
        columns := columns + StatNames(name);
        rows := seq(|rows|, w requires 0 <= w < |rows| => rows[w] + ChannelStats(Channel(x.data[w], c), sqrt));
      }
      i := i + 1;
    }
    assert imp[..i] == imp;
  }

  /** Each included channel contributes six columns and six values. */
  lemma {:induction false} StatWidth(window: seq<seq<real>>, names: seq<string>, imp: seq<string>, sqrt: real -> real)
    requires WindowFits(window, names)
    ensures |StatColumns(names, imp)| == 6 * |Included(names, imp)|
    ensures |StatValues(window, names, imp, sqrt)| == 6 * |Included(names, imp)|
  {
    if imp != [] {
      StatWidth(window, names, imp[..|imp| - 1], sqrt);
    }
  }

  /** Names and values line up: the frame has `F + 6k` columns for `F` feature names and `k`
      important columns among them, and every row that many values. */
  lemma FlatWidth(window: seq<seq<real>>, names: seq<string>, sqrt: real -> real)
    requires WindowFits(window, names)
    ensures |FlatColumns(names)| == |FlatRow(window, names, sqrt)| == |names| + 6 * |Included(names, IMPORTANT_COLUMNS)|
  {
    StatWidth(window, names, IMPORTANT_COLUMNS, sqrt);
  }

  /** The first `F` columns are the `_last` columns, holding the window's final time step. */
  lemma FlatLastStep(window: seq<seq<real>>, names: seq<string>, sqrt: real -> real, i: nat)
    requires WindowFits(window, names) && i < |names|
    ensures FlatColumns(names)[i] == names[i] + "_last"
    ensures FlatRow(window, names, sqrt)[i] == window[|window| - 1][i]
  {
  }

  lemma SliceOfPrefix<T>(a: seq<T>, b: seq<T>, lo: nat, hi: nat)
    requires lo <= hi <= |a|
    ensures (a + b)[lo..hi] == a[lo..hi]
  {
  }

  lemma SliceOfSuffix<T>(a: seq<T>, b: seq<T>, lo: nat, hi: nat)
    requires lo <= hi <= |b|
    ensures (a + b)[|a| + lo..|a| + hi] == b[lo..hi]
  {
  }

  /** The `j`-th included channel of `imp` occupies the six statistic positions from `6 * j`
      on, named after it and holding its statistics. */
  predicate BlockAt(window: seq<seq<real>>, names: seq<string>, imp: seq<string>, sqrt: real -> real, j: nat)
    requires WindowFits(window, names) && j < |Included(names, imp)|
  {
    var name := Included(names, imp)[j];
    6 * j + 6 <= |StatColumns(names, imp)| && 6 * j + 6 <= |StatValues(window, names, imp, sqrt)| &&
    name in names &&
    StatColumns(names, imp)[6 * j..6 * j + 6] == StatNames(name) &&
    StatValues(window, names, imp, sqrt)[6 * j..6 * j + 6] ==
      ChannelStats(Channel(window, Columns.IndexOf(names, name)), sqrt)
  }

  /** One more entry of `imp` appends its channel, if included, to all three. */
  lemma StatStep(window: seq<seq<real>>, names: seq<string>, imp: seq<string>, sqrt: real -> real)
    requires WindowFits(window, names) && imp != []
    ensures var init, last := imp[..|imp| - 1], imp[|imp| - 1];
      Included(names, imp) == Included(names, init) + (if last in names then [last] else []) &&
      StatColumns(names, imp) == StatColumns(names, init) + (if last in names then StatNames(last) else []) &&
      StatValues(window, names, imp, sqrt) == StatValues(window, names, init, sqrt) +
        (if last in names then ChannelStats(Channel(window, Columns.IndexOf(names, last)), sqrt) else [])
  {
  }

  /** Every included channel's block is where `BlockAt` puts it. */
  lemma {:induction false} ChannelBlock(window: seq<seq<real>>, names: seq<string>, imp: seq<string>, sqrt: real -> real, j: nat)
    requires WindowFits(window, names) && j < |Included(names, imp)|
    ensures BlockAt(window, names, imp, sqrt, j)
    decreases |imp|, 1
  {
    var init := imp[..|imp| - 1];
    StatStep(window, names, imp, sqrt);
    if j < |Included(names, init)| {
      EarlierBlock(window, names, imp, sqrt, j);
    } else {
      LastBlock(window, names, imp, sqrt, j);
    }
  }

  /** A channel included before the last entry keeps its block. */
  lemma {:induction false} EarlierBlock(window: seq<seq<real>>, names: seq<string>, imp: seq<string>, sqrt: real -> real, j: nat)
    requires WindowFits(window, names) && imp != [] && j < |Included(names, imp[..|imp| - 1])|
    ensures j < |Included(names, imp)|
    ensures BlockAt(window, names, imp, sqrt, j)
    decreases |imp|, 0
  {
    var init, last := imp[..|imp| - 1], imp[|imp| - 1];
    StatStep(window, names, imp, sqrt);
    ChannelBlock(window, names, init, sqrt, j);
    var moreCols := if last in names then StatNames(last) else [];
    var moreVals := if last in names then ChannelStats(Channel(window, Columns.IndexOf(names, last)), sqrt) else [];
    SliceOfPrefix(StatColumns(names, init), moreCols, 6 * j, 6 * j + 6);
    SliceOfPrefix(StatValues(window, names, init, sqrt), moreVals, 6 * j, 6 * j + 6);
  }

  /** The last entry, when included, takes the six positions after all earlier blocks. */
  lemma LastBlock(window: seq<seq<real>>, names: seq<string>, imp: seq<string>, sqrt: real -> real, j: nat)
    requires WindowFits(window, names) && imp != [] && |Included(names, imp[..|imp| - 1])| <= j < |Included(names, imp)|
    ensures BlockAt(window, names, imp, sqrt, j)
  {
    var init, last := imp[..|imp| - 1], imp[|imp| - 1];
    StatStep(window, names, imp, sqrt);
    StatWidth(window, names, init, sqrt);
    assert last in names && j == |Included(names, init)| && Included(names, imp)[j] == last;
    var moreVals := ChannelStats(Channel(window, Columns.IndexOf(names, last)), sqrt);
    SliceOfSuffix(StatColumns(names, init), StatNames(last), 0, 6);
    SliceOfSuffix(StatValues(window, names, init, sqrt), moreVals, 0, 6);
  }

  /** Averaging nothing below zero gives nothing below zero. */
  lemma VarianceNonNegative(xs: seq<real>)
    requires |xs| > 0
    ensures PopulationVariance(xs) >= 0.0
  {
    SquaredDeviationsNonNegative(xs, Mean(xs));
    var n := |xs| as real;
    var v := SquaredDeviations(xs, Mean(xs)) / n;
    assert v * n == SquaredDeviations(xs, Mean(xs));
    if v < 0.0 {
      ScaleStrict(v, 0.0, n);
    }
  }

  /** The last ten steps peak no higher than the whole window. */
  lemma RecentBelowMax(xs: seq<real>)
    requires |xs| > 0
    ensures Max(LastK(xs, RECENT_STEPS)) <= Max(xs)
  {
    var recent := LastK(xs, RECENT_STEPS);
    if |recent| < |xs| {
      MaxOfSuffix(xs, |xs| - |recent|);
    } else {
      assert recent == xs;
    }
  }

  /** Per channel: the minimum is at most the mean, the mean at most the maximum; the recent
      mean is at most the recent maximum, which is at most the maximum; the deviation is the root
      of a variance that is never negative. */
  lemma StatsOrdered(xs: seq<real>, sqrt: real -> real)
    requires |xs| > 0
    ensures var r := ChannelStats(xs, sqrt);
      r[3] <= r[0] <= r[2] && r[4] <= r[5] <= r[2] &&
      r[1] == sqrt(PopulationVariance(xs)) && PopulationVariance(xs) >= 0.0
  {
    MeanBetweenMinAndMax(xs);
    MeanBetweenMinAndMax(LastK(xs, RECENT_STEPS));
    RecentBelowMax(xs);
    VarianceNonNegative(xs);
  }

  /** In every flattened row, each included channel's statistics are ordered as `StatsOrdered`
      says, at the columns `FlatColumns` names for them. */
  lemma FlatRowOrdered(window: seq<seq<real>>, names: seq<string>, sqrt: real -> real, j: nat)
    requires WindowFits(window, names) && j < |Included(names, IMPORTANT_COLUMNS)|
    ensures var row, base := FlatRow(window, names, sqrt), |names| + 6 * j;
      base + 6 <= |row| && base + 6 <= |FlatColumns(names)| &&
      FlatColumns(names)[base..base + 6] == StatNames(Included(names, IMPORTANT_COLUMNS)[j]) &&
      row[base + 3] <= row[base] <= row[base + 2] && row[base + 4] <= row[base + 5] <= row[base + 2]
  {
    var imp := IMPORTANT_COLUMNS;
    var name := Included(names, imp)[j];
    var vals := StatValues(window, names, imp, sqrt);
    var cols := StatColumns(names, imp);
    ChannelBlock(window, names, imp, sqrt, j);
    assert BlockAt(window, names, imp, sqrt, j);
    StatsOrdered(Channel(window, Columns.IndexOf(names, name)), sqrt);
    SliceOfSuffix(window[|window| - 1], vals, 6 * j, 6 * j + 6);
    SliceOfSuffix(LastStepNames(names), cols, 6 * j, 6 * j + 6);
  }
}
