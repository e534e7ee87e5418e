/** The sliding-window builder of Prepare_data/Data_prepare_bilstm.py (create_sequences) and the
    feature list it defaults to. */
module SequenceBuilder {
  import opened Wrappers
  import Columns

  /** A table of numbers: named columns, rows of one value per column, and the target column
      kept apart as `labels`, one per row. */
  datatype Table = Table(columns: seq<string>, rows: seq<seq<real>>, labels: seq<int>)

  predicate WellFormed(t: Table)
  {
    |t.labels| == |t.rows| && forall r :: 0 <= r < |t.rows| ==> |t.rows[r]| == |t.columns|
  }

  /** One training window with its class: `window[t][c]` is channel `c` at time step `t`. */
  datatype Sample = Sample(window: seq<seq<real>>, target: int)

  /** Why `create_sequences` raises: requested features absent from the table, or (only for
      an empty table and windows of length 0) the label lookup `labels[-1]` running off it. */
  datatype SequenceError = MissingFeatures(names: seq<string>) | LabelIndexOutOfRange

  const BASE_FEATURES: seq<string> := [
    "open", "high", "low", "close", "volume",
    "top_bid_price", "top_ask_price",
    "bid_ask_ratio", "final_sentiment_score"]

  const COMPUTED_FEATURES: seq<string> := [
    "price_return", "z_return", "z_volume", "z_bid_ask_ratio",
    "z_spread", "z_top_bid", "close_position",
    "spread_pct", "volume_imbalance",
    "price_return_5m", "z_return_5m", "z_volume_5m", "close_position_5m",
    "price_return_15m", "z_return_15m", "z_volume_15m", "close_position_15m"]

  const EXPECTED_FEATURES: seq<string> := BASE_FEATURES + COMPUTED_FEATURES

  const SEQUENCE_LENGTH: nat := 60

  lemma ExpectedFeatureCount()
    ensures |BASE_FEATURES| == 9 && |COMPUTED_FEATURES| == 17 && |EXPECTED_FEATURES| == 26
  {
  }

  /** `range(len(data) - sequence_length + 1)`, empty when the table is shorter than a window:
      the number of start rows whose window fits in the table. The last start fits and the
      next one would not. */
  function WindowCount(n: nat, len: nat): (m: nat)
    ensures m > 0 ==> (m - 1) + len <= n
    ensures m + len > n
  {
    if n + 1 >= len then n + 1 - len else 0
  }

  /** The row whose label window `k` takes: `labels[k + len - 1]`, where Python reads index -1
      as the last row. */
  function LabelRow(n: nat, k: nat, len: nat): int
  {
    if k + len >= 1 then k + len - 1 else n - 1
  }

  /** The values of one row in the order of `positions` (`data[features].values`). */
  function Project(row: seq<real>, positions: seq<nat>): (r: seq<real>)
    requires forall c :: 0 <= c < |positions| ==> positions[c] < |row|
    ensures |r| == |positions| && forall c :: 0 <= c < |positions| ==> r[c] == row[positions[c]]
  {
    seq(|positions|, c requires 0 <= c < |positions| => row[positions[c]])
  }

  /** The column position of each requested feature. */
  function Positions(columns: seq<string>, features: seq<string>): (p: seq<nat>)
    requires forall f :: f in features ==> f in columns
    ensures |p| == |features|
    ensures forall c :: 0 <= c < |features| ==> p[c] < |columns| && columns[p[c]] == features[c]
  {
    seq(|features|, c requires 0 <= c < |features| => Columns.IndexOf(columns, features[c]))
  }

  /** Sample `s` is window `k`: rows `k` to `k + len - 1` restricted to `feats` in that order,
      with the label of the window's last row. */
  predicate IsWindow(data: Table, feats: seq<string>, len: nat, k: nat, s: Sample)
    requires WellFormed(data)
  {
    var row := LabelRow(|data.rows|, k, len);
    0 <= row < |data.rows| && s.target == data.labels[row] &&
    |s.window| == len &&
    forall t :: 0 <= t < len ==>
      k + t < |data.rows| && |s.window[t]| == |feats| &&
      forall c :: 0 <= c < |feats| ==>
        feats[c] in data.columns &&
        s.window[t][c] == data.rows[k + t][Columns.IndexOf(data.columns, feats[c])]
  }

  /** create_sequences: with `features` None the expected feature list is used; any requested
      feature missing from the table is an error naming all of them. Otherwise there are
      `n - len + 1` windows (none when `n < len`), window `k` being `IsWindow`. */
  method CreateSequences(data: Table, len: nat, features: Option<seq<string>>)
    returns (r: Result<(seq<Sample>, seq<string>), SequenceError>)
    requires WellFormed(data)
    ensures var feats := if features.Some? then features.value else EXPECTED_FEATURES;
      var missing := Columns.MissingNames(feats, data.columns);
      (missing != [] <==> r.Failure? && r.error.MissingFeatures?) &&
      (missing != [] ==> r == Failure(MissingFeatures(missing))) &&
      (r == Failure(LabelIndexOutOfRange) <==> missing == [] && |data.rows| == 0 && len == 0) &&
      (r.Success? ==>
        r.value.1 == feats &&
        |r.value.0| == WindowCount(|data.rows|, len) &&
        forall k :: 0 <= k < |r.value.0| ==> IsWindow(data, feats, len, k, r.value.0[k]))
  {
    var feats := if features.Some? then features.value else EXPECTED_FEATURES;
    var missing := Columns.MissingNames(feats, data.columns);
    if missing != [] {
      return Failure(MissingFeatures(missing));
    }
    var n := |data.rows|;
    if n == 0 && len == 0 {
      return Failure(LabelIndexOutOfRange);
    }
    var positions := Positions(data.columns, feats);
    var count := WindowCount(n, len);
    var samples: seq<Sample> := [];
    var k := 0;
    while k < count
      invariant 0 <= k <= count
      invariant |samples| == k
      invariant forall j :: 0 <= j < k ==> IsWindow(data, feats, len, j, samples[j])
    {
      var window := seq(len, t requires 0 <= t < len => Project(data.rows[k + t], positions));
      var next := Sample(window, data.labels[LabelRow(n, k, len)]);
      NextIsWindow(data, feats, positions, len, k, next);
      samples := samples + [next];
      k := k + 1;
    }
    return Success((samples, feats));
  }

  lemma NextIsWindow(data: Table, feats: seq<string>, positions: seq<nat>, len: nat, k: nat, s: Sample)
    requires WellFormed(data) && !(|data.rows| == 0 && len == 0)
    requires k < WindowCount(|data.rows|, len)
    requires forall f :: f in feats ==> f in data.columns
    requires positions == Positions(data.columns, feats)
    requires s.window == seq(len, t requires 0 <= t < len => Project(data.rows[k + t], positions))
    requires s.target == data.labels[LabelRow(|data.rows|, k, len)]
    ensures IsWindow(data, feats, len, k, s)
  {
    forall t | 0 <= t < len
      ensures k + t < |data.rows| && |s.window[t]| == |feats| &&
        forall c :: 0 <= c < |feats| ==>
          feats[c] in data.columns &&
          s.window[t][c] == data.rows[k + t][Columns.IndexOf(data.columns, feats[c])]
    {
      assert s.window[t] == Project(data.rows[k + t], positions);
    }
  }

  /** With windows of length at least 1, a window's label is that of its last row. */
  lemma LabelOfLastRow(n: nat, k: nat, len: nat)
    requires len >= 1
    ensures LabelRow(n, k, len) == k + len - 1
  {
  }

  /** Consecutive windows overlap in all but one row: window `k + 1` is window `k` moved on
      by one row. */
  lemma ConsecutiveWindowsOverlap(data: Table, feats: seq<string>, len: nat, k: nat, a: Sample, b: Sample)
    requires WellFormed(data) && len >= 1
    requires IsWindow(data, feats, len, k, a) && IsWindow(data, feats, len, k + 1, b)
    ensures a.window[1..] == b.window[..len - 1]
  {
    forall t | 0 <= t < len - 1 ensures a.window[1..][t] == b.window[..len - 1][t] {
      assert a.window[t + 1] == b.window[t];
    }
  }
}
