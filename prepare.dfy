/** The bookkeeping of `main` in Prepare_data/Data_prepare_bilstm.py between building the
    windows and saving them: the label remap (line 140-141), the chronological 80/10/10 split
    (lines 156-162) and the undersampling of the normal class (lines 177-193). */
module TrainingSet {
  import opened Wrappers
  import opened SequenceBuilder
  import opened Permutation
  import opened SampleClasses
  import Oversampling

  // ---------------------------------------------------------------------------------------
  // Label remap

  /** `df['label'].map({-1: 0, 0: 1, 1: 2})`: a label without an entry becomes missing. */
  function RemapLabel(l: int): (r: Option<int>)
    ensures r.Some? <==> l == -1 || l == 0 || l == 1
    ensures r.Some? ==> r.value == l + 1
  {
    if l == -1 then Some(0) else if l == 0 then Some(1) else if l == 1 then Some(2) else None
  }

  /** The remapped classes are those the rebalancing works with: dump 0, normal 1, pump 2. */
  lemma RemapLabelClasses()
    ensures RemapLabel(-1) == Some(Oversampling.DUMP)
    ensures RemapLabel(0) == Some(Oversampling.NORMAL)
    ensures RemapLabel(1) == Some(Oversampling.PUMP)
  {
  }

  /** The remapped label column: every labeller label (-1, 0 or 1) becomes a class in 0..2, and
      subtracting one gives it back. */
  function RemapLabels(labels: seq<int>): (r: seq<Option<int>>)
    ensures |r| == |labels|
    ensures forall i :: 0 <= i < |labels| && -1 <= labels[i] <= 1 ==>
      r[i].Some? && 0 <= r[i].value <= 2 && r[i].value - 1 == labels[i]
    ensures forall i :: 0 <= i < |labels| && !(-1 <= labels[i] <= 1) ==> r[i] == None
  {
    seq(|labels|, i requires 0 <= i < |labels| => RemapLabel(labels[i]))
  }

  // ---------------------------------------------------------------------------------------
  // Chronological split

  /** `int(n * 0.8)`. */
  function TrainEnd(n: nat): nat
  {
    n * 8 / 10
  }

  /** `int(n * 0.9)`. */
  function ValEnd(n: nat): nat
  {
    n * 9 / 10
  }

  /** The split points are the floors of 80% and 90% of `n`, in order, within `n`. */
  lemma SplitPoints(n: nat)
    ensures 10 * TrainEnd(n) <= 8 * n < 10 * TrainEnd(n) + 10
    ensures 10 * ValEnd(n) <= 9 * n < 10 * ValEnd(n) + 10
    ensures TrainEnd(n) <= ValEnd(n) <= n
  {
  }

  datatype Parts<T> = Parts(train: seq<T>, val: seq<T>, test: seq<T>)

  /** `X[:train_end]`, `X[train_end:val_end]`, `X[val_end:]`: three consecutive parts which,
      put back together in order, are the input. */
  function Split<T>(xs: seq<T>): (p: Parts<T>)
    ensures p.train + p.val + p.test == xs
    ensures |p.train| == TrainEnd(|xs|) && |p.train| + |p.val| == ValEnd(|xs|)
  {
    SplitPoints(|xs|);
    var n := |xs|;
    Parts(xs[..TrainEnd(n)], xs[TrainEnd(n)..ValEnd(n)], xs[ValEnd(n)..])
  }

  /** Every window lands in exactly one part, at the position its order gives it. */
  lemma SplitPositions<T>(xs: seq<T>, i: nat)
    requires i < |xs|
    ensures var p := Split(xs);
      (i < TrainEnd(|xs|) ==> p.train[i] == xs[i]) &&
      (TrainEnd(|xs|) <= i < ValEnd(|xs|) ==> p.val[i - TrainEnd(|xs|)] == xs[i]) &&
      (ValEnd(|xs|) <= i ==> p.test[i - ValEnd(|xs|)] == xs[i])
  {
    var p := Split(xs);
    assert xs == p.train + (p.val + p.test);
  }

  // ---------------------------------------------------------------------------------------
  // Undersampling the normal class

  const UNDERSAMPLE_RATIO: nat := 20

  /** `n_keep = min(n_anomalies * UNDERSAMPLE_RATIO, n_normal_original)`. */
  function KeepCount(s: seq<Sample>): nat
  {
    var anomalies := |Where(s, Oversampling.NORMAL, false)|;
    var normals := |Where(s, Oversampling.NORMAL, true)|;
    if anomalies * UNDERSAMPLE_RATIO < normals then anomalies * UNDERSAMPLE_RATIO else normals
  }

  /** `keep_idx = np.random.choice(normal_idx, n_keep, replace=False)`: numpy draws it as the
      first `n_keep` entries of a shuffled `arange(len(normal_idx))`, used to index `normal_idx`. */
  function KeptNormalPositions(s: seq<Sample>, pickChoice: nat -> nat): (idx: seq<nat>)
    requires KeepCount(s) <= |Where(s, Oversampling.NORMAL, true)|
    ensures InBounds(idx, |s|)
  {
    var normalIdx := Where(s, Oversampling.NORMAL, true);
    var perm := Shuffled(Range(|normalIdx|), pickChoice);
    ShuffledInBounds(Range(|normalIdx|), |normalIdx|, pickChoice);
    Gather(normalIdx, perm[..KeepCount(s)])
  }

  /** The undersampled training set: when there are more normal windows than the target, the
      kept normal positions followed by the anomaly positions, shuffled, index the windows;
      otherwise the windows are left as they are. */
  function Undersampled(s: seq<Sample>, pickChoice: nat -> nat, pickShuffle: nat -> nat): seq<Sample>
  {
    var normals := |Where(s, Oversampling.NORMAL, true)|;
    if normals > KeepCount(s) then
      var finalIdx := KeptNormalPositions(s, pickChoice) + Where(s, Oversampling.NORMAL, false);
      ShuffledInBounds(finalIdx, |s|, pickShuffle);
      Gather(s, Shuffled(finalIdx, pickShuffle))
    else s
  }

  /** Lines 177-193: the positions of anomalies and normals, the target count, and, when the
      normals exceed it, a draw without replacement from the normal positions and a shuffle
      of the positions kept. */
  method Undersample(train: seq<Sample>, pickChoice: nat -> nat, pickShuffle: nat -> nat) returns (out: seq<Sample>)
    ensures out == Undersampled(train, pickChoice, pickShuffle)
    ensures Count(out, Oversampling.NORMAL) == KeepCount(train)
    ensures multiset(Filter(out, Oversampling.NORMAL, false)) == multiset(Filter(train, Oversampling.NORMAL, false))
    ensures multiset(Filter(out, Oversampling.NORMAL, true)) <= multiset(Filter(train, Oversampling.NORMAL, true))
  {
    var anomalyIdx := Where(train, Oversampling.NORMAL, false);
    var normalIdx := Where(train, Oversampling.NORMAL, true);
    var nKeep := KeepCount(train);
    if |normalIdx| > nKeep {
      var perm := new nat[|normalIdx|](i => i);
      assert perm[..] == Range(|normalIdx|);
      Shuffle(perm, pickChoice);
      ShuffledInBounds(Range(|normalIdx|), |normalIdx|, pickChoice);
      var keepIdx := Gather(normalIdx, perm[..nKeep]);
      var joined := keepIdx + anomalyIdx;
      var finalIdx := new nat[|joined|](i => if 0 <= i < |joined| then joined[i] else 0);
      assert finalIdx[..] == joined;
      Shuffle(finalIdx, pickShuffle);
      ShuffledInBounds(joined, |train|, pickShuffle);
      out := Gather(train, finalIdx[..]);
    } else {
      out := train;
    }
    UndersampledCounts(train, pickChoice, pickShuffle);
  }

  /** Indexing through an index sequence is indexing by the composed positions. */
  lemma GatherGather<T>(s: seq<T>, idx: seq<nat>, sub: seq<nat>)
    requires InBounds(idx, |s|) && InBounds(sub, |idx|)
    ensures InBounds(Gather(idx, sub), |s|)
    ensures Gather(s, Gather(idx, sub)) == Gather(Gather(s, idx), sub)
  {
  }

  /** The normal windows kept are drawn without repetition from the normal windows. */
  lemma KeptNormals(s: seq<Sample>, pickChoice: nat -> nat)
    requires KeepCount(s) <= |Where(s, Oversampling.NORMAL, true)|
    ensures var kept := Gather(s, KeptNormalPositions(s, pickChoice));
      |kept| == KeepCount(s) &&
      multiset(kept) <= multiset(Filter(s, Oversampling.NORMAL, true)) &&
      forall k :: 0 <= k < |kept| ==> Matches(kept[k], Oversampling.NORMAL, true)
  {
    var normalIdx := Where(s, Oversampling.NORMAL, true);
    var normals := Filter(s, Oversampling.NORMAL, true);
    GatherWhere(s, Oversampling.NORMAL, true);
    var perm := Shuffled(Range(|normalIdx|), pickChoice);
    ShuffledPermutes(Range(|normalIdx|), pickChoice);
    ShuffledInBounds(Range(|normalIdx|), |normalIdx|, pickChoice);
    GatherGather(s, normalIdx, perm[..KeepCount(s)]);
    GatherPrefixIsSubMultiset(normals, perm, KeepCount(s));
  }

  /** Undersampling keeps every anomaly window and `KeepCount` of the normal windows, none of
      them more often than it occurs, and changes nothing when the normals are within the
      target. */
  lemma UndersampledCounts(s: seq<Sample>, pickChoice: nat -> nat, pickShuffle: nat -> nat)
    ensures var out := Undersampled(s, pickChoice, pickShuffle);
      Count(out, Oversampling.NORMAL) == KeepCount(s) &&
      multiset(Filter(out, Oversampling.NORMAL, false)) == multiset(Filter(s, Oversampling.NORMAL, false)) &&
      multiset(Filter(out, Oversampling.NORMAL, true)) <= multiset(Filter(s, Oversampling.NORMAL, true)) &&
      (Count(s, Oversampling.NORMAL) <= KeepCount(s) ==> out == s)
  {
    GatherWhere(s, Oversampling.NORMAL, true);
    GatherWhere(s, Oversampling.NORMAL, false);
    var out := Undersampled(s, pickChoice, pickShuffle);
    var normals := Filter(s, Oversampling.NORMAL, true);
    var anomalies := Filter(s, Oversampling.NORMAL, false);
    if |normals| > KeepCount(s) {
      var keepIdx := KeptNormalPositions(s, pickChoice);
      var finalIdx := keepIdx + Where(s, Oversampling.NORMAL, false);
      var kept := Gather(s, keepIdx);
      KeptNormals(s, pickChoice);
      ShuffledInBounds(finalIdx, |s|, pickShuffle);
      ShuffledPermutes(finalIdx, pickShuffle);
      GatherRespectsMultiset(s, Shuffled(finalIdx, pickShuffle), finalIdx);
      GatherConcat(s, keepIdx, Where(s, Oversampling.NORMAL, false));
      assert multiset(out) == multiset(kept + anomalies);
      KeptAndAnomalies(kept, anomalies);
      FilterRespectsMultiset(out, kept + anomalies, Oversampling.NORMAL, true);
      FilterRespectsMultiset(out, kept + anomalies, Oversampling.NORMAL, false);
    }
  }

  /** Normal windows followed by anomaly windows filter back into the two. */
  lemma KeptAndAnomalies(kept: seq<Sample>, anomalies: seq<Sample>)
    requires forall k :: 0 <= k < |kept| ==> Matches(kept[k], Oversampling.NORMAL, true)
    requires forall k :: 0 <= k < |anomalies| ==> Matches(anomalies[k], Oversampling.NORMAL, false)
    ensures Filter(kept + anomalies, Oversampling.NORMAL, true) == kept
    ensures Filter(kept + anomalies, Oversampling.NORMAL, false) == anomalies
  {
    FilterConcat(kept, anomalies, Oversampling.NORMAL, true);
    FilterConcat(kept, anomalies, Oversampling.NORMAL, false);
    FilterAll(kept, Oversampling.NORMAL, true);
    FilterAll(anomalies, Oversampling.NORMAL, false);
    FilterNone(kept, Oversampling.NORMAL, false);
    FilterNone(anomalies, Oversampling.NORMAL, true);
  }
}
