/** The multi-timeframe aligner of Prepare_data/label_pump_dump.py (lines 90-102): 1-minute
    candles resampled into 5- and 15-minute bars, and the backward as-of join that hands each
    1-minute row the features of one bar. Times are whole minutes counted from a midnight, so
    pandas' buckets (aligned to the first day's midnight) start at the multiples of the bar
    length. */
module Resample {
  import opened Stats
  import opened Wrappers
  import opened CandleFeatures

  /** The bar lengths the labeller resamples to: '5T' and '15T'. */
  type BarLength = k: nat | k == 5 || k == 15 witness 5

  /** The start of the bucket holding minute `t`: `t` rounded down to a multiple of `k`
      (Dafny's `/` rounds down for a positive divisor, as pandas' bucketing does). */
  function Bucket(t: int, k: BarLength): int
  {
    if k == 5 then (t / 5) * 5 else (t / 15) * 15
  }

  predicate SortedByTime(c: seq<Candle>)
  {
    forall i, j :: 0 <= i < j < |c| ==> c[i].time <= c[j].time
  }

  predicate StrictlyIncreasing(keys: seq<int>)
  {
    forall i, j :: 0 <= i < j < |keys| ==> keys[i] < keys[j]
  }

  function Times(c: seq<Candle>): (t: seq<int>)
    ensures |t| == |c|
    ensures forall i :: 0 <= i < |c| ==> t[i] == c[i].time
  {
    seq(|c|, i requires 0 <= i < |c| => c[i].time)
  }

  function Highs(c: seq<Candle>): (h: seq<real>)
    ensures |h| == |c|
    ensures forall i :: 0 <= i < |c| ==> h[i] == c[i].high
  {
    seq(|c|, i requires 0 <= i < |c| => c[i].high)
  }

  function Lows(c: seq<Candle>): (l: seq<real>)
    ensures |l| == |c|
    ensures forall i :: 0 <= i < |c| ==> l[i] == c[i].low
  {
    seq(|c|, i requires 0 <= i < |c| => c[i].low)
  }

  /** The bar of one non-empty bucket: open of the first candle, highest high, lowest low,
      close of the last candle, total volume, labelled with the bucket start. */
  function Aggregate(group: seq<Candle>, key: int): Candle
    requires |group| > 0
  {
    Candle(key, group[0].open, Max(Highs(group)), Min(Lows(group)), group[|group| - 1].close, Sum(Volumes(group)))
  }

  /** The bar's high and low are attained in the group and bound every candle of it. */
  lemma AggregateSummarises(group: seq<Candle>, key: int)
    requires |group| > 0
    ensures var b := Aggregate(group, key);
      b.time == key && b.open == group[0].open && b.close == group[|group| - 1].close &&
      b.volume == Sum(Volumes(group)) &&
      (exists i :: 0 <= i < |group| && group[i].high == b.high) &&
      (exists i :: 0 <= i < |group| && group[i].low == b.low) &&
      forall i :: 0 <= i < |group| ==> b.low <= group[i].low && group[i].high <= b.high
  {
    var b := Aggregate(group, key);
    MaxIsGreatest(Highs(group));
    MinIsLeast(Lows(group));
    var ih :| 0 <= ih < |group| && Highs(group)[ih] == b.high;
    var il :| 0 <= il < |group| && Lows(group)[il] == b.low;
  }

  /** Where the run of candles in bucket `key` that begins at position `i` ends. */
  function RunEnd(c: seq<Candle>, key: int, k: BarLength, i: nat): (e: nat)
    requires i <= |c|
    ensures i <= e <= |c|
    ensures i < |c| && Bucket(c[i].time, k) == key ==> i < e
    decreases |c| - i
  {
    if i == |c| || Bucket(c[i].time, k) != key then i else RunEnd(c, key, k, i + 1)
  }

  /** The run holds exactly the candles of bucket `key` up to the first one outside it. */
  lemma {:induction false} RunEndSpec(c: seq<Candle>, key: int, k: BarLength, i: nat)
    requires i <= |c|
    ensures var e := RunEnd(c, key, k, i);
      (forall j :: i <= j < e ==> Bucket(c[j].time, k) == key) &&
      (e < |c| ==> Bucket(c[e].time, k) != key)
    decreases |c| - i
  {
    if i < |c| && Bucket(c[i].time, k) == key {
      RunEndSpec(c, key, k, i + 1);
    }
  }

  /** A run of candles sharing a bucket: positions `start` up to, not including, `end`. */
  datatype Run = Run(start: nat, end: nat)

  /** The runs of the candles from position `i` on, in order. */
  function Runs(c: seq<Candle>, k: BarLength, i: nat): seq<Run>
    requires i <= |c|
    decreases |c| - i
  {
    if i == |c| then []
    else
      var e := RunEnd(c, Bucket(c[i].time, k), k, i);
      [Run(i, e)] + Runs(c, k, e)
  }

  predicate RunsWithin(c: seq<Candle>, runs: seq<Run>)
  {
    forall j :: 0 <= j < |runs| ==> runs[j].start < runs[j].end <= |c|
  }

  /** The bar of one run: its candles aggregated under the bucket start of its first one. */
  function RunBar(c: seq<Candle>, k: BarLength, r: Run): Candle
    requires r.start < r.end <= |c|
  {
    Aggregate(c[r.start..r.end], Bucket(c[r.start].time, k))
  }

  /** `resample(k minutes).agg(first, max, min, last, sum).dropna()` over time-ordered
      candles: one bar per bucket that holds a candle, in time order; buckets without a
      candle get no bar. */
  function Resample(c: seq<Candle>, k: BarLength): seq<Candle>
  {
    var runs := Runs(c, k, 0);
    RunsShape(c, k, 0);
    seq(|runs|, j requires 0 <= j < |runs| => RunBar(c, k, runs[j]))
  }

  /** The candles from position `i` on whose bucket starts at `key`, in order. */
  function Select(c: seq<Candle>, key: int, k: BarLength, i: nat): seq<Candle>
    requires i <= |c|
    decreases |c| - i
  {
    if i == |c| then []
    else (if Bucket(c[i].time, k) == key then [c[i]] else []) + Select(c, key, k, i + 1)
  }

  /** The candles of `c` whose bucket starts at `key`, in order. */
  function InBucket(c: seq<Candle>, key: int, k: BarLength): seq<Candle>
  {
    Select(c, key, k, 0)
  }

  lemma {:induction false} SelectMember(c: seq<Candle>, key: int, k: BarLength, i: nat, x: Candle)
    requires i <= |c|
    ensures x in Select(c, key, k, i) <==>
      Bucket(x.time, k) == key && exists j :: i <= j < |c| && c[j] == x
    decreases |c| - i
  {
    if i < |c| {
      SelectMember(c, key, k, i + 1, x);
      var h := if Bucket(c[i].time, k) == key then [c[i]] else [];
      assert Select(c, key, k, i) == h + Select(c, key, k, i + 1);
      if j :| i < j < |c| && c[j] == x {
        assert i + 1 <= j < |c| && c[j] == x;
      }
    }
  }

  /** Exactly the candles of `c` in bucket `key` make it through. */
  lemma InBucketMembers(c: seq<Candle>, key: int, k: BarLength)
    ensures forall x :: x in InBucket(c, key, k) <==> x in c && Bucket(x.time, k) == key
  {
    forall x ensures x in InBucket(c, key, k) <==> x in c && Bucket(x.time, k) == key {
      SelectMember(c, key, k, 0, x);
      if x in c {
        var j :| 0 <= j < |c| && c[j] == x;
      }
    }
  }

  /** A stretch of candles outside bucket `key` contributes nothing. */
  lemma {:induction false} SelectSkips(c: seq<Candle>, key: int, k: BarLength, i: nat, e: nat)
    requires i <= e <= |c|
    requires forall j :: i <= j < e ==> Bucket(c[j].time, k) != key
    ensures Select(c, key, k, i) == Select(c, key, k, e)
    decreases e - i
  {
    if i < e {
      SelectSkips(c, key, k, i + 1, e);
    }
  }

  /** A stretch of candles inside bucket `key` contributes all of itself. */
  lemma {:induction false} SelectTakes(c: seq<Candle>, key: int, k: BarLength, i: nat, e: nat)
    requires i <= e <= |c|
    requires forall j :: i <= j < e ==> Bucket(c[j].time, k) == key
    ensures Select(c, key, k, i) == c[i..e] + Select(c, key, k, e)
    decreases e - i
  {
    if i < e {
      var tail := Select(c, key, k, e);
      SelectTakes(c, key, k, i + 1, e);
      assert Select(c, key, k, i) == [c[i]] + (c[i + 1..e] + tail);
      ConsSlice(c, i, e);
      assert [c[i]] + (c[i + 1..e] + tail) == ([c[i]] + c[i + 1..e]) + tail;
    } else {
      assert c[i..e] == [];
    }
  }

  lemma ConsSlice<T>(s: seq<T>, i: nat, e: nat)
    requires i < e <= |s|
    ensures s[i..e] == [s[i]] + s[i + 1..e]
  {
  }

  /** On time-ordered candles, the run that begins at a bucket boundary `i` is the whole of
      its bucket. */
  lemma RunIsBucket(c: seq<Candle>, k: BarLength, i: nat)
    requires SortedByTime(c) && i < |c|
    requires i > 0 ==> Bucket(c[i - 1].time, k) != Bucket(c[i].time, k)
    ensures var key := Bucket(c[i].time, k);
      InBucket(c, key, k) == c[i..RunEnd(c, key, k, i)]
  {
    var key := Bucket(c[i].time, k);
    var e := RunEnd(c, key, k, i);
    RunEndSpec(c, key, k, i);
    forall j | 0 <= j < i ensures Bucket(c[j].time, k) != key {
      BucketMonotone(c[j].time, c[i - 1].time, k);
      BucketMonotone(c[i - 1].time, c[i].time, k);
    }
    SelectSkips(c, key, k, 0, i);
    SelectTakes(c, key, k, i, e);
    LaterRunsLater(c, k, i);
    SelectSkips(c, key, k, e, |c|);
  }

  /** On time-ordered candles, every candle after the run that begins at `i` lies in a later
      bucket. */
  lemma LaterRunsLater(c: seq<Candle>, k: BarLength, i: nat)
    requires SortedByTime(c) && i < |c|
    ensures var key := Bucket(c[i].time, k);
      forall j :: RunEnd(c, key, k, i) <= j < |c| ==> Bucket(c[j].time, k) > key
  {
    var key := Bucket(c[i].time, k);
    var e := RunEnd(c, key, k, i);
    RunEndSpec(c, key, k, i);
    forall j | e <= j < |c| ensures Bucket(c[j].time, k) > key {
      BucketMonotone(c[i].time, c[e].time, k);
      BucketMonotone(c[e].time, c[j].time, k);
    }
  }

  /** The first run from position `i` begins there and ends where its bucket does. */
  lemma RunsHead(c: seq<Candle>, k: BarLength, i: nat)
    requires i < |c|
    ensures var e := RunEnd(c, Bucket(c[i].time, k), k, i);
      |Runs(c, k, i)| == 1 + |Runs(c, k, e)| && Runs(c, k, i)[0] == Run(i, e)
  {
    var e := RunEnd(c, Bucket(c[i].time, k), k, i);
    var runs := [Run(i, e)] + Runs(c, k, e);
    assert Runs(c, k, i) == runs;
  }

  /** Past the first run, the runs are those after it. */
  lemma RunsTail(c: seq<Candle>, k: BarLength, i: nat, j: nat)
    requires i < |c| && j < |Runs(c, k, RunEnd(c, Bucket(c[i].time, k), k, i))|
    ensures 1 + j < |Runs(c, k, i)|
    ensures Runs(c, k, i)[1 + j] == Runs(c, k, RunEnd(c, Bucket(c[i].time, k), k, i))[j]
  {
    var e := RunEnd(c, Bucket(c[i].time, k), k, i);
    var rest := Runs(c, k, e);
    var runs := [Run(i, e)] + rest;
    assert Runs(c, k, i) == runs;
    assert runs[1 + j] == rest[j];
  }

  /** Every run is non-empty, lies at or after `i`, and ends where its bucket does. */
  lemma {:induction false} RunsShape(c: seq<Candle>, k: BarLength, i: nat)
    requires i <= |c|
    ensures |Runs(c, k, i)| <= |c| - i
    ensures forall j :: 0 <= j < |Runs(c, k, i)| ==>
      var r := Runs(c, k, i)[j];
      i <= r.start < r.end <= |c| && r.end == RunEnd(c, Bucket(c[r.start].time, k), k, r.start)
    decreases |c| - i
  {
    if i < |c| {
      var e := RunEnd(c, Bucket(c[i].time, k), k, i);
      RunsShape(c, k, e);
      RunsHead(c, k, i);
      forall j | 1 <= j < |Runs(c, k, i)|
        ensures var r := Runs(c, k, i)[j];
          i <= r.start < r.end <= |c| && r.end == RunEnd(c, Bucket(c[r.start].time, k), k, r.start)
      {
        RunsTail(c, k, i, j - 1);
      }
    }
  }

  /** Every run but the first from `i` begins where the bucket changes. */
  lemma {:induction false} RunsStartAtBoundaries(c: seq<Candle>, k: BarLength, i: nat)
    requires i <= |c|
    ensures forall j :: 0 <= j < |Runs(c, k, i)| ==>
      var s := Runs(c, k, i)[j].start;
      s == i || (0 < s < |c| && Bucket(c[s - 1].time, k) != Bucket(c[s].time, k))
    decreases |c| - i
  {
    if i < |c| {
      var key := Bucket(c[i].time, k);
      var e := RunEnd(c, key, k, i);
      RunsStartAtBoundaries(c, k, e);
      RunsShape(c, k, e);
      RunEndSpec(c, key, k, i);
      RunsHead(c, k, i);
      forall j | 1 <= j < |Runs(c, k, i)|
        ensures var s := Runs(c, k, i)[j].start;
          s == i || (0 < s < |c| && Bucket(c[s - 1].time, k) != Bucket(c[s].time, k))
      {
        RunsTail(c, k, i, j - 1);
      }
    }
  }

  /** Runs over candles whose buckets all start after `key` begin in buckets after `key`. */
  lemma {:induction false} RunsLater(c: seq<Candle>, k: BarLength, i: nat, key: int)
    requires i <= |c|
    requires forall j :: i <= j < |c| ==> Bucket(c[j].time, k) > key
    ensures forall j :: 0 <= j < |Runs(c, k, i)| ==>
      Runs(c, k, i)[j].start < |c| && Bucket(c[Runs(c, k, i)[j].start].time, k) > key
    decreases |c| - i
  {
    if i < |c| {
      var e := RunEnd(c, Bucket(c[i].time, k), k, i);
      RunsLater(c, k, e, key);
      RunsHead(c, k, i);
      forall j | 1 <= j < |Runs(c, k, i)|
        ensures Runs(c, k, i)[j].start < |c| && Bucket(c[Runs(c, k, i)[j].start].time, k) > key
      {
        RunsTail(c, k, i, j - 1);
      }
    }
  }

  /** On time-ordered candles the runs' buckets strictly increase. */
  lemma {:induction false} RunsIncreasing(c: seq<Candle>, k: BarLength, i: nat)
    requires SortedByTime(c) && i <= |c|
    ensures forall a, b :: 0 <= a < b < |Runs(c, k, i)| ==>
      Runs(c, k, i)[a].start < |c| && Runs(c, k, i)[b].start < |c| &&
      Bucket(c[Runs(c, k, i)[a].start].time, k) < Bucket(c[Runs(c, k, i)[b].start].time, k)
    decreases |c| - i
  {
    if i < |c| {
      var key := Bucket(c[i].time, k);
      var e := RunEnd(c, key, k, i);
      var runs, rest := Runs(c, k, i), Runs(c, k, e);
      RunsIncreasing(c, k, e);
      LaterRunsLater(c, k, i);
      RunsLater(c, k, e, key);
      RunsHead(c, k, i);
      forall a, b | 0 <= a < b < |runs|
        ensures runs[a].start < |c| && runs[b].start < |c| &&
          Bucket(c[runs[a].start].time, k) < Bucket(c[runs[b].start].time, k)
      {
        RunsTail(c, k, i, b - 1);
        assert runs[b] == rest[b - 1];
        if a > 0 {
          RunsTail(c, k, i, a - 1);
          assert runs[a] == rest[a - 1];
        } else {
          assert runs[a].start == i;
        }
      }
      assert runs == Runs(c, k, i);
    } else {
      assert Runs(c, k, i) == [];
    }
  }

  /** The position of the run, among those from position `s`, that holds candle `i`. */
  function RunOf(c: seq<Candle>, k: BarLength, s: nat, i: nat): (j: nat)
    requires s <= i < |c|
    ensures j < |Runs(c, k, s)|
    ensures Runs(c, k, s)[j].start <= i < Runs(c, k, s)[j].end
    ensures Runs(c, k, s)[j].start < |c| && Bucket(c[Runs(c, k, s)[j].start].time, k) == Bucket(c[i].time, k)
    decreases |c| - s
  {
    var key := Bucket(c[s].time, k);
    var e := RunEnd(c, key, k, s);
    RunsHead(c, k, s);
    RunEndSpec(c, key, k, s);
    if i < e then 0
    else
      var j := RunOf(c, k, e, i);
      RunsTail(c, k, s, j);
      1 + j
  }

  /** Bar `j` is the bar of run `j`. */
  lemma ResampleBar(c: seq<Candle>, k: BarLength, j: nat)
    requires j < |Runs(c, k, 0)|
    ensures |Resample(c, k)| == |Runs(c, k, 0)|
    ensures var r := Runs(c, k, 0)[j];
      r.start < r.end <= |c| && Resample(c, k)[j] == RunBar(c, k, r) &&
      Resample(c, k)[j].time == Bucket(c[r.start].time, k)
  {
    RunsShape(c, k, 0);
  }

  /** There are no more bars than candles. */
  lemma ResampleLength(c: seq<Candle>, k: BarLength)
    ensures |Resample(c, k)| <= |c|
  {
    RunsShape(c, k, 0);
  }

  /** Bar labels are bucket starts. */
  lemma ResampleLabelsAreBucketStarts(c: seq<Candle>, k: BarLength)
    ensures forall j :: 0 <= j < |Resample(c, k)| ==> Bucket(Resample(c, k)[j].time, k) == Resample(c, k)[j].time
  {
    RunsShape(c, k, 0);
    forall j | 0 <= j < |Resample(c, k)| ensures Bucket(Resample(c, k)[j].time, k) == Resample(c, k)[j].time {
      ResampleBar(c, k, j);
      BucketIdempotent(c[Runs(c, k, 0)[j].start].time, k);
    }
  }

  /** Bar labels strictly increase. */
  lemma ResampleIncreasing(c: seq<Candle>, k: BarLength)
    requires SortedByTime(c)
    ensures StrictlyIncreasing(Times(Resample(c, k)))
  {
    var bars := Resample(c, k);
    RunsShape(c, k, 0);
    RunsIncreasing(c, k, 0);
    forall a, b | 0 <= a < b < |bars| ensures Times(bars)[a] < Times(bars)[b] {
      ResampleBar(c, k, a);
      ResampleBar(c, k, b);
    }
  }

  lemma BucketIdempotent(t: int, k: BarLength)
    ensures Bucket(Bucket(t, k), k) == Bucket(t, k)
  {
  }

  /** Bar `b` is the aggregate of the candles of its own bucket, of which there is one at least. */
  predicate AggregatesItsBucket(c: seq<Candle>, k: BarLength, b: Candle)
  {
    var group := InBucket(c, b.time, k);
    group != [] && b == Aggregate(group, b.time)
  }

  /** Every bar aggregates exactly the candles of its bucket, and that bucket is not empty. */
  lemma ResampleAggregatesBuckets(c: seq<Candle>, k: BarLength)
    requires SortedByTime(c)
    ensures forall j :: 0 <= j < |Resample(c, k)| ==> AggregatesItsBucket(c, k, Resample(c, k)[j])
  {
    RunsShape(c, k, 0);
    RunsStartAtBoundaries(c, k, 0);
    forall j | 0 <= j < |Resample(c, k)| ensures AggregatesItsBucket(c, k, Resample(c, k)[j]) {
      ResampleBar(c, k, j);
      RunIsBucket(c, k, Runs(c, k, 0)[j].start);
    }
  }

  /** `merge_asof(direction = 'backward')` on one key: the last position whose key is at or
      before `t`, or None when every key is later. */
  function AsOf(keys: seq<int>, t: int): (r: Option<nat>)
    ensures r.Some? ==> r.value < |keys| && keys[r.value] <= t
    ensures r.Some? ==> forall j :: r.value < j < |keys| ==> keys[j] > t
    ensures r.None? <==> forall j :: 0 <= j < |keys| ==> keys[j] > t
  {
    if keys == [] then None
    else if keys[|keys| - 1] <= t then Some(|keys| - 1)
    else AsOf(keys[..|keys| - 1], t)
  }

  /** On increasing keys the as-of match is the greatest key at or before `t`. */
  lemma AsOfIsGreatestEarlierKey(keys: seq<int>, t: int)
    requires StrictlyIncreasing(keys)
    ensures var r := AsOf(keys, t);
      r.Some? ==> forall j :: 0 <= j < |keys| && keys[j] <= t ==> keys[j] <= keys[r.value]
  {
  }

  lemma BucketBounds(t: int, k: BarLength)
    ensures Bucket(t, k) <= t < Bucket(t, k) + k
  {
  }

  lemma BucketMonotone(a: int, b: int, k: BarLength)
    requires a <= b
    ensures Bucket(a, k) <= Bucket(b, k)
  {
  }

  /** Two different buckets are at least one bar length apart. */
  lemma BucketGap(a: int, b: int, k: BarLength)
    requires Bucket(a, k) < Bucket(b, k)
    ensures Bucket(a, k) + k <= Bucket(b, k)
  {
  }

  /** The bar the backward as-of join gives candle `i`: always found, and always the bar of
      the candle's own bucket, whose start is at or before the candle but whose high, low,
      close and volume also cover the rest of that bucket. */
  function AlignedBar(c: seq<Candle>, k: BarLength, i: nat): (j: nat)
    requires SortedByTime(c) && i < |c|
    ensures j < |Resample(c, k)|
    ensures Resample(c, k)[j].time == Bucket(c[i].time, k) <= c[i].time
    ensures AsOf(Times(Resample(c, k)), c[i].time) == Some(j)
  {
    var j := RunOf(c, k, 0, i);
    ResampleBar(c, k, j);
    BucketBounds(c[i].time, k);
    AsOfFindsOwnBucket(c, k, i, j);
    j
  }

  lemma AsOfFindsOwnBucket(c: seq<Candle>, k: BarLength, i: nat, j: nat)
    requires SortedByTime(c) && i < |c|
    requires j < |Resample(c, k)| && Resample(c, k)[j].time == Bucket(c[i].time, k)
    ensures AsOf(Times(Resample(c, k)), c[i].time) == Some(j)
  {
    var keys := Times(Resample(c, k));
    var t := c[i].time;
    ResampleIncreasing(c, k);
    ResampleLabelsAreBucketStarts(c, k);
    BucketBounds(t, k);
    forall j' | j < j' < |keys| ensures keys[j'] > t {
      BucketGap(keys[j], keys[j'], k);
    }
    AsOfLast(keys, t, j);
  }

  /** The as-of match is the position whose key is at or before `t` while all later keys
      are after it. */
  lemma AsOfLast(keys: seq<int>, t: int, j: nat)
    requires j < |keys| && keys[j] <= t
    requires forall j' :: j < j' < |keys| ==> keys[j'] > t
    ensures AsOf(keys, t) == Some(j)
  {
    var r := AsOf(keys, t);
    assert r.Some?;
    if r.value < j {
      assert false;
    }
  }
}
