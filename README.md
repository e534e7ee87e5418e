# Pump/dump labelling and training-set preparation, modelled in Dafny

This project models the batch pipeline in `Prepare_data/`. It has three stages.

- **Labelling** (`label_pump_dump.py`):
  - checks the required columns and orders the 1-minute rows by open time;
  - computes per-timeframe features: price return, rolling z-scores of return and volume, and close position;
  - resamples the candles into 5- and 15-minute bars and joins the bars back onto every row with a backward as-of join;
  - counts eight pump and eight dump conditions per row and applies the label rule;
  - demotes labels with the five-row forward-return veto.
- **Sequences and rebalancing** (`Data_prepare_bilstm.py`):
  - builds sliding windows labelled by their last row (`create_sequences`);
  - adds augmented copies of the dump and pump windows, then shuffles (`oversample_sequences`);
  - from `main`: the label remap, the chronological 80/10/10 split and undersampling of the normal class.
- **Flattening** (`Data_prepare_Lightgmb.py`): turns each window into one row of `_last` columns plus six statistics per important channel (`flatten_sequences`).

Values are `real`, timestamps are whole minutes and the square root is a parameter. Random draws are parameters too:
- a Fisher-Yates stream `pick`, where step `i` swaps position `i` with `pick(i) % (i + 1)`;
- per-batch noise, scale and warp draws.

Step-by-step source becomes imperative Dafny proved against a specification function:
- the in-place shuffle and the masked label writes work on arrays;
- the window, copy and flattening loops are `while` loops;
- the undersampling step has no loop of its own: it builds two index arrays and shuffles them in place with the shuffle above;
- the remaining code (features, resampling, the join, the rules, the split) is functions and lemmas.

Modules, one per file:

| file | module | models |
|---|---|---|
| wrappers.dfy | `Wrappers` | `Option` and `Result` |
| columns.dfy | `Columns` | missing-column lists, first index of a name |
| stats.dfy | `Stats` | sum, mean, max, min, variances, `[-k:]` |
| zscore.dfy | `RollingZScore` | `calculate_rolling_zscore` |
| features.dfy | `CandleFeatures` | `calculate_features_for_df` |
| resample.dfy | `Resample` | `resample(...).agg(...).dropna()`, `merge_asof(direction='backward')` |
| labeller.dfy | `PumpDumpLabeller` | `label_anomaly_pump_dump` |
| sequences.dfy | `SequenceBuilder` | `create_sequences`, the feature lists |
| classes.dfy | `SampleClasses` | `np.where` on labels, class counts |
| permutation.dfy | `Permutation` | `np.random.shuffle`, `np.arange`, fancy indexing |
| oversample.dfy | `Oversampling` | `oversample_sequences` |
| prepare.dfy | `TrainingSet` | label remap, split, undersampling |
| flatten.dfy | `Flattening` | `flatten_sequences` |

**The join looks ahead.** A 1-minute row receives features of a coarser bar that can close after the row's own time:
- pandas labels a resampled bar by its bucket *start* (lines 93-94);
- the backward join therefore matches a row with the bar of its own bucket (lines 101-102);
- that bar's close, high, low and volume also cover the rest of the bucket, up to 4 or 14 minutes later.

The model follows the code:
- `Resample.AlignedBar` and `PumpDumpLabeller.JoinTakesOwnBucketBar` prove that the matched bar is always the row's own bucket;
- `PumpDumpLabeller.JoinLooksAhead` gives a two-candle example in which row 0's 5-minute price return uses the close of the candle four minutes later.

## Model

| member | source | states |
|---|---|---|
| Columns.MissingNames | Prepare_data/label_pump_dump.py:67 | the missing list holds exactly the required names absent from the columns, and is empty iff all are present |
| Columns.IndexOf | Prepare_data/Data_prepare_Lightgmb.py:57 | `list.index`: a position holding the name, with no earlier position holding it |
| RollingZScore.ZScore | Prepare_data/label_pump_dump.py:11-16 | as long as the input; 0 where the trailing window has fewer than `min_periods` or fewer than two values, or the sample std is 0; elsewhere `z * std == x - mean` over the trailing window |
| RollingZScore.TrailingWindow | Prepare_data/label_pump_dump.py:12-13 | the rolling window at a row holds min(row + 1, window) values |
| RollingZScore.ShiftInvariant | Prepare_data/label_pump_dump.py:11-16 | adding a constant to the series leaves every z-score unchanged |
| RollingZScore.ConstantWindowScoresZero | Prepare_data/label_pump_dump.py:11-16 | a trailing window whose values all equal the current one scores 0 |
| RollingZScore.SignFollowsDeviation | Prepare_data/label_pump_dump.py:11-16 | with a positive std the score is positive iff the value is above the trailing mean, and negative iff below |
| Stats.MaxIsGreatest | Prepare_data/label_pump_dump.py:91 | the `max` aggregate is an element and bounds every element |
| Stats.MinIsLeast | Prepare_data/label_pump_dump.py:91 | the `min` aggregate is an element and bounds every element from below |
| Stats.MeanBetweenMinAndMax | Prepare_data/Data_prepare_Lightgmb.py:62-65 | min ≤ mean ≤ max for any non-empty window |
| Stats.VarianceShift | Prepare_data/label_pump_dump.py:13 | both variances are invariant under adding a constant |
| Stats.LastK | Prepare_data/Data_prepare_Lightgmb.py:70 | for k ≥ 1, `[-k:]` is the suffix of length min(k, n); only k = 10 is used |
| CandleFeatures.TimeframeMinutes | Prepare_data/label_pump_dump.py:24-26 | 5 exactly for `_5m`, 15 exactly for `_15m`, otherwise 1 |
| CandleFeatures.MinPeriods | Prepare_data/label_pump_dump.py:29 | at least 1, at most a non-empty window, and `window // 6` once the window is 6 or more |
| CandleFeatures.DefaultWindows | Prepare_data/label_pump_dump.py:24-29 | windows 360/72/24 with min_periods 60/12/4 for 1m/5m/15m |
| CandleFeatures.PriceReturn | Prepare_data/label_pump_dump.py:32-35 | 0 exactly when open is 0; otherwise `r * open == close - open` |
| CandleFeatures.ClosePosition | Prepare_data/label_pump_dump.py:43-45 | 0.5 for a flat bar; otherwise `r * (high - low) == close - low` |
| CandleFeatures.ClosePositionInUnitInterval | Prepare_data/label_pump_dump.py:43-45 | a close within a bar of positive range has position in [0, 1] |
| CandleFeatures.CalculateFeatures | Prepare_data/label_pump_dump.py:21-53 | four columns as long as the bars; per-bar return and close position; z-scores of return and volume over `base // minutes` bars with `MinPeriods`, for a window of at least one bar (pandas rejects a zero window; the callers pass 360 minutes) |
| Resample.AggregateSummarises | Prepare_data/label_pump_dump.py:90-94 | a bar's open is the first candle's, its close the last's, its volume the sum; its high and low are attained and bound every candle |
| Resample.RunEndSpec | Prepare_data/label_pump_dump.py:93-94 | a run holds exactly the candles of its bucket, up to the first candle outside it |
| Resample.InBucketMembers | Prepare_data/label_pump_dump.py:93-94 | a bucket's group holds exactly the candles whose bucket it is |
| Resample.RunIsBucket | Prepare_data/label_pump_dump.py:93-94 | on time-ordered candles, a run starting at a bucket boundary is that bucket's whole group |
| Resample.RunsShape | Prepare_data/label_pump_dump.py:93-94 | runs are non-empty, in bounds, and end where their bucket ends; there are at most as many runs as candles |
| Resample.RunsStartAtBoundaries | Prepare_data/label_pump_dump.py:93-94 | every run after the first begins where the bucket changes |
| Resample.RunsIncreasing | Prepare_data/label_pump_dump.py:93-94 | on time-ordered candles, the runs' buckets strictly increase |
| Resample.RunOf | Prepare_data/label_pump_dump.py:93-94 | every candle lies in a run of its own bucket |
| Resample.ResampleBar | Prepare_data/label_pump_dump.py:90-94 | there is one bar per run; bar j aggregates run j and is labelled by that run's bucket start |
| Resample.ResampleLength | Prepare_data/label_pump_dump.py:93-94 | empty buckets are dropped: no more bars than candles |
| Resample.ResampleLabelsAreBucketStarts | Prepare_data/label_pump_dump.py:93-94 | bars are labelled by their bucket start |
| Resample.ResampleIncreasing | Prepare_data/label_pump_dump.py:93-94 | bar labels strictly increase |
| Resample.ResampleAggregatesBuckets | Prepare_data/label_pump_dump.py:90-94 | every bar is first/max/min/last/sum over exactly the candles of its bucket, which is non-empty |
| Resample.AsOf | Prepare_data/label_pump_dump.py:101-102 | the backward as-of match: the last key ≤ t, or none when every key is later |
| Resample.AsOfIsGreatestEarlierKey | Prepare_data/label_pump_dump.py:101-102 | on increasing keys the match is ≤ t and every later key is > t, and there is no match iff every key is > t |
| Resample.BucketBounds | Prepare_data/label_pump_dump.py:93-94 | a time lies in its bucket: at or after the bucket start and before the next bucket |
| Resample.AsOfLast | Prepare_data/label_pump_dump.py:101-102 | a key ≤ t followed only by keys > t is the one the join matches |
| Resample.AsOfFindsOwnBucket | Prepare_data/label_pump_dump.py:93-102 | a candle is matched with the bar labelled by its own bucket start, whenever that bar exists |
| Resample.AlignedBar | Prepare_data/label_pump_dump.py:101-102 | the join always finds a bar for a candle, namely the bar of the candle's own bucket |
| PumpDumpLabeller.SortByTimeCorrect | Prepare_data/label_pump_dump.py:72 | the sort orders rows by open time and is a permutation |
| PumpDumpLabeller.InsertByTimeSorted | Prepare_data/label_pump_dump.py:72 | inserting a row into time-ordered rows keeps them ordered |
| PumpDumpLabeller.InsertByTimePermutes | Prepare_data/label_pump_dump.py:72 | inserting adds exactly that row |
| PumpDumpLabeller.OneMinuteColumns | Prepare_data/label_pump_dump.py:86-110 | a row's 1m columns are its own candle's return, close position and z-scores (360/60) |
| PumpDumpLabeller.OrderImbalanceBounded | Prepare_data/label_pump_dump.py:119-120 | with non-negative quotes the order imbalance is defined and strictly inside (-1, 1) |
| PumpDumpLabeller.JoinTakesOwnBucketBar | Prepare_data/label_pump_dump.py:93-102 | each row gets the features of the bar of its own bucket: labelled at or before the row, aggregating the whole bucket |
| PumpDumpLabeller.JoinLooksAhead | Prepare_data/label_pump_dump.py:93-102 | two candles at minutes 0 and 4 form one 5m bar closing at the later close, and row 0 receives that bar's return |
| PumpDumpLabeller.CountTrue | Prepare_data/label_pump_dump.py:159-160 | at most the number of conditions; 0 iff none holds; all iff all hold |
| PumpDumpLabeller.CountTrueCountsTrue | Prepare_data/label_pump_dump.py:159-160 | the sum counts the true conditions |
| PumpDumpLabeller.SignalsTableColumns | Prepare_data/label_pump_dump.py:101-160 | a row's condition inputs are its own sentiment and close position, the 360/60 z-scores of its return, volume and bid/ask ratio, and the return and volume z-scores of the 5m and 15m bars labelled by its own buckets |
| PumpDumpLabeller.SumsBounded | Prepare_data/label_pump_dump.py:148-160 | pump_sum and dump_sum lie in 0..8 |
| PumpDumpLabeller.FifteenMinuteVolumeNotCounted | Prepare_data/label_pump_dump.py:139-160 | the 15m volume z-score changes neither sum nor the label |
| PumpDumpLabeller.RulesExclusive | Prepare_data/label_pump_dump.py:163-164 | the pump and dump masks never hold together |
| PumpDumpLabeller.PumpLabelIff | Prepare_data/label_pump_dump.py:162-164 | label 1 iff pump_sum ≥ 4, 1m return z > 2.5 and 1m volume z > 2.5 |
| PumpDumpLabeller.DumpLabelIff | Prepare_data/label_pump_dump.py:162-164 | label -1 iff dump_sum ≥ 4, 1m return z < -2.5, 1m volume z > 2.5 and pump_sum < 4 |
| PumpDumpLabeller.NeutralOtherwise | Prepare_data/label_pump_dump.py:162-164 | label 0 iff neither mask holds; the label is in {-1, 0, 1} |
| PumpDumpLabeller.FutureReturn | Prepare_data/label_pump_dump.py:167-169 | defined iff five rows remain and the close is non-zero |
| PumpDumpLabeller.FutureReturnSign | Prepare_data/label_pump_dump.py:168 | for a positive close, negative iff the close five rows on is lower, positive iff higher |
| PumpDumpLabeller.VetoOnlyDemotes | Prepare_data/label_pump_dump.py:170-171 | the veto keeps the label or demotes it to 0; it never creates or flips one |
| PumpDumpLabeller.VetoNeedsFuture | Prepare_data/label_pump_dump.py:169-171 | rows without a future return keep their rule label |
| PumpDumpLabeller.SurvivorsAgreeWithFuture | Prepare_data/label_pump_dump.py:170-171 | a surviving pump has future return ≥ 0 and a surviving dump ≤ 0, when the return exists |
| PumpDumpLabeller.AssignWhere | Prepare_data/label_pump_dump.py:163 | a masked `df.loc` write: masked cells take the value, the others keep their old value |
| PumpDumpLabeller.LabelColumn | Prepare_data/label_pump_dump.py:162-171 | the four in-place masked writes over 0 produce each row's rule label after the veto |
| PumpDumpLabeller.LabelAnomalyPumpDump | Prepare_data/label_pump_dump.py:58-176 | the step-by-step labeller (in-place label writes) agrees with the functional pipeline `Label`, whose failure and output are described by the three lemmas below |
| PumpDumpLabeller.FailsExactlyOnMissingColumns | Prepare_data/label_pump_dump.py:62-69 | fails iff a required column is absent, naming exactly the absent ones |
| PumpDumpLabeller.OutputIsSortedInput | Prepare_data/label_pump_dump.py:72-176 | the output has the input rows, each once, ordered by open time |
| PumpDumpLabeller.OutputLabels | Prepare_data/label_pump_dump.py:159-176 | each output row carries its `future_return`, and its label is the rule label vetoed by that return, in {-1, 0, 1}; both counts ≤ 8 |
| SequenceBuilder.ExpectedFeatureCount | Prepare_data/Data_prepare_bilstm.py:17-33 | 9 base and 17 computed features, 26 in all |
| SequenceBuilder.WindowCount | Prepare_data/Data_prepare_bilstm.py:50 | the number of start rows whose window of L rows fits in the table: the last start fits and the next would not, L = 0 included |
| SequenceBuilder.CreateSequences | Prepare_data/Data_prepare_bilstm.py:38-56 | an error naming every missing feature; otherwise max(0, n-L+1) windows, window k being rows k..k+L-1 in feature order, labelled by row k+L-1 |
| SequenceBuilder.LabelOfLastRow | Prepare_data/Data_prepare_bilstm.py:52 | for L ≥ 1 a window's label row is its last row |
| SequenceBuilder.ConsecutiveWindowsOverlap | Prepare_data/Data_prepare_bilstm.py:50-51 | window k+1 is window k moved on by one row |
| SampleClasses.GatherWhere | Prepare_data/Data_prepare_bilstm.py:86-91 | `X[np.where(y == c)[0]]` is the class-c samples in order |
| SampleClasses.Filter | Prepare_data/Data_prepare_bilstm.py:178-181 | selecting by class keeps only samples of that class (or, negated, of the others) and never grows |
| SampleClasses.FilterSubMultiset | Prepare_data/Data_prepare_bilstm.py:186-191 | selecting a class from a sub-multiset gives a sub-multiset |
| SampleClasses.FilterRespectsMultiset | Prepare_data/Data_prepare_bilstm.py:108 | class counts are invariant under rearrangement |
| SampleClasses.FilterSplits | Prepare_data/Data_prepare_bilstm.py:178-181 | every sample is either in a class or outside it |
| Permutation.Shuffle | Prepare_data/Data_prepare_bilstm.py:104 | the in-place Fisher-Yates shuffle yields `Shuffled` of the old contents, a permutation |
| Permutation.ShuffledPermutes | Prepare_data/Data_prepare_bilstm.py:104 | the shuffle only rearranges |
| Permutation.GatherPermutationPermutes | Prepare_data/Data_prepare_bilstm.py:105 | indexing by a permutation of the positions only rearranges |
| Permutation.GatherPrefixIsSubMultiset | Prepare_data/Data_prepare_bilstm.py:187 | a draw without replacement selects a sub-multiset |
| Oversampling.AugmentKeepsShape | Prepare_data/Data_prepare_bilstm.py:66-83 | augmentation keeps the window count and every window's steps × channels |
| Oversampling.NeutralDrawKeepsBatch | Prepare_data/Data_prepare_bilstm.py:66-83 | zero noise, unit scale and unit warp give back the batch |
| Oversampling.ClassCopies | Prepare_data/Data_prepare_bilstm.py:85-97 | the per-class loop appends exactly the factor-1 augmented batches of that class |
| Oversampling.ShuffleSamples | Prepare_data/Data_prepare_bilstm.py:99-105 | the output is the pool indexed by a shuffled range: a permutation of the pool |
| Oversampling.Oversample | Prepare_data/Data_prepare_bilstm.py:61-113 | the result is the shuffled pool of originals and copies, a permutation of it |
| Oversampling.CopiesOfClass | Prepare_data/Data_prepare_bilstm.py:95 | every copy carries its source class |
| Oversampling.CopyAt | Prepare_data/Data_prepare_bilstm.py:92-95 | copy `i` of window `w` sits at `i * n + w` and is that window augmented by batch draw `i` |
| Oversampling.AddedClass | Prepare_data/Data_prepare_bilstm.py:85-97 | a class with factor f ≥ 1 gains (f-1)·n copies, all of that class |
| Oversampling.OversampledCounts | Prepare_data/Data_prepare_bilstm.py:61-113 | dump and pump counts become factor × count (unchanged below factor 1), other classes are unchanged, every original is kept, and the total is originals plus copies |
| Oversampling.NothingAddedWithoutWindowsOrFactor | Prepare_data/Data_prepare_bilstm.py:87-93 | a class without windows, or with factor ≤ 1, adds nothing |
| Oversampling.AugmentedWindowsKeepShape | Prepare_data/Data_prepare_bilstm.py:66-95 | every augmented window has its source's shape and class |
| TrainingSet.RemapLabel | Prepare_data/Data_prepare_bilstm.py:140-141 | defined exactly on -1, 0 and 1, where it adds one |
| TrainingSet.RemapLabelClasses | Prepare_data/Data_prepare_bilstm.py:140-141 | -1, 0 and 1 map to the dump, normal and pump classes of the rebalancing |
| TrainingSet.RemapLabels | Prepare_data/Data_prepare_bilstm.py:140-141 | labeller labels map into 0..2 and subtracting one recovers them; other values become missing |
| TrainingSet.SplitPoints | Prepare_data/Data_prepare_bilstm.py:156-158 | the split points are floor(0.8n) and floor(0.9n), in order, within n |
| TrainingSet.Split | Prepare_data/Data_prepare_bilstm.py:160-162 | three consecutive parts whose concatenation is the input, of sizes floor(0.8n), floor(0.9n) - floor(0.8n) and the rest |
| TrainingSet.SplitPositions | Prepare_data/Data_prepare_bilstm.py:160-162 | each window lands in exactly one part, at the offset its position gives |
| TrainingSet.Undersample | Prepare_data/Data_prepare_bilstm.py:177-193 | the result is `Undersampled`; it holds `KeepCount` normals and every anomaly unchanged, and its normals are a sub-multiset of the input's |
| TrainingSet.KeptNormals | Prepare_data/Data_prepare_bilstm.py:187 | the normal draw has `n_keep` windows, all normal, none more often than in the input |
| TrainingSet.UndersampledCounts | Prepare_data/Data_prepare_bilstm.py:177-193 | normal count becomes min(20·anomalies, normals); anomalies are kept as a multiset; normals are a sub-multiset; nothing changes when normals are within the target |
| Flattening.FlattenSequences | Prepare_data/Data_prepare_Lightgmb.py:26-79 | IndexError without time steps, ValueError on a channel/name mismatch; otherwise the `FlatColumns` and one `FlatRow` per window |
| Flattening.StatFrames | Prepare_data/Data_prepare_Lightgmb.py:53-75 | the loop over important columns appends exactly the statistic columns of the present ones |
| Flattening.Included | Prepare_data/Data_prepare_Lightgmb.py:53-55 | exactly the important columns present among the feature names get statistics |
| Flattening.FlatWidth | Prepare_data/Data_prepare_Lightgmb.py:37-78 | F + 6k columns and values per row |
| Flattening.FlatLastStep | Prepare_data/Data_prepare_Lightgmb.py:37-40 | column i is `<name>_last` and holds the final time step's value i |
| Flattening.ChannelBlock | Prepare_data/Data_prepare_Lightgmb.py:57-75 | the j-th included channel's six columns are named after it and hold its statistics, read at the first index of its name |
| Flattening.StatsOrdered | Prepare_data/Data_prepare_Lightgmb.py:62-74 | min_60 ≤ mean_60 ≤ max_60, mean_10 ≤ max_10 ≤ max_60, std is the root of a non-negative variance |
| Flattening.VarianceNonNegative | Prepare_data/Data_prepare_Lightgmb.py:63 | the population variance under `np.std` is non-negative |
| Flattening.RecentBelowMax | Prepare_data/Data_prepare_Lightgmb.py:64-73 | the maximum of the last ten steps is at most the window maximum |
| Flattening.FlatRowOrdered | Prepare_data/Data_prepare_Lightgmb.py:61-78 | in every flattened row, each included channel's statistics are so ordered at the columns named for them |

## Left out

- Missing values: the `ffill().bfill().fillna(0)` fills (label_pump_dump.py lines 78-79 and 104, Data_prepare_bilstm.py line 137). Every value is present in the model. A floating-point division that would give a non-finite number (the imbalance and spread columns) is `None`.
- Floating point: values are mathematical reals. `int(n * 0.8)` and `int(n * 0.9)` are the exact floors `n*8/10` and `n*9/10`; the double rounding of 0.8 and 0.9 is not modelled. The square root is an uninterpreted parameter.
- Time: `pd.to_datetime` and timestamps become whole minutes since a midnight. Resample buckets are multiples of the bar length, which matches pandas' day-aligned origin.
- PumpDumpLabeller.SortByTimeCorrect: the sort is a stable insertion sort. pandas' default `sort_values` is not stable, so the order of rows with equal open times is not captured.
- Randomness: `np.random.normal` and `np.random.uniform` draws, the time-warp control points and `np.interp` are abstract per-batch draws (noise per cell, scale per window, warp per step). The seeds are not modelled. The undersampler's draw and shuffle take two streams where numpy uses one continuing stream.
- Oversampling.AugmentStep: the warp factor is an arbitrary draw rather than the linear interpolation of four normal control values.
- I/O and library steps: `read_csv`, `np.save`, `pickle`, `joblib`, parquet output, printing and `tqdm`. Also the `StandardScaler` fit (Data_prepare_bilstm.py lines 144-146) and `calculate_class_weights` (sklearn).
- The module-level script code of Data_prepare_Lightgmb.py (lines 15-21 and 84-114) and the metadata dictionary of `main`.
- Flattening.FlattenSequences: pandas' column labels are modelled as strings; duplicate names are neither rejected nor merged, as in pandas.
- The other steps of `main` in Data_prepare_bilstm.py (reading, `pd.to_datetime` and sorting at lines 129-131, the wiring of the single `create_sequences` call on the whole table at line 151 into the split, the oversampling of the training part and the undersampling, and saving). Only the label remap, the split and the undersampling are modelled; `create_sequences` and `oversample_sequences` are modelled as functions of their own.
