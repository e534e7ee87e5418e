/** The pump/dump labeller of Prepare_data/label_pump_dump.py (label_anomaly_pump_dump): the
    required-column check, the time ordering, the 1-, 5- and 15-minute features joined onto
    every 1-minute row, the eight pump and eight dump conditions, the label rule and the
    five-row forward-return veto. Every value is present (the fills at lines 78-79 and 104 are
    not modelled); the square root is a parameter. */
module PumpDumpLabeller {
  import opened Wrappers
  import opened Stats
  import Columns
  import RollingZScore
  import opened CandleFeatures
  import Resample

  /** One input row: the columns the labeller requires, `openTime` in minutes. */
  datatype RawRow = RawRow(
    openTime: int, open: real, high: real, low: real, close: real, volume: real,
    topBidPrice: real, topAskPrice: real, spread: real, bidAskRatio: real, sentiment: real)

  /** A table as read: the names of its columns and its rows. */
  datatype Frame = Frame(columns: seq<string>, rows: seq<RawRow>)

  const REQUIRED_COLUMNS: seq<string> := [
    "open_time", "open", "high", "low", "close", "volume",
    "top_bid_price", "top_ask_price", "spread",
    "bid_ask_ratio", "final_sentiment_score"]

  /** The order-book z-scores use window 360 and pandas' default `min_periods` of 60. */
  const ORDER_BOOK_WINDOW: nat := 360
  const ORDER_BOOK_MIN_PERIODS: nat := 60

  /** The `1e-8` added to the denominators of the imbalance and spread columns. */
  const EPSILON: real := 0.00000001

  /** How many rows ahead the veto looks. */
  const HORIZON: nat := 5

  // ---------------------------------------------------------------------------------------
  // Ordering by open time (sort_values at line 72)

  predicate SortedByOpenTime(rows: seq<RawRow>)
  {
    forall i, j :: 0 <= i < j < |rows| ==> rows[i].openTime <= rows[j].openTime
  }

  /** Places `x` in front of the first row that is not earlier than it. */
  function InsertByTime(x: RawRow, s: seq<RawRow>): seq<RawRow>
  {
    if s == [] || x.openTime <= s[0].openTime then [x] + s
    else [s[0]] + InsertByTime(x, s[1..])
  }

  /** Insertion sort on open time; rows with equal times keep their input order. */
  function SortByTime(s: seq<RawRow>): seq<RawRow>
  {
    if s == [] then [] else InsertByTime(s[0], SortByTime(s[1..]))
  }

  lemma {:induction false} InsertByTimePermutes(x: RawRow, s: seq<RawRow>)
    ensures multiset(InsertByTime(x, s)) == multiset(s) + multiset{x}
  {
    if s != [] && x.openTime > s[0].openTime {
      InsertByTimePermutes(x, s[1..]);
      assert s == [s[0]] + s[1..];
    }
  }

  /** The inserted sequence holds `x` and the rows of `s`, and nothing else. */
  lemma {:induction false} InsertByTimeMembers(x: RawRow, s: seq<RawRow>)
    ensures forall y :: y in InsertByTime(x, s) <==> y == x || y in s
  {
    if s != [] && x.openTime > s[0].openTime {
      InsertByTimeMembers(x, s[1..]);
      assert s == [s[0]] + s[1..];
    }
  }

  lemma SortedTail(s: seq<RawRow>)
    requires SortedByOpenTime(s) && s != []
    ensures SortedByOpenTime(s[1..])
    ensures forall y :: y in s[1..] ==> s[0].openTime <= y.openTime
  {
    var tail := s[1..];
    forall i, j | 0 <= i < j < |tail| ensures tail[i].openTime <= tail[j].openTime {
      assert tail[i] == s[i + 1] && tail[j] == s[j + 1];
    }
    forall y | y in tail ensures s[0].openTime <= y.openTime {
      var k :| 0 <= k < |tail| && tail[k] == y;
      assert s[k + 1] == y;
    }
  }

  lemma SortedCons(h: RawRow, r: seq<RawRow>)
    requires SortedByOpenTime(r)
    requires forall y :: y in r ==> h.openTime <= y.openTime
    ensures SortedByOpenTime([h] + r)
  {
    var out := [h] + r;
    forall i, j | 0 <= i < j < |out| ensures out[i].openTime <= out[j].openTime {
      assert out[j] == r[j - 1];
      if i > 0 {
        assert out[i] == r[i - 1];
      }
    }
  }

  lemma {:induction false} InsertByTimeSorted(x: RawRow, s: seq<RawRow>)
    requires SortedByOpenTime(s)
    ensures SortedByOpenTime(InsertByTime(x, s))
  {
    if s == [] || x.openTime <= s[0].openTime {
      if s != [] {
        SortedTail(s);
      }
      SortedCons(x, s);
    } else {
      SortedTail(s);
      InsertByTimeSorted(x, s[1..]);
      InsertByTimeMembers(x, s[1..]);
      SortedCons(s[0], InsertByTime(x, s[1..]));
    }
  }

  /** The sort orders the rows by open time and only rearranges them. */
  lemma {:induction false} SortByTimeCorrect(s: seq<RawRow>)
    ensures SortedByOpenTime(SortByTime(s))
    ensures multiset(SortByTime(s)) == multiset(s)
    ensures |SortByTime(s)| == |s|
  {
    if s != [] {
      SortByTimeCorrect(s[1..]);
      InsertByTimeSorted(s[0], SortByTime(s[1..]));
      InsertByTimePermutes(s[0], SortByTime(s[1..]));
      assert s == [s[0]] + s[1..];
    }
    assert |multiset(SortByTime(s))| == |multiset(s)|;
  }

  // ---------------------------------------------------------------------------------------
  // The feature table (lines 83-122)

  function CandleOf(r: RawRow): Candle
  {
    Candle(r.openTime, r.open, r.high, r.low, r.close, r.volume)
  }

  function Candles(rows: seq<RawRow>): (c: seq<Candle>)
    ensures |c| == |rows|
    ensures forall i :: 0 <= i < |rows| ==> c[i] == CandleOf(rows[i])
  {
    seq(|rows|, i requires 0 <= i < |rows| => CandleOf(rows[i]))
  }

  lemma CandlesSorted(rows: seq<RawRow>)
    requires SortedByOpenTime(rows)
    ensures Resample.SortedByTime(Candles(rows))
  {
  }

  /** The four derived columns of one row or bar. */
  datatype BarFeatures = BarFeatures(priceReturn: real, zReturn: real, zVolume: real, closePosition: real)

  /** Every column the labeller adds to a row. The three ratio columns are None where the
      floating-point division would not give a finite number (a zero denominator). */
  datatype RowFeatures = RowFeatures(
    m1: BarFeatures, m5: BarFeatures, m15: BarFeatures,
    zBidAskRatio: real, zSpread: real, zTopBid: real,
    orderImbalance: Option<real>, spreadPct: Option<real>, volumeImbalance: Option<real>)

  function FeaturesAt(f: Features, j: nat): BarFeatures
    requires j < |f.priceReturn| && j < |f.zReturn| && j < |f.zVolume| && j < |f.closePosition|
  {
    BarFeatures(f.priceReturn[j], f.zReturn[j], f.zVolume[j], f.closePosition[j])
  }

  function Suffix(k: Resample.BarLength): string
  {
    if k == 5 then "_5m" else "_15m"
  }

  /** The 1-minute feature columns (line 86). */
  function OneMinute(rows: seq<RawRow>, sqrt: real -> real): Features
  {
    CalculateFeatures(Candles(rows), "_1m", BASE_WINDOW, sqrt)
  }

  /** The 5- or 15-minute bars (lines 93-94) and their feature columns (lines 97-98). */
  function Bars(rows: seq<RawRow>, k: Resample.BarLength): seq<Candle>
  {
    Resample.Resample(Candles(rows), k)
  }

  function BarTimeframe(rows: seq<RawRow>, k: Resample.BarLength, sqrt: real -> real): Features
  {
    CalculateFeatures(Bars(rows, k), Suffix(k), BASE_WINDOW, sqrt)
  }

  /** What the backward as-of join (lines 101-102) gives row `i` from the `k`-minute bars. */
  function Joined(rows: seq<RawRow>, k: Resample.BarLength, sqrt: real -> real, i: nat): BarFeatures
    requires SortedByOpenTime(rows) && i < |rows|
  {
    CandlesSorted(rows);
    var j := Resample.AlignedBar(Candles(rows), k, i);
    FeaturesAt(BarTimeframe(rows, k, sqrt), j)
  }

  function BidAskRatios(rows: seq<RawRow>): (s: seq<real>)
    ensures |s| == |rows| && forall i :: 0 <= i < |rows| ==> s[i] == rows[i].bidAskRatio
  {
    seq(|rows|, i requires 0 <= i < |rows| => rows[i].bidAskRatio)
  }

  function Spreads(rows: seq<RawRow>): (s: seq<real>)
    ensures |s| == |rows| && forall i :: 0 <= i < |rows| ==> s[i] == rows[i].spread
  {
    seq(|rows|, i requires 0 <= i < |rows| => rows[i].spread)
  }

  function TopBids(rows: seq<RawRow>): (s: seq<real>)
    ensures |s| == |rows| && forall i :: 0 <= i < |rows| ==> s[i] == rows[i].topBidPrice
  {
    seq(|rows|, i requires 0 <= i < |rows| => rows[i].topBidPrice)
  }

  function Closes(rows: seq<RawRow>): (s: seq<real>)
    ensures |s| == |rows| && forall i :: 0 <= i < |rows| ==> s[i] == rows[i].close
  {
    seq(|rows|, i requires 0 <= i < |rows| => rows[i].close)
  }

  /** `(bid - ask) / (bid + ask + 1e-8)` (lines 119-120). */
  function OrderImbalance(r: RawRow): Option<real>
  {
    var d := r.topBidPrice + r.topAskPrice + EPSILON;
    if d == 0.0 then None else Some((r.topBidPrice - r.topAskPrice) / d)
  }

  /** `spread / (close + 1e-8)` (line 121). */
  function SpreadPct(r: RawRow): Option<real>
  {
    var d := r.close + EPSILON;
    if d == 0.0 then None else Some(r.spread / d)
  }

  /** `order_imbalance * volume` (line 122). */
  function VolumeImbalance(r: RawRow): Option<real>
  {
    match OrderImbalance(r)
    case None => None
    case Some(v) => Some(v * r.volume)
  }

  /** With non-negative quotes the order imbalance is defined and strictly inside (-1, 1). */
  lemma OrderImbalanceBounded(r: RawRow)
    requires r.topBidPrice >= 0.0 && r.topAskPrice >= 0.0
    ensures OrderImbalance(r).Some? && -1.0 < OrderImbalance(r).value < 1.0
  {
    var d := r.topBidPrice + r.topAskPrice + EPSILON;
    var q := OrderImbalance(r).value;
    assert q * d == r.topBidPrice - r.topAskPrice;
    if q <= -1.0 {
      assert false;
    }
    if q >= 1.0 {
      assert false;
    }
  }

  lemma ScaleWeak(a: real, b: real, n: real)
    requires a <= b && n > 0.0
    ensures a * n <= b * n
  {
    assert (b - a) * n >= 0.0;
  }

  /** All columns of row `i` of the time-ordered rows. */
  function RowFeaturesAt(rows: seq<RawRow>, sqrt: real -> real, i: nat): RowFeatures
    requires SortedByOpenTime(rows) && i < |rows|
  {
    RowFeatures(
      FeaturesAt(OneMinute(rows, sqrt), i),
      Joined(rows, 5, sqrt, i),
      Joined(rows, 15, sqrt, i),
      RollingZScore.ZScore(BidAskRatios(rows), ORDER_BOOK_WINDOW, ORDER_BOOK_MIN_PERIODS, sqrt)[i],
      RollingZScore.ZScore(Spreads(rows), ORDER_BOOK_WINDOW, ORDER_BOOK_MIN_PERIODS, sqrt)[i],
      RollingZScore.ZScore(TopBids(rows), ORDER_BOOK_WINDOW, ORDER_BOOK_MIN_PERIODS, sqrt)[i],
      OrderImbalance(rows[i]), SpreadPct(rows[i]), VolumeImbalance(rows[i]))
  }

  /** A row's 1-minute columns are its own candle's, and its order-book z-scores look back
      360 rows and need 60 of them. */
  lemma OneMinuteColumns(rows: seq<RawRow>, sqrt: real -> real, i: nat)
    requires SortedByOpenTime(rows) && i < |rows|
    ensures var f := RowFeaturesAt(rows, sqrt, i);
      f.m1.priceReturn == PriceReturn(CandleOf(rows[i])) &&
      f.m1.closePosition == ClosePosition(CandleOf(rows[i])) &&
      f.m1.zReturn == RollingZScore.ZScore(PriceReturns(Candles(rows)), 360, 60, sqrt)[i] &&
      f.m1.zVolume == RollingZScore.ZScore(Volumes(Candles(rows)), 360, 60, sqrt)[i] &&
      f.zBidAskRatio == RollingZScore.ZScore(BidAskRatios(rows), 360, 60, sqrt)[i]
  {
    DefaultWindows();
  }

  /** The join always finds a bar for a time-ordered row: the as-of match on the bar labels,
      which is the bar of the row's own bucket. Its start is at or before the row, yet it
      aggregates every candle of that bucket, the later ones included. */
  lemma JoinTakesOwnBucketBar(rows: seq<RawRow>, k: Resample.BarLength, sqrt: real -> real, i: nat)
    requires SortedByOpenTime(rows) && i < |rows|
    ensures var bars := Bars(rows, k);
      var m := Resample.AsOf(Resample.Times(bars), rows[i].openTime);
      m.Some? &&
      bars[m.value].time == Resample.Bucket(rows[i].openTime, k) <= rows[i].openTime &&
      Resample.AggregatesItsBucket(Candles(rows), k, bars[m.value]) &&
      Joined(rows, k, sqrt, i) == FeaturesAt(BarTimeframe(rows, k, sqrt), m.value)
  {
    var c := Candles(rows);
    CandlesSorted(rows);
    var bars := Bars(rows, k);
    var j := Resample.AlignedBar(c, k, i);
    assert c[i].time == rows[i].openTime;
    assert Joined(rows, k, sqrt, i) == FeaturesAt(BarTimeframe(rows, k, sqrt), j);
    Resample.ResampleAggregatesBuckets(c, k);
    assert Resample.AggregatesItsBucket(c, k, bars[j]);
  }

  /** Two 1-minute candles at minutes 0 and 4: the first row's 5-minute close is the close of
      the candle four minutes later. */
  lemma JoinLooksAhead(a: RawRow, b: RawRow, sqrt: real -> real)
    requires a.openTime == 0 && b.openTime == 4
    ensures Bars([a, b], 5) == [Candle(0, a.open, Max([a.high, b.high]), Min([a.low, b.low]), b.close, a.volume + b.volume)]
    ensures Joined([a, b], 5, sqrt, 0).priceReturn == PriceReturn(Bars([a, b], 5)[0])
  {
    OneFiveMinuteBar(a, b);
    JoinTakesOwnBucketBar([a, b], 5, sqrt, 0);
  }

  lemma OneFiveMinuteBar(a: RawRow, b: RawRow)
    requires a.openTime == 0 && b.openTime == 4
    ensures Bars([a, b], 5) == [Candle(0, a.open, Max([a.high, b.high]), Min([a.low, b.low]), b.close, a.volume + b.volume)]
  {
    var c := Candles([a, b]);
    assert c == [CandleOf(a), CandleOf(b)];
    assert Resample.Runs(c, 5, 0) == [Resample.Run(0, 2)] by {
      assert Resample.RunEnd(c, 0, 5, 0) == 2 by {
        assert Resample.RunEnd(c, 0, 5, 2) == 2;
        assert Resample.RunEnd(c, 0, 5, 1) == 2;
      }
      assert Resample.Runs(c, 5, 2) == [];
    }
    assert Resample.RunBar(c, 5, Resample.Run(0, 2)) == Candle(0, a.open, Max([a.high, b.high]), Min([a.low, b.low]), b.close, a.volume + b.volume) by {
      assert c[0..2] == c;
      assert Resample.Highs(c) == [a.high, b.high];
      assert Resample.Lows(c) == [a.low, b.low];
      assert Volumes(c) == [a.volume, b.volume];
      assert Sum([a.volume, b.volume]) == a.volume + b.volume by {
        assert [a.volume, b.volume][1..] == [b.volume];
        assert [b.volume][1..] == [];
        assert Sum([b.volume]) == b.volume + Sum([]);
      }
    }
    Resample.ResampleBar(c, 5, 0);
  }

  // ---------------------------------------------------------------------------------------
  // Conditions and labels (lines 124-171)

  /** The inputs of the sixteen conditions for one row. */
  datatype Signals = Signals(
    zReturn1m: real, zVolume1m: real, closePosition1m: real,
    zReturn5m: real, zVolume5m: real, zReturn15m: real, zVolume15m: real,
    zBidAskRatio: real, sentiment: real)

  function SignalsOf(r: RawRow, f: RowFeatures): Signals
  {
    Signals(f.m1.zReturn, f.m1.zVolume, f.m1.closePosition, f.m5.zReturn, f.m5.zVolume,
            f.m15.zReturn, f.m15.zVolume, f.zBidAskRatio, r.sentiment)
  }

  /** The eight counted pump conditions, in the order of `pump_conditions`. */
  function PumpConditions(s: Signals): seq<bool>
  {
    [s.zReturn1m > 2.5, s.zVolume1m > 2.5, s.closePosition1m > 0.7,
     s.zReturn5m > 1.5, s.zVolume5m > 1.5,
     s.zReturn15m > 1.0, s.zBidAskRatio > 1.5, s.sentiment > 0.4]
  }

  /** The eight counted dump conditions, in the order of `dump_conditions`. */
  function DumpConditions(s: Signals): seq<bool>
  {
    [s.zReturn1m < -2.5, s.zVolume1m > 2.5, s.closePosition1m < 0.3,
     s.zReturn5m < -1.5, s.zVolume5m > 1.5,
     s.zReturn15m < -1.0, s.zBidAskRatio < -1.5, s.sentiment < -0.4]
  }

  /** `cond_15m_volume_pump` / `cond_15m_volume_dump` (lines 139, 141): computed, never counted. */
  function FifteenMinuteVolumeSurge(s: Signals): bool
  {
    s.zVolume15m > 1.0
  }

  /** The number of true entries. */
  function CountTrue(bs: seq<bool>): (n: nat)
    ensures n <= |bs|
    ensures n == 0 <==> forall k :: 0 <= k < |bs| ==> !bs[k]
    ensures n == |bs| <==> forall k :: 0 <= k < |bs| ==> bs[k]
  {
    if bs == [] then 0 else (if bs[0] then 1 else 0) + CountTrue(bs[1..])
  }

  function PumpSum(s: Signals): nat
  {
    CountTrue(PumpConditions(s))
  }

  function DumpSum(s: Signals): nat
  {
    CountTrue(DumpConditions(s))
  }

  /** The mask of line 163. */
  predicate PumpRule(s: Signals)
  {
    PumpSum(s) >= 4 && s.zReturn1m > 2.5 && s.zVolume1m > 2.5
  }

  /** The mask of line 164. */
  predicate DumpRule(s: Signals)
  {
    DumpSum(s) >= 4 && s.zReturn1m < -2.5 && s.zVolume1m > 2.5 && PumpSum(s) < 4
  }

  /** The label after lines 162-164: 0, overwritten by 1 where the pump mask holds, then by
      -1 where the dump mask holds. */
  function RuleLabel(s: Signals): int
  {
    if DumpRule(s) then -1 else if PumpRule(s) then 1 else 0
  }

  /** `close.shift(-5) / close - 1`, absent in the last five rows and where the close is 0
      (lines 167-169). */
  function FutureReturn(closes: seq<real>, i: nat): (f: Option<real>)
    ensures f.Some? <==> i + HORIZON < |closes| && closes[i] != 0.0
  {
    if i + HORIZON < |closes| && closes[i] != 0.0 then Some(closes[i + HORIZON] / closes[i] - 1.0) else None
  }

  /** The masks of lines 170 and 171. */
  predicate PumpVetoed(rule: int, f: Option<real>)
  {
    rule == 1 && f.Some? && f.value < 0.0
  }

  predicate DumpVetoed(rule: int, f: Option<real>)
  {
    rule == -1 && f.Some? && f.value > 0.0
  }

  /** The label after both demotions. */
  function Veto(rule: int, f: Option<real>): int
  {
    if PumpVetoed(rule, f) then 0 else if DumpVetoed(rule, f) then 0 else rule
  }

  /** CountTrue counts the occurrences of `true`. */
  lemma {:induction false} CountTrueCountsTrue(bs: seq<bool>)
    ensures CountTrue(bs) == multiset(bs)[true]
  {
    if bs != [] {
      CountTrueCountsTrue(bs[1..]);
      assert bs == [bs[0]] + bs[1..];
    }
  }

  /** Both sums count eight conditions, so they lie in 0..8. */
  lemma SumsBounded(s: Signals)
    ensures PumpSum(s) <= 8 && DumpSum(s) <= 8
  {
  }

  /** The 15-minute volume z-score feeds neither sum nor the label. */
  lemma FifteenMinuteVolumeNotCounted(s: Signals, v: real)
    ensures PumpSum(s.(zVolume15m := v)) == PumpSum(s)
    ensures DumpSum(s.(zVolume15m := v)) == DumpSum(s)
    ensures RuleLabel(s.(zVolume15m := v)) == RuleLabel(s)
  {
    assert PumpConditions(s.(zVolume15m := v)) == PumpConditions(s);
    assert DumpConditions(s.(zVolume15m := v)) == DumpConditions(s);
  }

  /** The pump and dump masks never hold together: one needs a 1m return z above 2.5, the
      other below -2.5. */
  lemma RulesExclusive(s: Signals)
    ensures !(PumpRule(s) && DumpRule(s))
  {
  }

  /** Label 1 exactly where the pump mask holds. */
  lemma PumpLabelIff(s: Signals)
    ensures RuleLabel(s) == 1 <==> PumpSum(s) >= 4 && s.zReturn1m > 2.5 && s.zVolume1m > 2.5
  {
    RulesExclusive(s);
  }

  /** Label -1 exactly where the dump mask holds. */
  lemma DumpLabelIff(s: Signals)
    ensures RuleLabel(s) == -1 <==>
      DumpSum(s) >= 4 && s.zReturn1m < -2.5 && s.zVolume1m > 2.5 && PumpSum(s) < 4
  {
  }

  /** Label 0 exactly where neither mask holds; so the label is one of -1, 0, 1. */
  lemma NeutralOtherwise(s: Signals)
    ensures RuleLabel(s) == 0 <==> !PumpRule(s) && !DumpRule(s)
    ensures RuleLabel(s) in {-1, 0, 1}
  {
  }

  /** The veto only demotes to 0: it never creates a pump or a dump, and never flips one. */
  lemma VetoOnlyDemotes(rule: int, f: Option<real>)
    ensures Veto(rule, f) == rule || Veto(rule, f) == 0
    ensures Veto(rule, f) != 0 ==> Veto(rule, f) == rule
  {
  }

  /** Without a future return the label stands. */
  lemma VetoNeedsFuture(rule: int, f: Option<real>)
    requires f.None?
    ensures Veto(rule, f) == rule
  {
  }

  /** A surviving pump does not fall over the next five rows and a surviving dump does not
      rise, whenever the future return exists. */
  lemma SurvivorsAgreeWithFuture(rule: int, f: Option<real>)
    requires rule in {-1, 0, 1}
    ensures Veto(rule, f) == 1 ==> f.None? || f.value >= 0.0
    ensures Veto(rule, f) == -1 ==> f.None? || f.value <= 0.0
    ensures Veto(rule, f) in {-1, 0, 1}
  {
  }

  /** For a positive close the future return is negative exactly when the close five rows on
      is lower, and positive exactly when it is higher. */
  lemma FutureReturnSign(closes: seq<real>, i: nat)
    requires i + HORIZON < |closes| && closes[i] > 0.0
    ensures FutureReturn(closes, i).value < 0.0 <==> closes[i + HORIZON] < closes[i]
    ensures FutureReturn(closes, i).value > 0.0 <==> closes[i + HORIZON] > closes[i]
  {
    var c0, c5 := closes[i], closes[i + HORIZON];
    var q := RollingZScore.Quotient(c5, c0);
    assert FutureReturn(closes, i).value == q - 1.0;
    if q < 1.0 { ScaleStrict(q, 1.0, c0); }
    if q > 1.0 { ScaleStrict(1.0, q, c0); }
    if c5 < c0 && q >= 1.0 { ScaleWeak(1.0, q, c0); }
    if c5 > c0 && q <= 1.0 { ScaleWeak(q, 1.0, c0); }
  }

  // ---------------------------------------------------------------------------------------
  // The labelled table

  /** One output row: the input row, its added columns, its label, its future return and both
      condition counts. */
  datatype LabeledRow = LabeledRow(
    row: RawRow, features: RowFeatures, anomaly: int, futureReturn: Option<real>,
    pumpConditions: nat, dumpConditions: nat)

  function SignalsTable(rows: seq<RawRow>, sqrt: real -> real): (sig: seq<Signals>)
    requires SortedByOpenTime(rows)
    ensures |sig| == |rows|
    ensures forall i :: 0 <= i < |rows| ==> sig[i] == SignalsOf(rows[i], RowFeaturesAt(rows, sqrt, i))
  {
    seq(|rows|, i requires 0 <= i < |rows| => SignalsOf(rows[i], RowFeaturesAt(rows, sqrt, i)))
  }

  /** The condition inputs of row `i`: its own sentiment; its own candle's close position; the
      360-row z-scores (60 required) of its candle's return and volume and of its bid/ask
      ratio; and the return and volume z-scores of the 5- and 15-minute bars labelled by the
      row's own buckets, which the join matches. */
  lemma SignalsTableColumns(rows: seq<RawRow>, sqrt: real -> real, i: nat)
    requires SortedByOpenTime(rows) && i < |rows|
    ensures var s := SignalsTable(rows, sqrt)[i];
      s.sentiment == rows[i].sentiment &&
      s.closePosition1m == ClosePosition(CandleOf(rows[i])) &&
      s.zReturn1m == RollingZScore.ZScore(PriceReturns(Candles(rows)), 360, 60, sqrt)[i] &&
      s.zVolume1m == RollingZScore.ZScore(Volumes(Candles(rows)), 360, 60, sqrt)[i] &&
      s.zBidAskRatio == RollingZScore.ZScore(BidAskRatios(rows), 360, 60, sqrt)[i]
    ensures var s := SignalsTable(rows, sqrt)[i];
      var bars, f := Bars(rows, 5), BarTimeframe(rows, 5, sqrt);
      var m := Resample.AsOf(Resample.Times(bars), rows[i].openTime);
      m.Some? && m.value < |f.zReturn| &&
      bars[m.value].time == Resample.Bucket(rows[i].openTime, 5) &&
      s.zReturn5m == f.zReturn[m.value] && s.zVolume5m == f.zVolume[m.value]
    ensures var s := SignalsTable(rows, sqrt)[i];
      var bars, f := Bars(rows, 15), BarTimeframe(rows, 15, sqrt);
      var m := Resample.AsOf(Resample.Times(bars), rows[i].openTime);
      m.Some? && m.value < |f.zReturn| &&
      bars[m.value].time == Resample.Bucket(rows[i].openTime, 15) &&
      s.zReturn15m == f.zReturn[m.value] && s.zVolume15m == f.zVolume[m.value]
  {
    OneMinuteColumns(rows, sqrt, i);
    JoinTakesOwnBucketBar(rows, 5, sqrt, i);
    JoinTakesOwnBucketBar(rows, 15, sqrt, i);
  }

  /** The label column: each row's rule label after the veto. */
  function FinalLabels(sig: seq<Signals>, closes: seq<real>): (labels: seq<int>)
    requires |sig| == |closes|
    ensures |labels| == |sig|
  {
    seq(|sig|, i requires 0 <= i < |sig| => Veto(RuleLabel(sig[i]), FutureReturn(closes, i)))
  }

  /** The output rows: each input row with its added columns, label and condition counts. */
  function Assemble(rows: seq<RawRow>, sqrt: real -> real, labels: seq<int>): (out: seq<LabeledRow>)
    requires SortedByOpenTime(rows) && |labels| == |rows|
    ensures |out| == |rows|
    ensures forall i :: 0 <= i < |rows| ==>
      out[i].row == rows[i] && out[i].anomaly == labels[i] &&
      out[i].futureReturn == FutureReturn(Closes(rows), i)
  {
    var sig := SignalsTable(rows, sqrt);
    seq(|rows|, i requires 0 <= i < |rows| =>
      LabeledRow(rows[i], RowFeaturesAt(rows, sqrt, i), labels[i], FutureReturn(Closes(rows), i),
                 PumpSum(sig[i]), DumpSum(sig[i])))
  }

  function LabelRows(rows: seq<RawRow>, sqrt: real -> real): seq<LabeledRow>
    requires SortedByOpenTime(rows)
  {
    Assemble(rows, sqrt, FinalLabels(SignalsTable(rows, sqrt), Closes(rows)))
  }

  /** label_anomaly_pump_dump as a value: the missing required columns, or the labelled rows
      in time order. */
  function Label(frame: Frame, sqrt: real -> real): Result<seq<LabeledRow>, seq<string>>
  {
    var missing := Columns.MissingNames(REQUIRED_COLUMNS, frame.columns);
    if missing != [] then Failure(missing)
    else
      SortByTimeCorrect(frame.rows);
      Success(LabelRows(SortByTime(frame.rows), sqrt))
  }

  /** Sets `a[i]` to `v` wherever `mask[i]` holds (a masked `df.loc[mask, 'label'] = v`). */
  method AssignWhere(a: array<int>, mask: seq<bool>, v: int)
    requires |mask| == a.Length
    modifies a
    ensures forall i :: 0 <= i < a.Length ==> a[i] == if mask[i] then v else old(a[i])
  {
    var i := 0;
    while i < a.Length
      invariant 0 <= i <= a.Length
      invariant forall j :: 0 <= j < i ==> a[j] == if mask[j] then v else old(a[j])
      invariant forall j :: i <= j < a.Length ==> a[j] == old(a[j])
    {
      if mask[i] {
        a[i] := v;
      }
      i := i + 1;
    }
  }

  /** The labeller: fails naming every missing required column before any processing;
      otherwise orders the rows by time, adds the feature columns, and writes the label
      column by four masked assignments over 0. */
  method LabelAnomalyPumpDump(frame: Frame, sqrt: real -> real) returns (r: Result<seq<LabeledRow>, seq<string>>)
    ensures r == Label(frame, sqrt)
  {
    var missing := Columns.MissingNames(REQUIRED_COLUMNS, frame.columns);
    if missing != [] {
      return Failure(missing);
    }
    var rows := SortByTime(frame.rows);
    SortByTimeCorrect(frame.rows);
    var labels := LabelColumn(SignalsTable(rows, sqrt), Closes(rows));
    r := Success(Assemble(rows, sqrt, labels));
  }

  /** Writes the label column: 0 everywhere, then the pump mask to 1, the dump mask to -1,
      and the two veto masks, each evaluated on the column as it then stands, back to 0. */
  method LabelColumn(sig: seq<Signals>, closes: seq<real>) returns (labels: seq<int>)
    requires |sig| == |closes|
    ensures labels == FinalLabels(sig, closes)
  {
    var n := |sig|;
    var column := new int[n](_ => 0);
    AssignWhere(column, seq(n, i requires 0 <= i < n => PumpRule(sig[i])), 1);
    AssignWhere(column, seq(n, i requires 0 <= i < n => DumpRule(sig[i])), -1);
    var ruled := column[..];
    assert forall i :: 0 <= i < n ==> ruled[i] == RuleLabel(sig[i]);
    AssignWhere(column, seq(n, i requires 0 <= i < n => PumpVetoed(ruled[i], FutureReturn(closes, i))), 0);
    var half := column[..];
    AssignWhere(column, seq(n, i requires 0 <= i < n => DumpVetoed(half[i], FutureReturn(closes, i))), 0);
    labels := column[..];
  }

  // ---------------------------------------------------------------------------------------
  // Properties of the labelled table

  /** The labeller fails exactly when a required column is absent, and then names each
      absent column and nothing else. */
  lemma FailsExactlyOnMissingColumns(frame: Frame, sqrt: real -> real)
    ensures Label(frame, sqrt).Failure? <==> exists c :: c in REQUIRED_COLUMNS && c !in frame.columns
    ensures Label(frame, sqrt).Failure? ==>
      forall c :: c in Label(frame, sqrt).error <==> c in REQUIRED_COLUMNS && c !in frame.columns
  {
  }

  /** The output holds the input rows, each once, in time order, and only adds columns. */
  lemma OutputIsSortedInput(frame: Frame, sqrt: real -> real)
    requires Label(frame, sqrt).Success?
    ensures var out := Label(frame, sqrt).value;
      |out| == |frame.rows| &&
      multiset(seq(|out|, i requires 0 <= i < |out| => out[i].row)) == multiset(frame.rows) &&
      forall i, j :: 0 <= i < j < |out| ==> out[i].row.openTime <= out[j].row.openTime
  {
    SortByTimeCorrect(frame.rows);
    var out := Label(frame, sqrt).value;
    var rows := SortByTime(frame.rows);
    assert out == LabelRows(rows, sqrt);
    assert seq(|out|, i requires 0 <= i < |out| => out[i].row) == rows;
  }

  /** Every output row carries its future return, and its label is the rule's label after the
      veto by that return; the label is one of -1, 0, 1, and each condition count is at most 8. */
  lemma OutputLabels(frame: Frame, sqrt: real -> real, i: nat)
    requires Label(frame, sqrt).Success? && i < |Label(frame, sqrt).value|
    ensures var out := Label(frame, sqrt).value;
      var rows := SortByTime(frame.rows);
      var s := SignalsOf(out[i].row, out[i].features);
      out[i].futureReturn == FutureReturn(Closes(rows), i) &&
      out[i].anomaly == Veto(RuleLabel(s), out[i].futureReturn) &&
      out[i].anomaly in {-1, 0, 1} &&
      out[i].pumpConditions == PumpSum(s) <= 8 && out[i].dumpConditions == DumpSum(s) <= 8
  {
    SortByTimeCorrect(frame.rows);
    var out := Label(frame, sqrt).value;
    var s := SignalsOf(out[i].row, out[i].features);
    NeutralOtherwise(s);
    SurvivorsAgreeWithFuture(RuleLabel(s), FutureReturn(Closes(SortByTime(frame.rows)), i));
    SumsBounded(s);
  }
}
