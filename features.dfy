/** Per-timeframe candle features of Prepare_data/label_pump_dump.py (calculate_features_for_df):
    price return, rolling z-scores of return and volume, and the close's position in the range. */
module CandleFeatures {
  import opened Stats
  import RollingZScore

  /** One OHLCV bar; `time` is its label in minutes (a 1m row's open time, or a resampled
      bar's bucket start). */
  datatype Candle = Candle(time: int, open: real, high: real, low: real, close: real, volume: real)

  /** The four derived columns of one timeframe, each as long as the candle series. */
  datatype Features = Features(priceReturn: seq<real>, zReturn: seq<real>, zVolume: seq<real>, closePosition: seq<real>)

  const BASE_WINDOW: nat := 360

  /** The bar length a column suffix names; anything but `_5m` and `_15m` counts as one minute. */
  function TimeframeMinutes(suffix: string): (m: nat)
    ensures m == 1 || m == 5 || m == 15
    ensures m == 5 <==> suffix == "_5m"
    ensures m == 15 <==> suffix == "_15m"
  {
    if suffix == "_5m" then 5 else if suffix == "_15m" then 15 else 1
  }

  /** The rolling window in bars: the base window in minutes divided (floor) by the bar length. */
  function RollingWindow(suffix: string, baseWindow: nat): nat
  {
    baseWindow / TimeframeMinutes(suffix)
  }

  /** `max(1, window // 6)`: never below one, and never above a non-empty window. */
  function MinPeriods(window: nat): (m: nat)
    ensures m >= 1
    ensures window >= 1 ==> m <= window
    ensures window >= 6 ==> m == window / 6
  {
    if window / 6 > 1 then window / 6 else 1
  }

  /** With the 360-minute base window the three timeframes look back over 360, 72 and 24 bars
      and need 60, 12 and 4 of them. */
  lemma DefaultWindows()
    ensures RollingWindow("_1m", BASE_WINDOW) == 360 && MinPeriods(360) == 60
    ensures RollingWindow("_5m", BASE_WINDOW) == 72 && MinPeriods(72) == 12
    ensures RollingWindow("_15m", BASE_WINDOW) == 24 && MinPeriods(24) == 4
  {
  }

  /** `(close - open) / open`, and exactly 0 for a zero open. */
  function PriceReturn(c: Candle): (r: real)
    ensures c.open == 0.0 ==> r == 0.0
    ensures c.open != 0.0 ==> r * c.open == c.close - c.open
  {
    if c.open != 0.0 then (c.close - c.open) / c.open else 0.0
  }

  /** `(close - low) / (high - low)`, and exactly 0.5 for a flat bar. */
  function ClosePosition(c: Candle): (r: real)
    ensures c.high == c.low ==> r == 0.5
    ensures c.high != c.low ==> r * (c.high - c.low) == c.close - c.low
  {
    if c.high - c.low != 0.0 then (c.close - c.low) / (c.high - c.low) else 0.5
  }

  /** A close inside a bar of positive range sits in [0, 1]. */
  lemma ClosePositionInUnitInterval(c: Candle)
    requires c.low <= c.close <= c.high && c.low < c.high
    ensures 0.0 <= ClosePosition(c) <= 1.0
  {
    DivideBounds(c.close - c.low, c.high - c.low, 0.0, 1.0);
  }

  function Volumes(candles: seq<Candle>): (v: seq<real>)
    ensures |v| == |candles|
    ensures forall i :: 0 <= i < |candles| ==> v[i] == candles[i].volume
  {
    seq(|candles|, i requires 0 <= i < |candles| => candles[i].volume)
  }

  function PriceReturns(candles: seq<Candle>): (r: seq<real>)
    ensures |r| == |candles|
    ensures forall i :: 0 <= i < |candles| ==> r[i] == PriceReturn(candles[i])
  {
    seq(|candles|, i requires 0 <= i < |candles| => PriceReturn(candles[i]))
  }

  /** The feature columns of one timeframe: price return and close position bar by bar, and
      the z-scores of price return and volume over the timeframe's window with
      `MinPeriods(window)` required observations. */
  function CalculateFeatures(candles: seq<Candle>, suffix: string, baseWindow: nat, sqrt: real -> real): (f: Features)
    requires RollingWindow(suffix, baseWindow) >= 1
    ensures |f.priceReturn| == |f.zReturn| == |f.zVolume| == |f.closePosition| == |candles|
    ensures forall i :: 0 <= i < |candles| ==>
      f.priceReturn[i] == PriceReturn(candles[i]) && f.closePosition[i] == ClosePosition(candles[i])
    ensures var w := RollingWindow(suffix, baseWindow);
      f.zReturn == RollingZScore.ZScore(f.priceReturn, w, MinPeriods(w), sqrt) &&
      f.zVolume == RollingZScore.ZScore(Volumes(candles), w, MinPeriods(w), sqrt)
  {
    var w := RollingWindow(suffix, baseWindow);
    var pr := PriceReturns(candles);
    Features(
      pr,
      RollingZScore.ZScore(pr, w, MinPeriods(w), sqrt),
      RollingZScore.ZScore(Volumes(candles), w, MinPeriods(w), sqrt),
      seq(|candles|, i requires 0 <= i < |candles| => ClosePosition(candles[i])))
  }
}
