/** Shared vocabulary of the backtesting engine: bars, sides, trades, and the
    arithmetic that several of the engine's files compute in their own loops
    (sums and trailing means, the true range, the EMA recurrence, the RSI
    formula). Every price and balance is a `real`: the engine only compares,
    adds, multiplies and divides. */
module Series {

  datatype Option<T> = None | Some(value: T)

  /** One OHLCV bar; `time` is a millisecond timestamp. */
  datatype Candle = Candle(time: int, open: real, high: real, low: real, close: real, volume: real)

  datatype Side = Buy | Sell

  /** Why a position was closed: "SL", "TP", "time", "flip", and "X" (the
      exit that the crossover or the classifier asks for). */
  datatype ExitReason = StopLoss | TakeProfit | TimeExit | Flip | SignalExit

  /** One closed trade as the trade log records it. */
  datatype Trade = Trade(time: int, entry: real, exit: real, profit: real, balanceAfter: real, reason: ExitReason)

  /** The number of trades with a non-negative profit: the trades a
      backtest counts as wins. */
  function CountWins(trades: seq<Trade>): (n: nat)
    ensures n <= |trades|
  {
    if trades == [] then 0
    else CountWins(trades[..|trades| - 1]) + (if trades[|trades| - 1].profit >= 0.0 then 1 else 0)
  }

  /** The guard added to denominators of RSI and CCI. */
  const Eps: real := 1e-12

  function Abs(x: real): real { if x < 0.0 then -x else x }

  /** Python's `max(a, b)`. */
  function Max(a: real, b: real): real { if b > a then b else a }

  /** Python's `min(a, b)`. */
  function Min(a: real, b: real): real { if b < a then b else a }

  function MaxInt(a: int, b: int): int { if b > a then b else a }

  function MinInt(a: int, b: int): int { if b < a then b else a }

  function Closes(candles: seq<Candle>): (r: seq<real>)
    ensures |r| == |candles|
    ensures forall i :: 0 <= i < |candles| ==> r[i] == candles[i].close
  {
    seq(|candles|, i requires 0 <= i < |candles| => candles[i].close)
  }

  function Highs(candles: seq<Candle>): (r: seq<real>)
    ensures |r| == |candles|
    ensures forall i :: 0 <= i < |candles| ==> r[i] == candles[i].high
  {
    seq(|candles|, i requires 0 <= i < |candles| => candles[i].high)
  }

  function Lows(candles: seq<Candle>): (r: seq<real>)
    ensures |r| == |candles|
    ensures forall i :: 0 <= i < |candles| ==> r[i] == candles[i].low
  {
    seq(|candles|, i requires 0 <= i < |candles| => candles[i].low)
  }

  /** The indicator series handed to the classifier, keyed rsi/atr/cci/adx. */
  datatype IndicatorSet = IndicatorSet(rsi: seq<real>, atr: seq<real>, cci: seq<real>, adx: seq<real>)

  predicate HighAboveLow(candles: seq<Candle>)
  {
    forall i :: 0 <= i < |candles| ==> candles[i].low <= candles[i].high
  }

  // ---------------------------------------------------------------- sums

  /** Python's `sum(s)`, accumulated from the left. */
  function Sum(s: seq<real>): real
  {
    if s == [] then 0.0 else Sum(s[..|s| - 1]) + s[|s| - 1]
  }

  lemma SumSnoc(s: seq<real>, x: real)
    ensures Sum(s + [x]) == Sum(s) + x
  {
    assert (s + [x])[..|s|] == s;
  }

  /** Dropping the first element of a window subtracts it from the sum. */
  lemma {:induction false} SumFront(s: seq<real>)
    requires |s| > 0
    ensures Sum(s) == s[0] + Sum(s[1..])
  {
    if |s| > 1 {
      SumFront(s[..|s| - 1]);
      assert s[..|s| - 1][1..] == s[1..][..|s| - 2];
    }
  }

  lemma {:induction false} SumBounds(s: seq<real>, lo: real, hi: real)
    requires forall i :: 0 <= i < |s| ==> lo <= s[i] <= hi
    ensures |s| as real * lo <= Sum(s) <= |s| as real * hi
  {
    if s != [] {
      SumBounds(s[..|s| - 1], lo, hi);
    }
  }

  lemma {:induction false} SumNonneg(s: seq<real>)
    requires forall i :: 0 <= i < |s| ==> s[i] >= 0.0
    ensures Sum(s) >= 0.0
  {
    if s != [] {
      SumNonneg(s[..|s| - 1]);
    }
  }

  /** A sum of non-negative terms is at least its last term. */
  lemma SumAtLeastLast(s: seq<real>)
    requires |s| > 0
    requires forall i :: 0 <= i < |s| ==> s[i] >= 0.0
    ensures Sum(s) >= s[|s| - 1]
  {
    SumNonneg(s[..|s| - 1]);
  }

  lemma TrailingMeanNonneg(s: seq<real>, i: int, period: int)
    requires 0 <= i < |s| && period > 0
    requires forall t :: 0 <= t < |s| ==> s[t] >= 0.0
    ensures TrailingMean(s, i, period) >= 0.0
  {
    var w := TrailingWindow(s, i, period);
    forall t | 0 <= t < |w| ensures w[t] >= 0.0 {
      assert w[t] == s[MaxInt(0, i - period + 1) + t];
    }
    SumNonneg(w);
  }

  lemma DivNonneg(a: real, b: real)
    requires a >= 0.0 && b > 0.0
    ensures a / b >= 0.0
  {
  }

  /** Cancelling a positive factor from both sides of a strict inequality. */
  lemma CancelPositive(a: real, b: real, m: real)
    requires m > 0.0 && a * m < b * m
    ensures a < b
  {
  }

  lemma GainsLossesNonneg(c: seq<real>)
    ensures |Gains(c)| == |Losses(c)|
    ensures forall t :: 0 <= t < |Gains(c)| ==> Gains(c)[t] >= 0.0 && Losses(c)[t] >= 0.0
  {
  }

  function Mean(w: seq<real>): real
    requires |w| > 0
  {
    Sum(w) / |w| as real
  }

  /** A mean lies within any bounds of its window. */
  lemma MeanBounds(w: seq<real>, lo: real, hi: real)
    requires |w| > 0
    requires forall i :: 0 <= i < |w| ==> lo <= w[i] <= hi
    ensures lo <= Mean(w) <= hi
  {
    SumBounds(w, lo, hi);
    var n := |w| as real;
    assert Sum(w) / n >= lo by { assert Sum(w) >= lo * n; }
    assert Sum(w) / n <= hi by { assert Sum(w) <= hi * n; }
  }

  /** The trailing window ending at i: the last `period` values, or every
      value so far while fewer than `period` exist. */
  function TrailingWindow(s: seq<real>, i: int, period: int): (w: seq<real>)
    requires 0 <= i < |s| && period > 0
    ensures 0 < |w| <= period && |w| == MinInt(i + 1, period)
    ensures w[|w| - 1] == s[i]
  {
    s[MaxInt(0, i - period + 1)..i + 1]
  }

  /** The warm-up-tolerant rolling mean used for ATR and ADX: the mean of
      the trailing window. */
  function TrailingMean(s: seq<real>, i: int, period: int): real
    requires 0 <= i < |s| && period > 0
  {
    Mean(TrailingWindow(s, i, period))
  }

  lemma TrailingMeanBounds(s: seq<real>, i: int, period: int, lo: real, hi: real)
    requires 0 <= i < |s| && period > 0
    requires forall t :: 0 <= t < |s| ==> lo <= s[t] <= hi
    ensures lo <= TrailingMean(s, i, period) <= hi
  {
    var w := TrailingWindow(s, i, period);
    forall t | 0 <= t < |w| ensures lo <= w[t] <= hi {
      assert w[t] == s[MaxInt(0, i - period + 1) + t];
    }
    MeanBounds(w, lo, hi);
  }

  // ---------------------------------------------------------- true range

  /** `max(high - low, |high - prev_close|, |low - prev_close|)`. */
  function TrueRange(high: real, low: real, prevClose: real): (r: real)
    ensures r >= high - low && r >= Abs(high - prevClose) && r >= Abs(low - prevClose)
    ensures r == high - low || r == Abs(high - prevClose) || r == Abs(low - prevClose)
  {
    Max(Max(high - low, Abs(high - prevClose)), Abs(low - prevClose))
  }

  /** The true range of bar i of a candle list, taking the previous close
      from bar i - 1 and, for bar 0, from the bar itself. */
  function CandleTrueRange(candles: seq<Candle>, j: int): real
    requires 0 <= j < |candles|
  {
    var c := candles[j];
    var prev := if j - 1 >= 0 then candles[j - 1].close else c.close;
    TrueRange(c.high, c.low, prev)
  }

  // ------------------------------------------------------ gains / losses

  /** The upward moves `max(close[t+1] - close[t], 0)`, one per consecutive pair. */
  function Gains(c: seq<real>): seq<real>
  {
    if |c| == 0 then [] else seq(|c| - 1, t requires 0 <= t < |c| - 1 => Max(c[t + 1] - c[t], 0.0))
  }

  /** The downward moves `max(close[t] - close[t+1], 0)`, one per consecutive pair. */
  function Losses(c: seq<real>): seq<real>
  {
    if |c| == 0 then [] else seq(|c| - 1, t requires 0 <= t < |c| - 1 => Max(-(c[t + 1] - c[t]), 0.0))
  }

  /** A rise and a fall are never both recorded for the same pair of bars. */
  lemma GainsLossesExclusive(c: seq<real>, t: int)
    requires 0 <= t < |c| - 1
    ensures |Gains(c)| == |Losses(c)| == |c| - 1
    ensures Gains(c)[t] >= 0.0 && Losses(c)[t] >= 0.0
    ensures Gains(c)[t] == 0.0 || Losses(c)[t] == 0.0
    ensures Gains(c)[t] - Losses(c)[t] == c[t + 1] - c[t]
  {
  }

  // ----------------------------------------------------------------- RSI

  /** `100 - 100 / (1 + avg_gain / (avg_loss + 1e-12))`. */
  function RsiFromAverages(avgGain: real, avgLoss: real): (r: real)
    requires avgGain >= 0.0 && avgLoss >= 0.0
    ensures r == 100.0 * avgGain / (avgGain + avgLoss + Eps)
    ensures 0.0 <= r < 100.0
    ensures avgGain == 0.0 ==> r == 0.0
  {
    var d := avgLoss + Eps;
    var rs := avgGain / d;
    var q := 100.0 / (1.0 + rs);
    var total := avgGain + d;
    assert rs * d == avgGain;
    assert (1.0 + rs) * d == total;
    assert q * (1.0 + rs) == 100.0;
    assert q * total == 100.0 * d by {
      assert q * total == q * (1.0 + rs) * d;
    }
    assert (100.0 - q) * total == 100.0 * avgGain;
    assert 0.0 < q <= 100.0 by {
      assert 1.0 + rs >= 1.0;
    }
    100.0 - 100.0 / (1.0 + rs)
  }

  // ----------------------------------------------------------------- EMA

  /** `out` is the exponential moving average of `values` with smoothing
      factor k, seeded with the first value. */
  predicate EmaRecurrence(out: seq<real>, values: seq<real>, k: real)
  {
    |out| == |values| &&
    (|values| > 0 ==> out[0] == values[0]) &&
    forall i :: 0 < i < |values| ==> out[i] == values[i] * k + out[i - 1] * (1.0 - k)
  }

  /** One smoothing step is a convex combination of its two inputs. */
  lemma ConvexStep(v: real, p: real, k: real, lo: real, hi: real)
    requires 0.0 <= k <= 1.0
    requires lo <= v <= hi && lo <= p <= hi
    ensures lo <= v * k + p * (1.0 - k) <= hi
  {
    assert (v - lo) * k >= 0.0;
    assert (p - lo) * (1.0 - k) >= 0.0;
    assert (hi - v) * k >= 0.0;
    assert (hi - p) * (1.0 - k) >= 0.0;
  }

  lemma {:induction false} EmaPrefixWithin(out: seq<real>, values: seq<real>, k: real, lo: real, hi: real, i: int)
    requires EmaRecurrence(out, values, k) && 0.0 <= k <= 1.0
    requires forall t :: 0 <= t < |values| ==> lo <= values[t] <= hi
    requires 0 <= i < |out|
    ensures lo <= out[i] <= hi
  {
    if i > 0 {
      EmaPrefixWithin(out, values, k, lo, hi, i - 1);
      ConvexStep(values[i], out[i - 1], k, lo, hi);
    }
  }

  /** With 0 <= k <= 1 an EMA never leaves any range that holds all inputs. */
  lemma EmaWithin(out: seq<real>, values: seq<real>, k: real, lo: real, hi: real)
    requires EmaRecurrence(out, values, k) && 0.0 <= k <= 1.0
    requires forall t :: 0 <= t < |values| ==> lo <= values[t] <= hi
    ensures forall i :: 0 <= i < |out| ==> lo <= out[i] <= hi
  {
    forall i | 0 <= i < |out| ensures lo <= out[i] <= hi {
      EmaPrefixWithin(out, values, k, lo, hi, i);
    }
  }

  /** Smoothing factor `2 / (period + 1)`. */
  function Alpha(period: int): real
    requires period != -1
  {
    2.0 / (period + 1) as real
  }

  lemma AlphaInUnit(period: int)
    requires period >= 1
    ensures 0.0 < Alpha(period) <= 1.0
  {
  }

  /** Applying the recurrence `e := v*k + e*(1-k)` over w, starting from seed. */
  function EmaFold(seed: real, w: seq<real>, k: real): real
  {
    if w == [] then seed else w[|w| - 1] * k + EmaFold(seed, w[..|w| - 1], k) * (1.0 - k)
  }

  lemma {:induction false} EmaFoldWithin(seed: real, w: seq<real>, k: real, lo: real, hi: real)
    requires 0.0 <= k <= 1.0 && lo <= seed <= hi
    requires forall t :: 0 <= t < |w| ==> lo <= w[t] <= hi
    ensures lo <= EmaFold(seed, w, k) <= hi
  {
    if w != [] {
      EmaFoldWithin(seed, w[..|w| - 1], k, lo, hi);
      ConvexStep(w[|w| - 1], EmaFold(seed, w[..|w| - 1], k), k, lo, hi);
    }
  }

  /** The EMA of both strategy modules: seeded with the mean of the last
      `period` values, then the recurrence re-applied over those same values. */
  function SeededEma(values: seq<real>, period: int): real
    requires 0 < period <= |values|
  {
    var w := values[|values| - period..];
    EmaFold(Mean(w), w, Alpha(period))
  }

  /** The seeded EMA lies between the least and the greatest of the last
      `period` values. */
  lemma SeededEmaWithinWindow(values: seq<real>, period: int, lo: real, hi: real)
    requires 0 < period <= |values|
    requires forall t :: |values| - period <= t < |values| ==> lo <= values[t] <= hi
    ensures lo <= SeededEma(values, period) <= hi
  {
    var w := values[|values| - period..];
    assert forall t :: 0 <= t < |w| ==> w[t] == values[|values| - period + t];
    MeanBounds(w, lo, hi);
    AlphaInUnit(period);
    EmaFoldWithin(Mean(w), w, Alpha(period), lo, hi);
  }

  /** The `ema` helper of both strategy modules: None while fewer than
      `period` values exist, otherwise the seeded EMA. */
  function EmaOrNone(values: seq<real>, period: int): (r: Option<real>)
    requires period > 0
    ensures r.None? <==> |values| < period
    ensures r.Some? ==> r.value == SeededEma(values, period)
  {
    if |values| < period then None else Some(SeededEma(values, period))
  }

  // ------------------------------------------------------- strategy ATR

  /** The true ranges of bars i - period + 1 .. i, each at least 0. */
  function TrWindow(candles: seq<Candle>, i: int, period: int): (w: seq<real>)
    requires 0 < period <= i + 1 && i < |candles|
    ensures |w| == period
    ensures forall t :: 0 <= t < period ==> w[t] == CandleTrueRange(candles, i - period + 1 + t)
    ensures forall t :: 0 <= t < period ==> w[t] >= 0.0
  {
    seq(period, t requires 0 <= t < period => CandleTrueRange(candles, i - period + 1 + t))
  }

  /** A mean of non-negative values is non-negative. */
  lemma MeanNonneg(w: seq<real>)
    requires |w| > 0
    requires forall t :: 0 <= t < |w| ==> w[t] >= 0.0
    ensures Mean(w) >= 0.0
  {
    SumNonneg(w);
    DivNonneg(Sum(w), |w| as real);
  }
}
