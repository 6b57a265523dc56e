/** The rolling indicator pipeline: SMA, EMA, RSI, ATR, CCI and ADX, each a
    list aligned with its input and filled in one bar at a time. Each method
    keeps the loop of the original and is proved equal, entry by entry, to a
    closed-form definition of the indicator at bar i. */
module Indicators {
  import opened Series

  // ----------------------------------------------------------------- SMA

  /** Entry i of the padded SMA: 0.0 until `period` values exist, then the
      mean of the last `period` values. */
  function SmaAt(values: seq<real>, period: int, i: int): real
    requires period > 0 && 0 <= i < |values|
  {
    if i < period - 1 then 0.0 else Mean(values[i - period + 1..i + 1])
  }

  /** `sma`: a running sum over a window that drops its oldest value once
      it holds more than `period`. */
  method Sma(values: seq<real>, period: int) returns (out: seq<real>)
    requires period > 0
    ensures |out| == |values|
    ensures forall i :: 0 <= i < |values| ==> out[i] == SmaAt(values, period, i)
  {
    out := [];
    var s := 0.0;
    var window: seq<real> := [];
    for i := 0 to |values|
      invariant |out| == i
      invariant window == values[MaxInt(0, i - period)..i]
      invariant s == Sum(window)
      invariant forall t :: 0 <= t < i ==> out[t] == SmaAt(values, period, t)
    {
      var next;
      window, s, next := SmaStep(values, period, i, window, s);
      out := out + [next];
    }
  }

  /** One bar of `sma`: slide the window over values[i], then emit the
      window mean once it is full and 0.0 before. */
  method SmaStep(values: seq<real>, period: int, i: int, window: seq<real>, s: real)
    returns (window': seq<real>, s': real, next: real)
    requires period > 0 && 0 <= i < |values|
    requires window == values[MaxInt(0, i - period)..i] && s == Sum(window)
    ensures window' == values[MaxInt(0, i + 1 - period)..i + 1] && s' == Sum(window')
    ensures next == SmaAt(values, period, i)
  {
    window', s' := SlideSmaWindow(values, period, i, window, s);
    next := 0.0;
    if |window'| == period {
      next := s' / period as real;
      assert window' == values[i - period + 1..i + 1];
    }
  }

  /** One step of the SMA window: append values[i], and drop the oldest
      value once the window holds more than `period`, keeping the sum. */
  method SlideSmaWindow(values: seq<real>, period: int, i: int, window: seq<real>, s: real)
    returns (window': seq<real>, s': real)
    requires period > 0 && 0 <= i < |values|
    requires window == values[MaxInt(0, i - period)..i] && s == Sum(window)
    ensures window' == values[MaxInt(0, i + 1 - period)..i + 1] && s' == Sum(window')
  {
    var lo := MaxInt(0, i - period);
    window' := window + [values[i]];
    s' := s + values[i];
    SumSnoc(window, values[i]);
    assert window' == values[lo..i + 1];
    if |window'| > period {
      assert lo == i - period;
      SumFront(window');
      s' := s' - window'[0];
      window' := window'[1..];
      assert window' == values[lo + 1..i + 1];
    } else {
      assert MaxInt(0, i + 1 - period) == lo;
    }
  }

  // ----------------------------------------------------------------- EMA

  /** `ema`: seeded with the first value, then `v*k + prev*(1-k)` with
      `k = 2/(period+1)`. */
  method Ema(values: seq<real>, period: int) returns (out: seq<real>)
    requires period != -1
    ensures EmaRecurrence(out, values, Alpha(period))
  {
    out := [];
    var k := Alpha(period);
    var emaPrev: Option<real> := None;
    for i := 0 to |values|
      invariant EmaRecurrence(out, values[..i], k)
      invariant emaPrev == if i == 0 then None else Some(out[i - 1])
    {
      var v := values[i];
      if emaPrev.None? {
        emaPrev := Some(v);
      } else {
        emaPrev := Some(v * k + emaPrev.value * (1.0 - k));
      }
      out := out + [emaPrev.value];
    }
    assert values[..|values|] == values;
  }

  // ----------------------------------------------------------------- RSI

  /** RSI at bar i: 50.0 for the first `period` bars, then the RSI of the
      plain means of the last `period` gains and losses. */
  function RsiAt(close: seq<real>, period: int, i: int): real
    requires period > 0 && 0 <= i < |close|
  {
    if i < period then 50.0
    else
      var g := Gains(close)[i - period..i];
      var l := Losses(close)[i - period..i];
      GainsLossesNonneg(close);
      SumNonneg(g);
      SumNonneg(l);
      DivNonneg(Sum(g), period as real);
      DivNonneg(Sum(l), period as real);
      RsiFromAverages(Sum(g) / period as real, Sum(l) / period as real)
  }

  /** The averages the loop takes over the last `period` entries of its gain
      and loss lists are those of RsiAt. */
  lemma RsiStepAgrees(close: seq<real>, period: int, i: int, gains: seq<real>, losses: seq<real>)
    requires period > 0 && period <= i < |close|
    requires gains == Gains(close)[..i] && losses == Losses(close)[..i]
    ensures Sum(gains[|gains| - period..]) / period as real >= 0.0
    ensures Sum(losses[|losses| - period..]) / period as real >= 0.0
    ensures RsiAt(close, period, i) ==
            RsiFromAverages(Sum(gains[|gains| - period..]) / period as real, Sum(losses[|losses| - period..]) / period as real)
  {
    GainsLossesNonneg(close);
    var G := Gains(close);
    var L := Losses(close);
    TailOfPrefix(G, i, period);
    TailOfPrefix(L, i, period);
    var g := G[i - period..i];
    var l := L[i - period..i];
    SumNonneg(g);
    SumNonneg(l);
    DivNonneg(Sum(g), period as real);
    DivNonneg(Sum(l), period as real);
  }

  /** The last `p` entries of the first `i` entries are entries i-p .. i-1. */
  lemma TailOfPrefix(s: seq<real>, i: int, p: int)
    requires 0 <= p <= i <= |s|
    ensures s[..i][i - p..] == s[i - p..i]
  {
  }

  /** The RSI the loop appends at bar i from the plain means of the last
      `period` gains and losses. */
  method RsiEntry(close: seq<real>, period: int, i: int, gains: seq<real>, losses: seq<real>) returns (rsi: real)
    requires period > 0 && period <= i < |close|
    requires gains == Gains(close)[..i] && losses == Losses(close)[..i]
    ensures rsi == RsiAt(close, period, i)
  {
    var avgGain := Sum(gains[|gains| - period..]) / period as real;
    var avgLoss := Sum(losses[|losses| - period..]) / period as real;
    RsiStepAgrees(close, period, i, gains, losses);
    rsi := RsiFromAverages(avgGain, avgLoss);
  }

  lemma RsiAtInRange(close: seq<real>, period: int, i: int)
    requires period > 0 && 0 <= i < |close|
    ensures 0.0 <= RsiAt(close, period, i) < 100.0
  {
  }

  /** One bar of `compute_rsi` after bar 0: record the bar's gain and
      loss, then emit 50.0 during warm-up or the RSI of the last `period`
      moves. */
  method RsiBar(close: seq<real>, period: int, i: int, gains: seq<real>, losses: seq<real>)
    returns (gains': seq<real>, losses': seq<real>, rsi: real)
    requires period > 0 && 1 <= i < |close|
    requires gains == Gains(close)[..i - 1] && losses == Losses(close)[..i - 1]
    ensures gains' == Gains(close)[..i] && losses' == Losses(close)[..i]
    ensures rsi == RsiAt(close, period, i)
  {
    ghost var G := Gains(close);
    ghost var L := Losses(close);
    var delta := close[i] - close[i - 1];
    assert G[i - 1] == Max(delta, 0.0) && L[i - 1] == Max(-delta, 0.0);
    gains' := gains + [Max(delta, 0.0)];
    losses' := losses + [Max(-delta, 0.0)];
    assert G[..i] == G[..i - 1] + [G[i - 1]];
    assert L[..i] == L[..i - 1] + [L[i - 1]];
    if i < period {
      rsi := 50.0;
    } else {
      rsi := RsiEntry(close, period, i, gains', losses');
    }
  }

  /** `compute_rsi`: one output per close; exactly 50.0 before bar `period`,
      and always in [0, 100). */
  method ComputeRsi(close: seq<real>, period: int) returns (out: seq<real>)
    requires period > 0
    ensures |out| == |close|
    ensures forall i :: 0 <= i < |close| ==> out[i] == RsiAt(close, period, i)
    ensures forall i :: 0 <= i < |close| && i < period ==> out[i] == 50.0
    ensures forall i :: 0 <= i < |close| ==> 0.0 <= out[i] < 100.0
  {
    out := [];
    var gains: seq<real> := [];
    var losses: seq<real> := [];
    ghost var G := Gains(close);
    ghost var L := Losses(close);
    for i := 0 to |close|
      invariant |out| == i
      invariant gains == G[..MaxInt(0, i - 1)]
      invariant losses == L[..MaxInt(0, i - 1)]
      invariant forall t :: 0 <= t < i ==> out[t] == RsiAt(close, period, t)
    {
      if i == 0 {
        out := out + [50.0];
        continue;
      }
      var rsi;
      gains, losses, rsi := RsiBar(close, period, i, gains, losses);
      out := out + [rsi];
    }
    RsiAtShape(close, period);
  }

  /** Every RSI entry lies in [0, 100) and is 50.0 before bar `period`. */
  lemma RsiAtShape(close: seq<real>, period: int)
    requires period > 0
    ensures forall i :: 0 <= i < |close| && i < period ==> RsiAt(close, period, i) == 50.0
    ensures forall i :: 0 <= i < |close| ==> 0.0 <= RsiAt(close, period, i) < 100.0
  {
    forall i | 0 <= i < |close| ensures 0.0 <= RsiAt(close, period, i) < 100.0 {
      RsiAtInRange(close, period, i);
    }
  }

  // ----------------------------------------------------------------- ATR

  /** The true ranges of a bar list: `high - low` for bar 0, the full true
      range against the previous close after it. */
  function TrSeries(high: seq<real>, low: seq<real>, close: seq<real>): (trs: seq<real>)
    requires |high| >= |close| && |low| >= |close|
    ensures |trs| == |close|
    ensures |close| > 0 ==> trs[0] == high[0] - low[0]
    ensures forall i :: 1 <= i < |close| ==>
      trs[i] >= high[i] - low[i] && trs[i] >= Abs(high[i] - close[i - 1]) && trs[i] >= Abs(low[i] - close[i - 1]) &&
      (trs[i] == high[i] - low[i] || trs[i] == Abs(high[i] - close[i - 1]) || trs[i] == Abs(low[i] - close[i - 1]))
  {
    seq(|close|, i requires 0 <= i < |close| =>
      if i == 0 then high[0] - low[0] else TrueRange(high[i], low[i], close[i - 1]))
  }

  lemma TrSeriesNonneg(high: seq<real>, low: seq<real>, close: seq<real>)
    requires |high| >= |close| && |low| >= |close|
    requires forall i :: 0 <= i < |close| ==> low[i] <= high[i]
    ensures forall i :: 0 <= i < |close| ==> TrSeries(high, low, close)[i] >= 0.0
  {
  }

  /** One bar of `compute_atr`: record the bar's true range, then average
      the true ranges of the trailing window. */
  method AtrEntry(high: seq<real>, low: seq<real>, close: seq<real>, period: int, i: int, trs: seq<real>)
    returns (trs': seq<real>, atr: real)
    requires period > 0 && |high| >= |close| && |low| >= |close| && 0 <= i < |close|
    requires trs == TrSeries(high, low, close)[..i]
    ensures trs' == TrSeries(high, low, close)[..i + 1]
    ensures atr == TrailingMean(TrSeries(high, low, close), i, period)
  {
    ghost var TR := TrSeries(high, low, close);
    var tr;
    if i == 0 {
      tr := high[i] - low[i];
    } else {
      tr := Max(Max(high[i] - low[i], Abs(high[i] - close[i - 1])), Abs(low[i] - close[i - 1]));
    }
    assert TR[i] == tr;
    trs' := trs + [tr];
    assert TR[..i + 1] == TR[..i] + [TR[i]];
    if i < period {
      assert TrailingWindow(TR, i, period) == trs';
      atr := Sum(trs') / |trs'| as real;
    } else {
      assert TrailingWindow(TR, i, period) == trs'[|trs'| - period..];
      atr := Sum(trs'[|trs'| - period..]) / period as real;
    }
  }

  /** `compute_atr`: the mean of all true ranges so far during warm-up, the
      mean of the last `period` afterwards; never negative when every high
      is at least its low. */
  method ComputeAtr(high: seq<real>, low: seq<real>, close: seq<real>, period: int) returns (out: seq<real>)
    requires period > 0 && |high| >= |close| && |low| >= |close|
    ensures |out| == |close|
    ensures forall i :: 0 <= i < |close| ==> out[i] == TrailingMean(TrSeries(high, low, close), i, period)
    ensures (forall i :: 0 <= i < |close| ==> low[i] <= high[i]) ==>
              forall i :: 0 <= i < |close| ==> out[i] >= 0.0
  {
    out := [];
    var trs: seq<real> := [];
    ghost var TR := TrSeries(high, low, close);
    for i := 0 to |close|
      invariant |out| == i
      invariant trs == TR[..i]
      invariant forall t :: 0 <= t < i ==> out[t] == TrailingMean(TR, t, period)
    {
      var atr;
      trs, atr := AtrEntry(high, low, close, period, i, trs);
      out := out + [atr];
    }
    if forall i :: 0 <= i < |close| ==> low[i] <= high[i] {
      TrSeriesNonneg(high, low, close);
      forall i | 0 <= i < |close| ensures out[i] >= 0.0 {
        TrailingMeanNonneg(TR, i, period);
      }
    }
  }

  // ----------------------------------------------------------------- CCI

  function TypicalPrices(high: seq<real>, low: seq<real>, close: seq<real>): (tp: seq<real>)
    requires |high| >= |close| && |low| >= |close|
    ensures |tp| == |close|
  {
    seq(|close|, i requires 0 <= i < |close| => (high[i] + low[i] + close[i]) / 3.0)
  }

  /** `[abs(x - m) for x in w]`. */
  function AbsDeviations(w: seq<real>, m: real): (d: seq<real>)
    ensures |d| == |w|
    ensures forall j :: 0 <= j < |w| ==> d[j] >= 0.0
  {
    seq(|w|, j requires 0 <= j < |w| => Abs(w[j] - m))
  }

  /** CCI at bar i: 0.0 before a full window, then the typical price's
      distance from the window mean over 0.015 times the mean absolute
      deviation plus 1e-12. */
  function CciAt(high: seq<real>, low: seq<real>, close: seq<real>, period: int, i: int): real
    requires period > 0 && |high| >= |close| && |low| >= |close| && 0 <= i < |close|
  {
    if i < period - 1 then 0.0
    else CciOfWindow(TypicalPrices(high, low, close)[i - period + 1..i + 1])
  }

  /** The CCI of a full window of typical prices, taken at its last entry. */
  function CciOfWindow(w: seq<real>): real
    requires |w| > 0
  {
    var p := |w| as real;
    var smaTp := Sum(w) / p;
    var devs := AbsDeviations(w, smaTp);
    SumNonneg(devs);
    var meanDev := Sum(devs) / p;
    (w[|w| - 1] - smaTp) / (0.015 * (meanDev + Eps))
  }

  /** `compute_cci`: one output per bar, 0.0 during warm-up. */
  method ComputeCci(high: seq<real>, low: seq<real>, close: seq<real>, period: int) returns (out: seq<real>)
    requires period > 0 && |high| >= |close| && |low| >= |close|
    ensures |out| == |close|
    ensures forall i :: 0 <= i < |close| ==> out[i] == CciAt(high, low, close, period, i)
    ensures forall i :: 0 <= i < |close| && i < period - 1 ==> out[i] == 0.0
  {
    out := [];
    var tpList: seq<real> := [];
    ghost var TP := TypicalPrices(high, low, close);
    for i := 0 to |close|
      invariant |out| == i
      invariant tpList == TP[..i]
      invariant forall t :: 0 <= t < i ==> out[t] == CciAt(high, low, close, period, t)
    {
      var tp := (high[i] + low[i] + close[i]) / 3.0;
      tpList := tpList + [tp];
      assert tpList == TP[..i + 1];
      if i < period - 1 {
        out := out + [0.0];
      } else {
        var cci := CciEntry(high, low, close, period, i, tpList, tp);
        out := out + [cci];
      }
    }
  }

  /** The CCI the loop appends at bar i from the last `period` typical
      prices of its list. */
  method CciEntry(high: seq<real>, low: seq<real>, close: seq<real>, period: int, i: int,
                  tpList: seq<real>, tp: real) returns (cci: real)
    requires period > 0 && |high| >= |close| && |low| >= |close| && period - 1 <= i < |close|
    requires tpList == TypicalPrices(high, low, close)[..i + 1] && tp == tpList[i]
    ensures cci == CciAt(high, low, close, period, i)
  {
    var w := tpList[|tpList| - period..];
    var smaTp := Sum(w) / period as real;
    var devs := AbsDeviations(w, smaTp);
    SumNonneg(devs);
    var meanDev := Sum(devs) / period as real;
    cci := (tp - smaTp) / (0.015 * (meanDev + Eps));
    assert cci == CciOfWindow(w);
    TailOfPrefix(TypicalPrices(high, low, close), i + 1, period);
  }

  lemma GuardedRatioBound(num: real, meanDev: real, p: real)
    requires p > 0.0 && meanDev >= 0.0 && Abs(num) <= p * meanDev
    ensures Abs(num / (0.015 * (meanDev + Eps))) * 0.015 < p
  {
    var den := 0.015 * (meanDev + Eps);
    var c := num / den;
    assert Abs(c) * den == Abs(num);
    assert p * meanDev < p * (meanDev + Eps);
    assert Abs(c) * 0.015 * (meanDev + Eps) < p * (meanDev + Eps);
    CancelPositive(Abs(c) * 0.015, p, meanDev + Eps);
  }

  /** The guarded denominator keeps every CCI value strictly below
      `period / 0.015` in magnitude: the current bar's own deviation is one
      of the deviations that are averaged. */
  lemma CciBounded(high: seq<real>, low: seq<real>, close: seq<real>, period: int, i: int)
    requires period > 0 && |high| >= |close| && |low| >= |close| && 0 <= i < |close|
    ensures Abs(CciAt(high, low, close, period, i)) * 0.015 < period as real
  {
    if i >= period - 1 {
      var w := TypicalPrices(high, low, close)[i - period + 1..i + 1];
      var p := period as real;
      var smaTp := Sum(w) / p;
      var meanDev := Sum(AbsDeviations(w, smaTp)) / p;
      LastDeviationBound(w, p);
      GuardedRatioBound(w[|w| - 1] - smaTp, meanDev, p);
    }
  }

  /** The last value of a window deviates from the window mean by at most
      the window length times the mean absolute deviation. */
  lemma LastDeviationBound(w: seq<real>, p: real)
    requires |w| > 0 && p == |w| as real
    ensures var m := Sum(w) / p;
      var meanDev := Sum(AbsDeviations(w, m)) / p;
      meanDev >= 0.0 && Abs(w[|w| - 1] - m) <= p * meanDev
  {
    var m := Sum(w) / p;
    var devs := AbsDeviations(w, m);
    SumAtLeastLast(devs);
    SumNonneg(devs);
    var meanDev := Sum(devs) / p;
    assert p * meanDev == Sum(devs);
    DivNonneg(Sum(devs), p);
  }

  // ----------------------------------------------------------------- ADX

  /** +DM at bar i: the rise of the high when it beats the fall of the low
      and is positive; 0 at bar 0. */
  function PlusDm(high: seq<real>, low: seq<real>, i: int): real
    requires 0 <= i < |high| && i < |low|
  {
    if i == 0 then 0.0
    else
      var up := high[i] - high[i - 1];
      var down := low[i - 1] - low[i];
      if up > down && up > 0.0 then up else 0.0
  }

  /** -DM at bar i: the fall of the low when it beats the rise of the high
      and is positive; 0 at bar 0. */
  function MinusDm(high: seq<real>, low: seq<real>, i: int): real
    requires 0 <= i < |high| && i < |low|
  {
    if i == 0 then 0.0
    else
      var up := high[i] - high[i - 1];
      var down := low[i - 1] - low[i];
      if down > up && down > 0.0 then down else 0.0
  }

  /** +DM and -DM are never negative and never both positive. */
  lemma DirectionalMovementExclusive(high: seq<real>, low: seq<real>, i: int)
    requires 0 <= i < |high| && i < |low|
    ensures PlusDm(high, low, i) >= 0.0 && MinusDm(high, low, i) >= 0.0
    ensures PlusDm(high, low, i) == 0.0 || MinusDm(high, low, i) == 0.0
  {
  }

  /** `100 * sum(dm over the trailing window) / atr`, or 0 where the ATR is 0. */
  function DiAt(dm: seq<real>, atr: seq<real>, period: int, i: int): real
    requires period > 0 && 0 <= i < |dm| == |atr|
  {
    if atr[i] == 0.0 then 0.0 else 100.0 * (Sum(TrailingWindow(dm, i, period)) / atr[i])
  }

  /** `100 * |pdi - ndi| / (pdi + ndi)`, or 0 where the sum is 0. */
  function Dx(pdi: real, ndi: real): real
  {
    if pdi + ndi == 0.0 then 0.0 else 100.0 * Abs(pdi - ndi) / (pdi + ndi)
  }

  lemma FractionAtMostOne(a: real, b: real)
    requires 0.0 <= a <= b && b > 0.0
    ensures 0.0 <= a / b <= 1.0
  {
    var q := a / b;
    assert q * b == a;
    assert (1.0 - q) * b == b - a;
  }

  /** DX stays in [0, 100] whenever both directional indices are non-negative. */
  lemma DxInRange(pdi: real, ndi: real)
    requires pdi >= 0.0 && ndi >= 0.0
    ensures 0.0 <= Dx(pdi, ndi) <= 100.0
  {
    if pdi + ndi != 0.0 {
      var q := Abs(pdi - ndi) / (pdi + ndi);
      assert Abs(pdi - ndi) <= pdi + ndi;
      FractionAtMostOne(Abs(pdi - ndi), pdi + ndi);
      assert 100.0 * Abs(pdi - ndi) / (pdi + ndi) == 100.0 * q;
    }
  }

  function PlusDmSeries(high: seq<real>, low: seq<real>, n: int): (dm: seq<real>)
    requires 0 <= n <= |high| && n <= |low|
    ensures |dm| == n
  {
    seq(n, i requires 0 <= i < n => PlusDm(high, low, i))
  }

  function MinusDmSeries(high: seq<real>, low: seq<real>, n: int): (dm: seq<real>)
    requires 0 <= n <= |high| && n <= |low|
    ensures |dm| == n
  {
    seq(n, i requires 0 <= i < n => MinusDm(high, low, i))
  }

  /** The trailing mean at every index. */
  function TrailingMeans(s: seq<real>, period: int): (m: seq<real>)
    requires period > 0
    ensures |m| == |s|
  {
    seq(|s|, i requires 0 <= i < |s| => TrailingMean(s, i, period))
  }

  function DiSeries(dm: seq<real>, atr: seq<real>, period: int): (di: seq<real>)
    requires period > 0 && |dm| == |atr|
    ensures |di| == |atr|
  {
    seq(|atr|, i requires 0 <= i < |atr| => DiAt(dm, atr, period, i))
  }

  function DxSeries(pdi: seq<real>, ndi: seq<real>): (dx: seq<real>)
    requires |pdi| == |ndi|
    ensures |dx| == |pdi|
  {
    seq(|pdi|, i requires 0 <= i < |pdi| => Dx(pdi[i], ndi[i]))
  }

  /** Every intermediate series of `compute_adx`, as functions of the input. */
  datatype AdxStages = AdxStages(tr: seq<real>, pdm: seq<real>, ndm: seq<real>, atr: seq<real>,
                                 pdi: seq<real>, ndi: seq<real>, dx: seq<real>, adx: seq<real>)

  function AdxPipeline(high: seq<real>, low: seq<real>, close: seq<real>, period: int): (st: AdxStages)
    requires period > 0 && |high| >= |close| && |low| >= |close|
    ensures |st.tr| == |st.pdm| == |st.ndm| == |st.atr| == |close|
    ensures |st.pdi| == |st.ndi| == |st.dx| == |st.adx| == |close|
  {
    var tr := TrSeries(high, low, close);
    var pdm := PlusDmSeries(high, low, |close|);
    var ndm := MinusDmSeries(high, low, |close|);
    var atr := TrailingMeans(tr, period);
    var pdi := DiSeries(pdm, atr, period);
    var ndi := DiSeries(ndm, atr, period);
    var dx := DxSeries(pdi, ndi);
    AdxStages(tr, pdm, ndm, atr, pdi, ndi, dx, TrailingMeans(dx, period))
  }

  lemma DiSeriesNonneg(dm: seq<real>, atr: seq<real>, period: int)
    requires period > 0 && |dm| == |atr|
    requires forall t :: 0 <= t < |dm| ==> dm[t] >= 0.0 && atr[t] >= 0.0
    ensures forall i :: 0 <= i < |atr| ==> DiSeries(dm, atr, period)[i] >= 0.0
  {
    forall i | 0 <= i < |atr| ensures DiSeries(dm, atr, period)[i] >= 0.0 {
      var w := TrailingWindow(dm, i, period);
      forall t | 0 <= t < |w| ensures w[t] >= 0.0 {
        assert w[t] == dm[MaxInt(0, i - period + 1) + t];
      }
      SumNonneg(w);
      if atr[i] != 0.0 {
        DivNonneg(Sum(w), atr[i]);
      }
    }
  }

  /** With every high at least its low: the ATR is non-negative, both
      directional indices are non-negative, DX lies in [0, 100], and ADX, a
      trailing mean of DX, lies in [0, 100]. */
  lemma AdxInRange(high: seq<real>, low: seq<real>, close: seq<real>, period: int)
    requires period > 0 && |high| >= |close| && |low| >= |close|
    requires forall i :: 0 <= i < |close| ==> low[i] <= high[i]
    ensures forall i :: 0 <= i < |close| ==> 0.0 <= AdxPipeline(high, low, close, period).dx[i] <= 100.0
    ensures forall i :: 0 <= i < |close| ==> 0.0 <= AdxPipeline(high, low, close, period).adx[i] <= 100.0
  {
    var st := AdxPipeline(high, low, close, period);
    TrSeriesNonneg(high, low, close);
    forall i | 0 <= i < |close| ensures st.atr[i] >= 0.0 {
      TrailingMeanNonneg(st.tr, i, period);
    }
    forall i | 0 <= i < |close| ensures st.pdm[i] >= 0.0 && st.ndm[i] >= 0.0 {
      DirectionalMovementExclusive(high, low, i);
    }
    DiSeriesNonneg(st.pdm, st.atr, period);
    DiSeriesNonneg(st.ndm, st.atr, period);
    forall i | 0 <= i < |close| ensures 0.0 <= st.dx[i] <= 100.0 {
      DxInRange(st.pdi[i], st.ndi[i]);
    }
    forall i | 0 <= i < |close| ensures 0.0 <= st.adx[i] <= 100.0 {
      TrailingMeanBounds(st.dx, i, period, 0.0, 100.0);
    }
  }

  /** First pass of `compute_adx`: true range, +DM and -DM per bar. */
  method DirectionalPass(high: seq<real>, low: seq<real>, close: seq<real>)
    returns (tr: seq<real>, pdm: seq<real>, ndm: seq<real>)
    requires |high| >= |close| && |low| >= |close|
    ensures tr == TrSeries(high, low, close)
    ensures pdm == PlusDmSeries(high, low, |close|) && ndm == MinusDmSeries(high, low, |close|)
  {
    var n := |close|;
    tr, pdm, ndm := [], [], [];
    ghost var T := TrSeries(high, low, close);
    ghost var P := PlusDmSeries(high, low, n);
    ghost var M := MinusDmSeries(high, low, n);
    for i := 0 to n
      invariant tr == T[..i] && pdm == P[..i] && ndm == M[..i]
    {
      var t, p, m := DirectionalEntry(high, low, close, i);
      assert T[..i + 1] == T[..i] + [T[i]];
      assert P[..i + 1] == P[..i] + [P[i]];
      assert M[..i + 1] == M[..i] + [M[i]];
      tr, pdm, ndm := tr + [t], pdm + [p], ndm + [m];
    }
    assert T[..n] == T && P[..n] == P && M[..n] == M;
  }

  /** One bar of the directional pass: `high - low` and no movement at bar
      0; the true range and the larger of the up and down moves after it. */
  method DirectionalEntry(high: seq<real>, low: seq<real>, close: seq<real>, i: int) returns (t: real, p: real, m: real)
    requires |high| >= |close| && |low| >= |close| && 0 <= i < |close|
    ensures t == TrSeries(high, low, close)[i]
    ensures p == PlusDm(high, low, i) && m == MinusDm(high, low, i)
  {
    if i == 0 {
      return high[i] - low[i], 0.0, 0.0;
    }
    t := Max(Max(high[i] - low[i], Abs(high[i] - close[i - 1])), Abs(low[i] - close[i - 1]));
    var up := high[i] - high[i - 1];
    var down := low[i - 1] - low[i];
    p := if up > down && up > 0.0 then up else 0.0;
    m := if down > up && down > 0.0 then down else 0.0;
  }

  /** The smoothing pass of `compute_adx`, run once over the true ranges
      (giving ATR) and once over DX (giving ADX). */
  method TrailingMeanPass(s: seq<real>, period: int) returns (out: seq<real>)
    requires period > 0
    ensures out == TrailingMeans(s, period)
  {
    out := [];
    for i := 0 to |s|
      invariant out == TrailingMeans(s, period)[..i]
    {
      if i < period {
        assert s[..i + 1] == TrailingWindow(s, i, period);
        out := out + [Sum(s[..i + 1]) / (i + 1) as real];
      } else {
        out := out + [Sum(s[i - period + 1..i + 1]) / period as real];
      }
    }
  }

  /** The +DI/-DI pass of `compute_adx`. */
  method DiPass(pdm: seq<real>, ndm: seq<real>, atr: seq<real>, period: int) returns (pdi: seq<real>, ndi: seq<real>)
    requires period > 0 && |pdm| == |ndm| == |atr|
    ensures pdi == DiSeries(pdm, atr, period) && ndi == DiSeries(ndm, atr, period)
  {
    pdi, ndi := [], [];
    ghost var P := DiSeries(pdm, atr, period);
    ghost var N := DiSeries(ndm, atr, period);
    for i := 0 to |atr|
      invariant pdi == P[..i]
      invariant ndi == N[..i]
    {
      var p, n := DiEntry(pdm, ndm, atr, period, i);
      assert P[..i + 1] == P[..i] + [P[i]];
      assert N[..i + 1] == N[..i] + [N[i]];
      pdi := pdi + [p];
      ndi := ndi + [n];
    }
    assert P[..|atr|] == P && N[..|atr|] == N;
  }

  /** One bar of the +DI/-DI pass: 0 where the ATR is 0, otherwise 100 times
      the trailing sum of the directional movement over the ATR. */
  method DiEntry(pdm: seq<real>, ndm: seq<real>, atr: seq<real>, period: int, i: int) returns (p: real, n: real)
    requires period > 0 && |pdm| == |ndm| == |atr| && 0 <= i < |atr|
    ensures p == DiAt(pdm, atr, period, i) && n == DiAt(ndm, atr, period, i)
  {
    if atr[i] == 0.0 {
      p, n := 0.0, 0.0;
    } else {
      p := 100.0 * (Sum(pdm[MaxInt(0, i - period + 1)..i + 1]) / atr[i]);
      n := 100.0 * (Sum(ndm[MaxInt(0, i - period + 1)..i + 1]) / atr[i]);
    }
  }

  /** The DX pass of `compute_adx`. */
  method DxPass(pdi: seq<real>, ndi: seq<real>) returns (dx: seq<real>)
    requires |pdi| == |ndi|
    ensures dx == DxSeries(pdi, ndi)
  {
    dx := [];
    for i := 0 to |pdi|
      invariant dx == DxSeries(pdi, ndi)[..i]
    {
      var denom := pdi[i] + ndi[i];
      if denom == 0.0 {
        dx := dx + [0.0];
      } else {
        dx := dx + [100.0 * Abs(pdi[i] - ndi[i]) / denom];
      }
    }
  }

  /** `compute_adx`: the directional pass, ATR, +DI/-DI, DX, then ADX; with
      every high at least its low, every ADX value lies in [0, 100]. */
  method ComputeAdx(high: seq<real>, low: seq<real>, close: seq<real>, period: int) returns (adx: seq<real>)
    requires period > 0 && |high| >= |close| && |low| >= |close|
    ensures adx == AdxPipeline(high, low, close, period).adx
    ensures (forall i :: 0 <= i < |close| ==> low[i] <= high[i]) ==>
              forall i :: 0 <= i < |close| ==> 0.0 <= adx[i] <= 100.0
  {
    var tr, pdm, ndm := DirectionalPass(high, low, close);
    var atr := TrailingMeanPass(tr, period);
    var pdi, ndi := DiPass(pdm, ndm, atr, period);
    var dx := DxPass(pdi, ndi);
    adx := TrailingMeanPass(dx, period);
    if forall i :: 0 <= i < |close| ==> low[i] <= high[i] {
      AdxInRange(high, low, close, period);
    }
  }

  // ------------------------------------------------------------ pipeline

  /** `compute_all_indicators`: RSI(14), ATR(14), CCI(20) and ADX(14) of a
      bar list, each exactly as long as the list. */
  method ComputeAllIndicators(candles: seq<Candle>) returns (ind: IndicatorSet)
    ensures |ind.rsi| == |ind.atr| == |ind.cci| == |ind.adx| == |candles|
    ensures forall i :: 0 <= i < |candles| ==>
              ind.rsi[i] == RsiAt(Closes(candles), 14, i) &&
              ind.atr[i] == TrailingMean(TrSeries(Highs(candles), Lows(candles), Closes(candles)), i, 14) &&
              ind.cci[i] == CciAt(Highs(candles), Lows(candles), Closes(candles), 20, i)
    ensures ind.adx == AdxPipeline(Highs(candles), Lows(candles), Closes(candles), 14).adx
    ensures forall i :: 0 <= i < |candles| ==> 0.0 <= ind.rsi[i] < 100.0
    ensures HighAboveLow(candles) ==>
              forall i :: 0 <= i < |candles| ==> ind.atr[i] >= 0.0 && 0.0 <= ind.adx[i] <= 100.0
  {
    var close := Closes(candles);
    var high := Highs(candles);
    var low := Lows(candles);
    var rsi := ComputeRsi(close, 14);
    var atr := ComputeAtr(high, low, close, 14);
    var cci := ComputeCci(high, low, close, 20);
    var adx := ComputeAdx(high, low, close, 14);
    ind := IndicatorSet(rsi, atr, cci, adx);
  }
}
