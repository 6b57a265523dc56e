/** The stand-alone trading bot's backtest: its own list-building EMA,
    SMA, Wilder RSI and ATR helpers, and a long-only EMA crossover replay
    with a volume and RSI filter, a fixed-percentage stop and a compounding
    balance (`balance = qty * exit` on every exit). */
module TradeBot {
  import opened Series

  // ----------------------------------------------------------------- EMA

  /** Entry i of `ema_list`: the first value, then
      `(v[i] - prev) * alpha + prev`. */
  function EmaAt(values: seq<real>, span: int, i: int): real
    requires span != -1 && 0 <= i < |values|
  {
    if i == 0 then values[0]
    else
      var prev := EmaAt(values, span, i - 1);
      (values[i] - prev) * Alpha(span) + prev
  }

  /** `ema_list` as a value: empty for no input, one entry per value. */
  function EmaSeries(values: seq<real>, span: int): (r: seq<real>)
    requires |values| == 0 || span != -1
    ensures |r| == |values|
  {
    seq(|values|, i requires 0 <= i < |values| => EmaAt(values, span, i))
  }

  /** `ema_list`. */
  method EmaList(values: seq<real>, span: int) returns (out: seq<real>)
    requires |values| == 0 || span != -1
    ensures out == EmaSeries(values, span)
  {
    if |values| == 0 {
      return [];
    }
    var alpha := 2.0 / (span + 1) as real;
    out := [values[0]];
    for t := 1 to |values|
      invariant |out| == t
      invariant forall i :: 0 <= i < t ==> out[i] == EmaAt(values, span, i)
    {
      var v := values[t];
      out := out + [(v - out[|out| - 1]) * alpha + out[|out| - 1]];
    }
  }

  /** `(v - p) * k + p` and `v * k + p * (1 - k)` are the same step. */
  lemma StepForms(v: real, p: real, k: real)
    ensures (v - p) * k + p == v * k + p * (1.0 - k)
  {
  }

  /** The series starts with the first value and follows the same
      recurrence `v*k + prev*(1-k)` as the padded indicators' EMA. */
  lemma EmaSeriesRecurrence(values: seq<real>, span: int)
    requires span != -1
    ensures EmaRecurrence(EmaSeries(values, span), values, Alpha(span))
  {
    var r := EmaSeries(values, span);
    forall i | 0 < i < |values|
      ensures r[i] == values[i] * Alpha(span) + r[i - 1] * (1.0 - Alpha(span))
    {
      StepForms(values[i], r[i - 1], Alpha(span));
    }
  }

  /** With a span of at least 1 the series stays within any range that
      holds every input. */
  lemma EmaSeriesWithin(values: seq<real>, span: int, lo: real, hi: real)
    requires span >= 1
    requires forall t :: 0 <= t < |values| ==> lo <= values[t] <= hi
    ensures forall i :: 0 <= i < |values| ==> lo <= EmaSeries(values, span)[i] <= hi
  {
    EmaSeriesRecurrence(values, span);
    AlphaInUnit(span);
    EmaWithin(EmaSeries(values, span), values, Alpha(span), lo, hi);
  }

  // ----------------------------------------------------------------- SMA

  /** The full-window means `sma_list` emits: one per window of `period`
      consecutive values, and none for a partial window. */
  function FullWindowMeans(values: seq<real>, period: int): (r: seq<real>)
    requires period > 0
    ensures |r| == MaxInt(0, |values| - period + 1)
  {
    seq(MaxInt(0, |values| - period + 1), j requires 0 <= j < MaxInt(0, |values| - period + 1) =>
      Mean(values[j..j + period]))
  }

  /** Extending a window by the next value and, once it holds
      `period + 1` values, dropping its oldest. */
  lemma SlideWindow(values: seq<real>, i: int, period: int)
    requires period > 0 && 0 <= i < |values|
    ensures i >= period ==>
      Sum(values[i - period..i]) + values[i] - values[i - period] == Sum(values[i - period + 1..i + 1])
    ensures i < period ==> Sum(values[0..i]) + values[i] == Sum(values[0..i + 1])
  {
    var lo := MaxInt(0, i - period);
    SumSnoc(values[lo..i], values[i]);
    assert values[lo..i] + [values[i]] == values[lo..i + 1];
    if i >= period {
      SumFront(values[lo..i + 1]);
      assert values[lo..i + 1][1..] == values[i - period + 1..i + 1];
    }
  }

  /** `sma_list`: a running sum that drops `values[i - period]` once the
      window is full, emitting `s / period` for every full window. */
  method SmaList(values: seq<real>, period: int) returns (out: seq<real>)
    requires period > 0
    ensures out == FullWindowMeans(values, period)
  {
    out := [];
    var s := 0.0;
    for i := 0 to |values|
      invariant s == Sum(values[MaxInt(0, i - period)..i])
      invariant |out| == MaxInt(0, i - period + 1)
      invariant forall j :: 0 <= j < |out| ==> out[j] == Mean(values[j..j + period])
    {
      var v := values[i];
      SlideWindow(values, i, period);
      s := s + v;
      if i >= period {
        s := s - values[i - period];
        assert s == Sum(values[i + 1 - period..i + 1]);
        out := out + [s / period as real];
      } else if i == period - 1 {
        assert s == Sum(values[0..period]);
        out := out + [s / period as real];
      }
    }
  }

  // ----------------------------------------------------------------- RSI

  /** Wilder's running averages of the upward and downward moves. */
  datatype Averages = Averages(up: real, down: real)

  /** The seed: the plain means of the first `period` moves, with a zero
      downward sum replaced by 1e-9. */
  function SeedAverages(values: seq<real>, period: int): (a: Averages)
    requires period > 0 && |values| >= period + 1
    ensures a.up >= 0.0 && a.down >= 0.0
  {
    var ups := Gains(values)[..period];
    var downs := Losses(values)[..period];
    GainsLossesNonneg(values);
    assert forall t :: 0 <= t < period ==> ups[t] >= 0.0 && downs[t] >= 0.0;
    SumNonneg(ups);
    SumNonneg(downs);
    DivNonneg(Sum(ups), period as real);
    DivNonneg(Sum(downs), period as real);
    Averages(Sum(ups) / period as real, if Sum(downs) != 0.0 then Sum(downs) / period as real else 1e-9)
  }

  /** One Wilder step `avg := (avg * (period - 1) + move) / period`. */
  function WilderStep(a: Averages, u: real, d: real, period: int): (b: Averages)
    requires period > 0 && a.up >= 0.0 && a.down >= 0.0 && u >= 0.0 && d >= 0.0
    ensures b.up >= 0.0 && b.down >= 0.0
  {
    DivNonneg(a.up * (period - 1) as real + u, period as real);
    DivNonneg(a.down * (period - 1) as real + d, period as real);
    Averages((a.up * (period - 1) as real + u) / period as real, (a.down * (period - 1) as real + d) / period as real)
  }

  /** The averages after m smoothing steps over the moves after the
      first `period`. */
  function WilderAverages(values: seq<real>, period: int, m: int): (a: Averages)
    requires period > 0 && |values| >= period + 1 && 0 <= m <= |values| - 1 - period
    ensures a.up >= 0.0 && a.down >= 0.0
  {
    if m == 0 then SeedAverages(values, period)
    else
      GainsLossesExclusive(values, period + m - 1);
      WilderStep(WilderAverages(values, period, m - 1), Gains(values)[period + m - 1], Losses(values)[period + m - 1], period)
  }

  /** Entry i of `rsi_list`: 50.0 everywhere for a short input and for the
      first `period + 1` entries, then the RSI of the Wilder averages. */
  function RsiListAt(values: seq<real>, period: int, i: int): real
    requires period > 0 && 0 <= i < |values|
  {
    if |values| < period + 1 || i <= period then 50.0
    else
      var a := WilderAverages(values, period, i - period);
      RsiFromAverages(a.up, a.down)
  }

  /** One more smoothing step, in the loop's own words. */
  lemma WilderAveragesNext(values: seq<real>, period: int, m: int)
    requires period > 0 && |values| >= period + 1 && 0 <= m < |values| - 1 - period
    ensures Gains(values)[period + m] >= 0.0 && Losses(values)[period + m] >= 0.0
    ensures WilderAverages(values, period, m + 1) ==
      WilderStep(WilderAverages(values, period, m), Gains(values)[period + m], Losses(values)[period + m], period)
  {
    GainsLossesExclusive(values, period + m);
  }

  /** WilderStep spelled out on the two running averages. */
  lemma WilderStepSpelled(up: real, down: real, u: real, d: real, period: int)
    requires period > 0 && up >= 0.0 && down >= 0.0 && u >= 0.0 && d >= 0.0
    ensures WilderStep(Averages(up, down), u, d, period) ==
      Averages((up * (period - 1) as real + u) / period as real, (down * (period - 1) as real + d) / period as real)
  {
  }

  /** Entry `period + 1 + t` of `rsi_list` spelled as the loop computes it. */
  lemma RsiListEntry(values: seq<real>, period: int, t: int, a: Averages)
    requires period > 0 && |values| >= period + 1 && 0 <= t < |values| - 1 - period
    requires a == WilderAverages(values, period, t + 1)
    ensures RsiListAt(values, period, period + 1 + t) == 100.0 - 100.0 / (1.0 + a.up / (a.down + 1e-12))
  {
    assert RsiListAt(values, period, period + 1 + t) == RsiFromAverages(a.up, a.down);
    RsiFromAveragesSpelled(a.up, a.down);
  }

  /** The RSI formula as `rsi_list` writes it. */
  lemma RsiFromAveragesSpelled(up: real, down: real)
    requires up >= 0.0 && down >= 0.0
    ensures RsiFromAverages(up, down) == 100.0 - 100.0 / (1.0 + up / (down + 1e-12))
  {
  }

  /** `rsi_list`. */
  method RsiList(values: seq<real>, period: int) returns (out: seq<real>)
    requires period > 0
    ensures |out| == |values|
    ensures forall i :: 0 <= i < |values| ==> out[i] == RsiListAt(values, period, i)
  {
    RsiListWarmUp(values, period);
    if |values| < period + 1 {
      return seq(|values|, _ => 50.0);
    }
    var ups := Gains(values);
    var downs := Losses(values);
    var upAvg, downAvg := RsiListSeed(values, period, ups, downs);
    out := seq(period + 1, _ => 50.0);
    for t := 0 to |values| - 1 - period
      invariant Averages(upAvg, downAvg) == WilderAverages(values, period, t)
      invariant |out| == period + 1 + t
      invariant forall i :: 0 <= i < |out| ==> out[i] == RsiListAt(values, period, i)
    {
      var rsi;
      upAvg, downAvg, rsi := RsiListStep(values, period, t, ups, downs, upAvg, downAvg);
      out := out + [rsi];
    }
  }

  /** The entries of `rsi_list` that are 50.0: all of them for a short
      input, otherwise the first `period + 1`. */
  lemma RsiListWarmUp(values: seq<real>, period: int)
    requires period > 0
    ensures forall i :: 0 <= i < |values| && (i <= period || |values| < period + 1) ==> RsiListAt(values, period, i) == 50.0
  {
  }

  /** The seed averages of `rsi_list`: plain means of the first `period`
      moves, a zero loss average replaced by 1e-9. */
  method RsiListSeed(values: seq<real>, period: int, ups: seq<real>, downs: seq<real>) returns (upAvg: real, downAvg: real)
    requires period > 0 && |values| >= period + 1
    requires ups == Gains(values) && downs == Losses(values)
    ensures Averages(upAvg, downAvg) == WilderAverages(values, period, 0)
  {
    upAvg := Sum(ups[..period]) / period as real;
    downAvg := if Sum(downs[..period]) != 0.0 then Sum(downs[..period]) / period as real else 1e-9;
  }

  /** One pass of the smoothing loop of `rsi_list`: the next move updates
      both averages, and the RSI of the new averages is entry
      `period + 1 + t`. */
  method RsiListStep(values: seq<real>, period: int, t: int, ups: seq<real>, downs: seq<real>,
                     upAvg: real, downAvg: real) returns (upAvg': real, downAvg': real, rsi: real)
    requires period > 0 && |values| >= period + 1 && 0 <= t < |values| - 1 - period
    requires ups == Gains(values) && downs == Losses(values)
    requires Averages(upAvg, downAvg) == WilderAverages(values, period, t)
    ensures Averages(upAvg', downAvg') == WilderAverages(values, period, t + 1)
    ensures rsi == RsiListAt(values, period, period + 1 + t)
  {
    var u := ups[period + t];
    var d := downs[period + t];
    WilderAveragesNext(values, period, t);
    WilderStepSpelled(upAvg, downAvg, u, d, period);
    upAvg' := (upAvg * (period - 1) as real + u) / period as real;
    downAvg' := (downAvg * (period - 1) as real + d) / period as real;
    RsiListEntry(values, period, t, Averages(upAvg', downAvg'));
    var rs := upAvg' / (downAvg' + 1e-12);
    rsi := 100.0 - 100.0 / (1.0 + rs);
  }

  /** Every entry of `rsi_list` lies in [0, 100), and the warm-up entries
      are exactly 50.0. */
  lemma RsiListInRange(values: seq<real>, period: int, i: int)
    requires period > 0 && 0 <= i < |values|
    ensures 0.0 <= RsiListAt(values, period, i) < 100.0
    ensures i <= period ==> RsiListAt(values, period, i) == 50.0
    ensures |values| < period + 1 ==> RsiListAt(values, period, i) == 50.0
  {
  }

  // ----------------------------------------------------------------- ATR

  /** The true ranges of bars 1 .. n - 1, each against the previous close. */
  function TrList(highs: seq<real>, lows: seq<real>, closes: seq<real>): (r: seq<real>)
    requires |highs| >= |closes| && |lows| >= |closes|
    ensures |r| == MaxInt(0, |closes| - 1)
  {
    if |closes| == 0 then []
    else seq(|closes| - 1, j requires 0 <= j < |closes| - 1 => TrueRange(highs[j + 1], lows[j + 1], closes[j]))
  }

  /** `atr_list` as a value: zeros without true ranges, their plain mean
      repeated while fewer than `period` exist, otherwise the first
      full-window mean repeated `period` times followed by all of them. */
  function AtrSeries(highs: seq<real>, lows: seq<real>, closes: seq<real>, period: int): seq<real>
    requires period > 0 && |highs| >= |closes| && |lows| >= |closes|
  {
    var trs := TrList(highs, lows, closes);
    if |trs| == 0 then seq(|closes|, _ => 0.0)
    else if |trs| < period then seq(|closes|, _ => Mean(trs))
    else
      var sm := FullWindowMeans(trs, period);
      seq(period, _ => sm[0]) + sm
  }

  /** `atr_list`. */
  method AtrList(highs: seq<real>, lows: seq<real>, closes: seq<real>, period: int) returns (out: seq<real>)
    requires period > 0 && |highs| >= |closes| && |lows| >= |closes|
    ensures out == AtrSeries(highs, lows, closes, period)
  {
    var trs: seq<real> := [];
    var i := 1;
    while i < |closes|
      invariant 1 <= i <= MaxInt(1, |closes|)
      invariant |trs| == i - 1
      invariant forall j :: 0 <= j < i - 1 ==> trs[j] == TrueRange(highs[j + 1], lows[j + 1], closes[j])
    {
      var tr := Max(Max(highs[i] - lows[i], Abs(highs[i] - closes[i - 1])), Abs(lows[i] - closes[i - 1]));
      trs := trs + [tr];
      i := i + 1;
    }
    assert trs == TrList(highs, lows, closes);
    if |trs| == 0 {
      return seq(|closes|, _ => 0.0);
    }
    if |trs| < period {
      var avg := Sum(trs) / |trs| as real;
      return seq(|closes|, _ => avg);
    }
    var smaTr := SmaList(trs, period);
    out := seq(period, _ => smaTr[0]) + smaTr;
  }

  /** `atr_list` has one entry per close, none negative; with at least
      `period` true ranges, entry i is the mean of the `period` true ranges
      ending at bar i, and the first `period` entries repeat the first such
      mean. */
  lemma AtrSeriesShape(highs: seq<real>, lows: seq<real>, closes: seq<real>, period: int)
    requires period > 0 && |highs| >= |closes| && |lows| >= |closes|
    ensures |AtrSeries(highs, lows, closes, period)| == |closes|
    ensures forall i :: 0 <= i < |closes| ==> AtrSeries(highs, lows, closes, period)[i] >= 0.0
    ensures var trs := TrList(highs, lows, closes);
      |trs| >= period ==>
        forall i :: 0 <= i < |closes| ==>
          AtrSeries(highs, lows, closes, period)[i] == Mean(trs[MaxInt(0, i - period)..MaxInt(0, i - period) + period])
  {
    var trs := TrList(highs, lows, closes);
    var r := AtrSeries(highs, lows, closes, period);
    if |trs| > 0 {
      forall j | 0 <= j < |trs| ensures trs[j] >= 0.0 {
      }
      if |trs| < period {
        MeanNonneg(trs);
      } else {
        var sm := FullWindowMeans(trs, period);
        forall j | 0 <= j < |sm| ensures sm[j] >= 0.0 {
          var w := trs[j..j + period];
          assert forall t :: 0 <= t < |w| ==> w[t] == trs[j + t];
          MeanNonneg(w);
        }
        forall i | 0 <= i < |closes|
          ensures r[i] >= 0.0
          ensures r[i] == Mean(trs[MaxInt(0, i - period)..MaxInt(0, i - period) + period])
        {
          if i >= period {
            assert r[i] == sm[i - period];
          } else {
            assert r[i] == sm[0];
          }
        }
      }
    }
  }

  // -------------------------------------------------------------- volume

  function Volumes(candles: seq<Candle>): (r: seq<real>)
    ensures |r| == |candles|
    ensures forall i :: 0 <= i < |candles| ==> r[i] == candles[i].volume
  {
    seq(|candles|, i requires 0 <= i < |candles| => candles[i].volume)
  }

  /** `avg_vol20[i]`: the mean volume of the (up to) 20 bars before bar i,
      or bar i's own volume when there are none. */
  function AvgVolume(vols: seq<real>, i: int): real
    requires 0 <= i < |vols|
  {
    var w := vols[MaxInt(0, i - 20)..i];
    if |w| > 0 then Mean(w) else vols[i]
  }

  method AvgVolumes(vols: seq<real>) returns (out: seq<real>)
    ensures |out| == |vols|
    ensures forall i :: 0 <= i < |vols| ==> out[i] == AvgVolume(vols, i)
  {
    out := [];
    for i := 0 to |vols|
      invariant |out| == i
      invariant forall t :: 0 <= t < i ==> out[t] == AvgVolume(vols, t)
    {
      var window := vols[MaxInt(0, i - 20)..i];
      out := out + [if |window| > 0 then Sum(window) / |window| as real else vols[i]];
    }
  }

  /** The average volume never leaves a range holding every volume. */
  lemma AvgVolumeWithin(vols: seq<real>, i: int, lo: real, hi: real)
    requires 0 <= i < |vols|
    requires forall t :: 0 <= t < |vols| ==> lo <= vols[t] <= hi
    ensures lo <= AvgVolume(vols, i) <= hi
  {
    var w := vols[MaxInt(0, i - 20)..i];
    if |w| > 0 {
      assert forall t :: 0 <= t < |w| ==> w[t] == vols[MaxInt(0, i - 20) + t];
      MeanBounds(w, lo, hi);
    }
  }

  // -------------------------------------------------------------- replay

  /** The environment-configured strategy parameters. */
  datatype Config = Config(emaFast: int, emaSlow: int, rsiPeriod: int, volumeMultiplier: real)

  /** `EMA_FAST`, `EMA_SLOW`, `RSI_PERIOD` and `VOLUME_MULTIPLIER` defaults. */
  const DefaultConfig: Config := Config(8, 21, 14, 1.0)

  predicate ValidConfig(cfg: Config)
  {
    cfg.emaFast != -1 && cfg.emaSlow != -1 && cfg.rsiPeriod > 0
  }

  /** The first bar the loop looks at: `max(EMA_SLOW, RSI_PERIOD) + 2`. */
  function FirstBar(cfg: Config): int
  {
    MaxInt(cfg.emaSlow, cfg.rsiPeriod) + 2
  }

  /** The indicator lists the loop reads. */
  datatype Lines = Lines(emaFast: seq<real>, emaSlow: seq<real>, rsi: seq<real>, avgVol: seq<real>)

  predicate LinesCover(lines: Lines, n: int)
  {
    |lines.emaFast| == n && |lines.emaSlow| == n && |lines.rsi| == n && |lines.avgVol| == n
  }

  function ComputeLines(candles: seq<Candle>, cfg: Config): (lines: Lines)
    requires ValidConfig(cfg)
    ensures LinesCover(lines, |candles|)
  {
    var closes := Closes(candles);
    Lines(EmaSeries(closes, cfg.emaFast), EmaSeries(closes, cfg.emaSlow),
          seq(|closes|, i requires 0 <= i < |closes| => RsiListAt(closes, cfg.rsiPeriod, i)),
          seq(|candles|, i requires 0 <= i < |candles| => AvgVolume(Volumes(candles), i)))
  }

  predicate CrossUp(lines: Lines, i: int)
    requires 1 <= i < |lines.emaFast| && i < |lines.emaSlow|
  {
    lines.emaFast[i - 1] <= lines.emaSlow[i - 1] && lines.emaFast[i] > lines.emaSlow[i]
  }

  predicate CrossDown(lines: Lines, i: int)
    requires 1 <= i < |lines.emaFast| && i < |lines.emaSlow|
  {
    lines.emaFast[i - 1] >= lines.emaSlow[i - 1] && lines.emaFast[i] < lines.emaSlow[i]
  }

  /** A cross-up and a cross-down never happen on the same bar. */
  lemma CrossesExclusive(lines: Lines, i: int)
    requires 1 <= i < |lines.emaFast| && i < |lines.emaSlow|
    ensures !(CrossUp(lines, i) && CrossDown(lines, i))
  {
  }

  /** The entry filter: a cross-up, volume above the scaled 20-bar average,
      and the previous bar's RSI strictly between 25 and 75. */
  predicate EntrySignal(cfg: Config, candles: seq<Candle>, lines: Lines, i: int)
    requires 1 <= i < |candles| && LinesCover(lines, |candles|)
  {
    CrossUp(lines, i) &&
    candles[i].volume > lines.avgVol[i] * cfg.volumeMultiplier &&
    25.0 < lines.rsi[i - 1] < 75.0
  }

  /** An open long: `{"entry", "qty", "stop", "entry_time"}`. */
  datatype Position = Position(entry: real, qty: real, stop: real, entryTime: int)

  /** The loop's state between bars. */
  datatype Book = Book(balance: real, position: Option<Position>, trades: seq<Trade>, wins: nat, losses: nat)

  /** The unclamped entry size: the risk amount over the stop distance
      `price * stop_loss_pct`, or the whole balance for a non-positive
      percentage. */
  function RiskQty(balance: real, price: real, riskPerTrade: real, stopLossPct: real): real
    requires price != 0.0
  {
    var riskAmount := balance * riskPerTrade;
    if stopLossPct <= 0.0 then balance / price else riskAmount / (price * stopLossPct)
  }

  /** The entry size, never below 1e-8. */
  function EntryQty(balance: real, price: real, riskPerTrade: real, stopLossPct: real): (qty: real)
    requires price != 0.0
    ensures qty >= 1e-8
    ensures qty == 1e-8 || qty == RiskQty(balance, price, riskPerTrade, stopLossPct)
  {
    Max(RiskQty(balance, price, riskPerTrade, stopLossPct), 1e-8)
  }

  /** The position opened at `price`: the stop is `price * (1 - stop_loss_pct)`. */
  function Enter(balance: real, price: real, time: int, riskPerTrade: real, stopLossPct: real): Position
    requires price != 0.0
  {
    Position(price, EntryQty(balance, price, riskPerTrade, stopLossPct), price * (1.0 - stopLossPct), time)
  }

  /** Unless the 1e-8 floor applies, a stop-out loses exactly the risk
      amount: `qty * (entry - stop) == balance * risk_per_trade`. */
  lemma StopLossRisksRiskAmount(balance: real, price: real, time: int, riskPerTrade: real, stopLossPct: real)
    requires price != 0.0 && stopLossPct > 0.0
    requires RiskQty(balance, price, riskPerTrade, stopLossPct) >= 1e-8
    ensures var p := Enter(balance, price, time, riskPerTrade, stopLossPct);
      p.qty * (p.entry - p.stop) == balance * riskPerTrade
  {
    var q := balance * riskPerTrade / (price * stopLossPct);
    assert q * (price * stopLossPct) == balance * riskPerTrade;
    assert price - price * (1.0 - stopLossPct) == price * stopLossPct;
  }

  /** An exit: the balance becomes the proceeds `qty * exit`, the profit
      is the proceeds less the cost `qty * entry`, one trade is logged and
      the win or loss counter is bumped. */
  function CloseAt(book: Book, p: Position, exitPrice: real, reason: ExitReason, time: int): Book
  {
    var proceeds := p.qty * exitPrice;
    var profit := proceeds - p.qty * p.entry;
    Book(proceeds, None, book.trades + [Trade(time, p.entry, exitPrice, profit, proceeds, reason)],
         if profit >= 0.0 then book.wins + 1 else book.wins,
         if profit >= 0.0 then book.losses else book.losses + 1)
  }

  predicate NonzeroCloses(candles: seq<Candle>)
  {
    forall i :: 0 <= i < |candles| ==> candles[i].close != 0.0
  }

  /** One bar of `run_backtest`: nothing before the first bar; flat, enter
      at the close on the entry filter; open, leave at the stop when the
      low reaches it, otherwise at the close on a cross-down. */
  function Bar(cfg: Config, candles: seq<Candle>, lines: Lines, i: int, riskPerTrade: real, stopLossPct: real,
               book: Book): Book
    requires ValidConfig(cfg) && 0 <= i < |candles| && LinesCover(lines, |candles|) && NonzeroCloses(candles)
  {
    if i < FirstBar(cfg) then book
    else if book.position.None? then
      if EntrySignal(cfg, candles, lines, i) then
        book.(position := Some(Enter(book.balance, candles[i].close, candles[i].time, riskPerTrade, stopLossPct)))
      else book
    else
      var p := book.position.value;
      if candles[i].low <= p.stop then CloseAt(book, p, p.stop, StopLoss, candles[i].time)
      else if CrossDown(lines, i) then CloseAt(book, p, candles[i].close, SignalExit, candles[i].time)
      else book
  }

  /** The book after bars 0 .. hi - 1. */
  function Replay(cfg: Config, candles: seq<Candle>, lines: Lines, hi: int, riskPerTrade: real, stopLossPct: real,
                  initialBalance: real): Book
    requires ValidConfig(cfg) && 0 <= hi <= |candles| && LinesCover(lines, |candles|) && NonzeroCloses(candles)
  {
    if hi == 0 then Book(initialBalance, None, [], 0, 0)
    else Bar(cfg, candles, lines, hi - 1, riskPerTrade, stopLossPct,
             Replay(cfg, candles, lines, hi - 1, riskPerTrade, stopLossPct, initialBalance))
  }

  /** The returned statistics (the rounding to 8 and 2 places omitted). */
  datatype Stats = Stats(initialBalance: real, finalBalance: real, profitUsd: real, trades: nat, wins: nat,
                         losses: nat, winRate: real)

  function Finish(initialBalance: real, book: Book): (Stats, seq<Trade>)
  {
    var decided := book.wins + book.losses;
    (Stats(initialBalance, book.balance, book.balance - initialBalance, |book.trades|, book.wins, book.losses,
           if decided > 0 then book.wins as real / decided as real * 100.0 else 0.0),
     book.trades)
  }

  /** The counters agree with the log, and the balance is the last
      trade's `balance_after`, or the initial balance before any trade. */
  predicate Consistent(book: Book, initialBalance: real)
  {
    book.wins == CountWins(book.trades) && book.wins + book.losses == |book.trades| &&
    book.balance == (if book.trades == [] then initialBalance else book.trades[|book.trades| - 1].balanceAfter)
  }

  /** The indicator lists `run_backtest` computes before its loop (the ATR
      list among them is never read). */
  method BuildLines(candles: seq<Candle>, cfg: Config) returns (lines: Lines)
    requires ValidConfig(cfg)
    ensures lines == ComputeLines(candles, cfg)
  {
    var closes := Closes(candles);
    var highs := Highs(candles);
    var lows := Lows(candles);
    var vols := Volumes(candles);
    var emaFast := EmaList(closes, cfg.emaFast);
    var emaSlow := EmaList(closes, cfg.emaSlow);
    var rsiVals := RsiList(closes, cfg.rsiPeriod);
    var atrVals := AtrList(highs, lows, closes, 14);
    var avgVol20 := AvgVolumes(vols);
    lines := Lines(emaFast, emaSlow, rsiVals, avgVol20);
  }

  /** The entry half of one bar for a flat book: on a cross-up with
      enough volume and a moderate previous RSI, buy at the close. */
  method EnterBar(cfg: Config, candles: seq<Candle>, lines: Lines, i: int, riskPerTrade: real, stopLossPct: real,
                  book: Book) returns (after: Book)
    requires ValidConfig(cfg) && FirstBar(cfg) <= i < |candles| && LinesCover(lines, |candles|) && NonzeroCloses(candles)
    requires book.position.None?
    ensures after == Bar(cfg, candles, lines, i, riskPerTrade, stopLossPct, book)
  {
    var price := candles[i].close;
    var crossUp := lines.emaFast[i - 1] <= lines.emaSlow[i - 1] && lines.emaFast[i] > lines.emaSlow[i];
    var volOk := candles[i].volume > lines.avgVol[i] * cfg.volumeMultiplier;
    var rsiOk := lines.rsi[i - 1] > 25.0 && lines.rsi[i - 1] < 75.0;
    assert crossUp && volOk && rsiOk <==> EntrySignal(cfg, candles, lines, i);
    after := book;
    if crossUp && volOk && rsiOk {
      var riskAmount := book.balance * riskPerTrade;
      var qty := if stopLossPct <= 0.0 then book.balance / price else riskAmount / (price * stopLossPct);
      assert qty == RiskQty(book.balance, price, riskPerTrade, stopLossPct);
      qty := Max(qty, 1e-8);
      var stopPrice := price * (1.0 - stopLossPct);
      assert qty == EntryQty(book.balance, price, riskPerTrade, stopLossPct);
      after := book.(position := Some(Position(price, qty, stopPrice, candles[i].time)));
      assert Enter(book.balance, price, candles[i].time, riskPerTrade, stopLossPct) == Position(price, qty, stopPrice, candles[i].time);
    }
  }

  /** The exit half of one bar for an open position. */
  method ExitBar(cfg: Config, candles: seq<Candle>, lines: Lines, i: int, book: Book) returns (after: Book)
    requires ValidConfig(cfg) && FirstBar(cfg) <= i < |candles| && LinesCover(lines, |candles|) && NonzeroCloses(candles)
    requires book.position.Some?
    ensures after == Bar(cfg, candles, lines, i, 0.0, 0.0, book)
  {
    var p := book.position.value;
    var time := candles[i].time;
    if candles[i].low <= p.stop {
      after := CloseAt(book, p, p.stop, StopLoss, time);
      return;
    }
    var crossDown := lines.emaFast[i - 1] >= lines.emaSlow[i - 1] && lines.emaFast[i] < lines.emaSlow[i];
    if crossDown {
      after := CloseAt(book, p, candles[i].close, SignalExit, time);
      return;
    }
    after := book;
  }

  /** The exit half does not depend on the sizing parameters. */
  lemma ExitIgnoresSizing(cfg: Config, candles: seq<Candle>, lines: Lines, i: int, riskPerTrade: real,
                          stopLossPct: real, book: Book)
    requires ValidConfig(cfg) && FirstBar(cfg) <= i < |candles| && LinesCover(lines, |candles|) && NonzeroCloses(candles)
    requires book.position.Some?
    ensures Bar(cfg, candles, lines, i, riskPerTrade, stopLossPct, book) == Bar(cfg, candles, lines, i, 0.0, 0.0, book)
  {
  }

  /** `run_backtest`: the statistics and trade log of the replay over
      every bar; the counters add up to the number of trades, wins count
      the trades with a non-negative profit, and the win rate is a
      percentage that is 0 without trades. */
  method RunBacktest(candles: seq<Candle>, cfg: Config, initialBalance: real, riskPerTrade: real, stopLossPct: real)
    returns (stats: Stats, trades: seq<Trade>)
    requires ValidConfig(cfg) && NonzeroCloses(candles)
    ensures (stats, trades) == Finish(initialBalance, Replay(cfg, candles, ComputeLines(candles, cfg), |candles|,
                                                            riskPerTrade, stopLossPct, initialBalance))
    ensures stats.trades == |trades| == stats.wins + stats.losses
    ensures stats.wins == CountWins(trades)
    ensures stats.finalBalance == if trades == [] then initialBalance else trades[|trades| - 1].balanceAfter
    ensures stats.profitUsd == stats.finalBalance - initialBalance
    ensures 0.0 <= stats.winRate <= 100.0
    ensures |trades| == 0 ==> stats.winRate == 0.0
  {
    var lines := BuildLines(candles, cfg);
    var book := Book(initialBalance, None, [], 0, 0);
    for i := 0 to |candles|
      invariant book == Replay(cfg, candles, lines, i, riskPerTrade, stopLossPct, initialBalance)
    {
      assert Replay(cfg, candles, lines, i + 1, riskPerTrade, stopLossPct, initialBalance) ==
             Bar(cfg, candles, lines, i, riskPerTrade, stopLossPct, book);
      if i < FirstBar(cfg) {
        continue;
      }
      if book.position.None? {
        book := EnterBar(cfg, candles, lines, i, riskPerTrade, stopLossPct, book);
      } else {
        ExitIgnoresSizing(cfg, candles, lines, i, riskPerTrade, stopLossPct, book);
        book := ExitBar(cfg, candles, lines, i, book);
      }
    }
    ReplayConsistent(cfg, candles, lines, |candles|, riskPerTrade, stopLossPct, initialBalance);
    var decided := book.wins + book.losses;
    if decided > 0 {
      WinRateBounds(book.wins, decided);
    }
    stats, trades := Finish(initialBalance, book).0, book.trades;
  }

  lemma WinRateBounds(wins: nat, decided: nat)
    requires 0 < decided && wins <= decided
    ensures 0.0 <= wins as real / decided as real * 100.0 <= 100.0
  {
    var q := wins as real / decided as real;
    assert q * decided as real == wins as real;
  }

  // -------------------------------------------------------------- lemmas

  lemma CloseKeepsConsistent(book: Book, p: Position, exitPrice: real, reason: ExitReason, time: int,
                             initialBalance: real)
    requires Consistent(book, initialBalance)
    ensures Consistent(CloseAt(book, p, exitPrice, reason, time), initialBalance)
  {
    var after := CloseAt(book, p, exitPrice, reason, time);
    assert after.trades[..|after.trades| - 1] == book.trades;
  }

  lemma {:induction false} ReplayConsistent(cfg: Config, candles: seq<Candle>, lines: Lines, hi: int,
                                            riskPerTrade: real, stopLossPct: real, initialBalance: real)
    requires ValidConfig(cfg) && 0 <= hi <= |candles| && LinesCover(lines, |candles|) && NonzeroCloses(candles)
    ensures Consistent(Replay(cfg, candles, lines, hi, riskPerTrade, stopLossPct, initialBalance), initialBalance)
  {
    if hi > 0 {
      var i := hi - 1;
      var book := Replay(cfg, candles, lines, i, riskPerTrade, stopLossPct, initialBalance);
      ReplayConsistent(cfg, candles, lines, i, riskPerTrade, stopLossPct, initialBalance);
      if i >= FirstBar(cfg) && book.position.Some? {
        var p := book.position.value;
        CloseKeepsConsistent(book, p, p.stop, StopLoss, candles[i].time, initialBalance);
        CloseKeepsConsistent(book, p, candles[i].close, SignalExit, candles[i].time, initialBalance);
      }
    }
  }

  /** Before the first bar nothing happens. A flat book enters exactly on
      the entry filter, at the close, with a quantity of at least 1e-8 and
      the stop `price * (1 - stop_loss_pct)`, and an entering bar logs no
      trade. */
  lemma EntryRules(cfg: Config, candles: seq<Candle>, lines: Lines, i: int, riskPerTrade: real, stopLossPct: real,
                   book: Book)
    requires ValidConfig(cfg) && 0 <= i < |candles| && LinesCover(lines, |candles|) && NonzeroCloses(candles)
    ensures i < FirstBar(cfg) ==> Bar(cfg, candles, lines, i, riskPerTrade, stopLossPct, book) == book
    ensures i >= FirstBar(cfg) && book.position.None? ==>
      var after := Bar(cfg, candles, lines, i, riskPerTrade, stopLossPct, book);
      var price := candles[i].close;
      after.trades == book.trades && after.balance == book.balance &&
      (after.position.Some? <==> EntrySignal(cfg, candles, lines, i)) &&
      (after.position.Some? ==>
        after.position.value.entry == price &&
        after.position.value.qty >= 1e-8 &&
        after.position.value.stop == price * (1.0 - stopLossPct) &&
        after.position.value.entryTime == candles[i].time)
  {
  }

  /** An open long leaves at its stop as a stop-loss whenever the bar's
      low reaches the stop, cross-down or not; otherwise it leaves at the
      close exactly on a cross-down; every exit makes the balance the
      proceeds `qty * exit`, logs exactly one trade whose profit is the
      proceeds less the cost and whose `balance_after` is the new balance,
      and leaves the book flat. */
  lemma ExitRules(cfg: Config, candles: seq<Candle>, lines: Lines, i: int, riskPerTrade: real, stopLossPct: real,
                  book: Book)
    requires ValidConfig(cfg) && FirstBar(cfg) <= i < |candles| && LinesCover(lines, |candles|) && NonzeroCloses(candles)
    requires book.position.Some?
    ensures var p := book.position.value;
      var after := Bar(cfg, candles, lines, i, riskPerTrade, stopLossPct, book);
      (candles[i].low <= p.stop ==>
         after.trades[|after.trades| - 1].exit == p.stop && after.trades[|after.trades| - 1].reason == StopLoss) &&
      (candles[i].low > p.stop ==> (after.trades != book.trades <==> CrossDown(lines, i))) &&
      (candles[i].low > p.stop && CrossDown(lines, i) ==>
         after.trades[|after.trades| - 1].exit == candles[i].close &&
         after.trades[|after.trades| - 1].reason == SignalExit) &&
      (after.trades == book.trades ==> after == book) &&
      (after.trades != book.trades ==>
         var t := after.trades[|after.trades| - 1];
         |after.trades| == |book.trades| + 1 &&
         after.trades[..|book.trades|] == book.trades &&
         after.position.None? &&
         after.balance == p.qty * t.exit &&
         t.profit == after.balance - p.qty * p.entry &&
         t.balanceAfter == after.balance &&
         t.entry == p.entry)
  {
    var after := Bar(cfg, candles, lines, i, riskPerTrade, stopLossPct, book);
    if after.trades != book.trades {
      assert after.trades[..|book.trades|] == book.trades;
    }
  }
}
