/** The trend-following signal strategy that drives the long/short
    backtest: an EMA50/EMA200 trend filter, an SMA5/SMA8 momentum check and
    an ATR stop with a 0.3% floor; positions leave after 12 bars or when the
    opposite signal appears. */
module Strategy {
  import opened Series

  /** `{"side": ..., "stop": ...}`. */
  datatype Signal = Signal(side: Side, stop: real)

  /** What `exit_for_index` reads of an open position. */
  datatype Held = Held(side: Side, entryIndex: int)

  const MinBars: int := 20
  const FastPeriod: int := 50
  const SlowPeriod: int := 200
  const AtrPeriod: int := 14
  const StopFloorPct: real := 0.003
  const MaxHoldBars: int := 12

  /** `ema`: None while fewer than `period` values exist; otherwise the mean
      of the last `period` values, updated by `e := v*k + e*(1-k)` over
      those same values. */
  method Ema(values: seq<real>, period: int) returns (r: Option<real>)
    requires period > 0
    ensures r == EmaOrNone(values, period)
    ensures r.None? <==> |values| < period
  {
    if |values| < period {
      return None;
    }
    var k := 2.0 / (period + 1) as real;
    var w := values[|values| - period..];
    var emaVal := Sum(w) / period as real;
    for t := 0 to period
      invariant emaVal == EmaFold(Mean(w), w[..t], k)
    {
      assert w[..t + 1][..t] == w[..t];
      emaVal := w[t] * k + emaVal * (1.0 - k);
    }
    assert w[..period] == w;
    return Some(emaVal);
  }

  /** The value `simple_atr` computes: 0.0 before `period` bars, otherwise
      the mean of the last `period` true ranges. */
  function AtrValue(candles: seq<Candle>, i: int, period: int): real
    requires period > 0 && i < |candles|
  {
    if i < period then 0.0 else Mean(TrWindow(candles, i, period))
  }

  /** `simple_atr`: never negative, since every true range is at least 0. */
  method SimpleAtr(candles: seq<Candle>, i: int, period: int) returns (r: real)
    requires period > 0 && i < |candles|
    ensures r == AtrValue(candles, i, period)
    ensures r >= 0.0
    ensures i < period ==> r == 0.0
  {
    if i < period {
      return 0.0;
    }
    ghost var window := TrWindow(candles, i, period);
    var trs: seq<real> := [];
    for j := i - period + 1 to i + 1
      invariant trs == window[..j - (i - period + 1)]
    {
      var c := candles[j];
      var prev := if j - 1 >= 0 then candles[j - 1].close else c.close;
      var tr := Max(Max(c.high - c.low, Abs(c.high - prev)), Abs(c.low - prev));
      assert tr == window[j - (i - period + 1)];
      trs := trs + [tr];
    }
    assert trs == window;
    r := Sum(trs) / |trs| as real;
    MeanNonneg(window);
  }

  /** What a signal is decided from, at a bar with at least 200 closes. */
  datatype Snapshot = Snapshot(emaFast: real, emaSlow: real, sma5: real, sma8: real, atr: real, close: real)

  function TakeSnapshot(candles: seq<Candle>, i: int): Snapshot
    requires SlowPeriod - 1 <= i < |candles|
  {
    var close := Closes(candles[..i + 1]);
    Snapshot(SeededEma(close, FastPeriod), SeededEma(close, SlowPeriod),
             Sum(close[|close| - 5..]) / 5.0, Sum(close[|close| - 8..]) / 8.0,
             AtrValue(candles, i, AtrPeriod), candles[i].close)
  }

  /** `signal_for_index`. */
  function SignalForIndex(candles: seq<Candle>, i: int): Option<Signal>
    requires i < MinBars || i < |candles|
  {
    if i < MinBars then None
    else
      var close := Closes(candles[..i + 1]);
      var ema200 := EmaOrNone(close, SlowPeriod);
      var ema50 := EmaOrNone(close, FastPeriod);
      if ema200.None? || ema50.None? then None
      else
        var isUp := ema50.value > ema200.value;
        var isDown := ema50.value < ema200.value;
        var sma5 := Sum(close[|close| - 5..]) / 5.0;
        var sma8 := Sum(close[|close| - 8..]) / 8.0;
        var atr := AtrValue(candles, i, AtrPeriod);
        var entry := candles[i].close;
        if isUp && sma5 > sma8 then Some(Signal(Buy, entry - Max(atr * 1.0, entry * StopFloorPct)))
        else if isDown && sma5 < sma8 then Some(Signal(Sell, entry + Max(atr * 1.0, entry * StopFloorPct)))
        else None
  }

  /** No signal before bar 199: the 200-bar EMA needs 200 closes. */
  lemma NoSignalWithoutHistory(candles: seq<Candle>, i: int)
    requires i < |candles| && i < SlowPeriod - 1
    ensures SignalForIndex(candles, i).None?
  {
  }

  /** From bar 199 on: a buy exactly when the fast EMA is above the slow
      one and SMA5 above SMA8, a sell exactly when both are reversed, and
      the stop lies `max(atr, 0.3% of the close)` away from the close, on
      the losing side. */
  lemma SignalCharacterised(candles: seq<Candle>, i: int)
    requires SlowPeriod - 1 <= i < |candles|
    ensures var s := SignalForIndex(candles, i);
      var snap := TakeSnapshot(candles, i);
      var dist := Max(snap.atr, snap.close * StopFloorPct);
      (s.Some? && s.value.side == Buy <==> snap.emaFast > snap.emaSlow && snap.sma5 > snap.sma8) &&
      (s.Some? && s.value.side == Sell <==> snap.emaFast < snap.emaSlow && snap.sma5 < snap.sma8) &&
      (s.Some? && s.value.side == Buy ==> s.value.stop == snap.close - dist) &&
      (s.Some? && s.value.side == Sell ==> s.value.stop == snap.close + dist)
  {
    var close := Closes(candles[..i + 1]);
    assert |close| == i + 1;
  }

  /** The stop distance is at least the ATR and at least 0.3% of the
      close, so a buy stop is strictly below a positive close and a sell
      stop strictly above it. */
  lemma StopOnLosingSide(candles: seq<Candle>, i: int)
    requires SlowPeriod - 1 <= i < |candles| && candles[i].close > 0.0
    requires SignalForIndex(candles, i).Some?
    ensures var s := SignalForIndex(candles, i).value;
      var c := candles[i].close;
      var atr := AtrValue(candles, i, AtrPeriod);
      (s.side == Buy ==> s.stop <= c - atr && s.stop <= c - c * StopFloorPct && s.stop < c) &&
      (s.side == Sell ==> s.stop >= c + atr && s.stop >= c + c * StopFloorPct && s.stop > c)
  {
    SignalCharacterised(candles, i);
  }

  /** `exit_for_index`: a time exit once 12 bars are held, otherwise a flip
      when the opposite signal appears. */
  function ExitForIndex(candles: seq<Candle>, i: int, pos: Held): Option<ExitReason>
    requires i < MinBars || i < |candles|
  {
    var barsHeld := i - pos.entryIndex;
    if barsHeld >= MaxHoldBars then Some(TimeExit)
    else
      var s := SignalForIndex(candles, i);
      if s.Some? && s.value.side != pos.side then Some(Flip) else None
  }

  /** The time exit is checked first; before it, the position leaves by a
      flip exactly when a signal of the other side exists, and otherwise
      stays. No other reason is ever returned. */
  lemma ExitCharacterised(candles: seq<Candle>, i: int, pos: Held)
    requires i < MinBars || i < |candles|
    ensures i - pos.entryIndex >= MaxHoldBars ==> ExitForIndex(candles, i, pos) == Some(TimeExit)
    ensures i - pos.entryIndex < MaxHoldBars ==>
      (ExitForIndex(candles, i, pos) == Some(Flip) <==>
        SignalForIndex(candles, i).Some? && SignalForIndex(candles, i).value.side != pos.side)
    ensures i - pos.entryIndex < MaxHoldBars ==> ExitForIndex(candles, i, pos) != Some(TimeExit)
  {
  }
}
