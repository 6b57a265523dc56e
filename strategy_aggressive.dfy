/** The faster-growing variant of the signal strategy: the same trend and
    momentum filter from bar 60 on, a tighter ATR stop with a 0.2% floor, a
    take-profit 2.8 stop distances away, risk-based sizing capped at half the
    balance, and exits by take-profit, stop-loss, a 24-bar time limit or a
    flip. */
module StrategyAggressive {
  import opened Series

  const EmaFast: int := 50
  const EmaSlow: int := 200
  const AtrPeriod: int := 14
  const TpMult: real := 2.8
  const StopAtrMult: real := 0.8
  const RiskPerTrade: real := 0.02
  const MaxPositionPct: real := 0.5
  const MinBarsRequired: int := 60
  const MaxHoldBars: int := 24
  const StopFloorPct: real := 0.002

  /** `{"side", "entry", "stop", "take"}`. */
  datatype Signal = Signal(side: Side, entry: real, stop: real, take: real)

  /** An open position: a signal's levels and the bar it was entered on. */
  datatype Position = Position(side: Side, entry: real, stop: real, take: real, entryIndex: int)

  /** `{"price", "reason"}`. */
  datatype Exit = Exit(price: real, reason: ExitReason)

  /** `ema`: None while fewer than `period` values exist, otherwise the
      mean of the last `period` values updated by the recurrence over them. */
  method Ema(values: seq<real>, period: int) returns (r: Option<real>)
    requires period > 0
    ensures r == EmaOrNone(values, period)
    ensures r.None? <==> |values| < period
  {
    if |values| < period {
      return None;
    }
    var k := 2.0 / (period + 1) as real;
    var w := values[|values| - period..];
    var seed := Sum(w) / period as real;
    var e := seed;
    for t := 0 to period
      invariant e == EmaFold(Mean(w), w[..t], k)
    {
      assert w[..t + 1][..t] == w[..t];
      e := w[t] * k + e * (1.0 - k);
    }
    assert w[..period] == w;
    return Some(e);
  }

  /** The value `atr` computes: 0.0 before `period` bars and for a
      non-positive period (no true ranges), otherwise the mean of the last
      `period` true ranges. */
  function AtrValue(candles: seq<Candle>, idx: int, period: int): real
    requires idx < period || period <= 0 || idx < |candles|
  {
    if idx < period then 0.0
    else if period <= 0 then 0.0
    else Mean(TrWindow(candles, idx, period))
  }

  /** `atr`: never negative, and 0.0 before `period` bars. */
  method Atr(candles: seq<Candle>, idx: int, period: int) returns (r: real)
    requires idx < period || period <= 0 || idx < |candles|
    ensures r == AtrValue(candles, idx, period)
    ensures r >= 0.0
    ensures idx < period ==> r == 0.0
  {
    if idx < period {
      return 0.0;
    }
    var trs: seq<real> := [];
    var j := idx - period + 1;
    while j < idx + 1
      invariant period > 0 ==> idx - period + 1 <= j <= idx + 1 && trs == TrWindow(candles, idx, period)[..j - (idx - period + 1)]
      invariant period <= 0 ==> trs == []
    {
      var c := candles[j];
      var prev := if j - 1 >= 0 then candles[j - 1].close else c.close;
      var tr := Max(Max(c.high - c.low, Abs(c.high - prev)), Abs(c.low - prev));
      trs := trs + [tr];
      j := j + 1;
    }
    r := if |trs| > 0 then Sum(trs) / |trs| as real else 0.0;
    if period > 0 {
      assert trs == TrWindow(candles, idx, period);
      MeanNonneg(trs);
    }
  }

  /** `compute_position_size`: the risk amount over the stop distance,
      capped so the position is worth at most half the balance; 0.0 when
      entry and stop coincide. */
  function ComputePositionSize(balance: real, entryPrice: real, riskPerTrade: real, stopPrice: real): (size: real)
    ensures Abs(entryPrice - stopPrice) <= 0.0 ==> size == 0.0
    ensures Abs(entryPrice - stopPrice) > 0.0 ==> size <= balance * riskPerTrade / Abs(entryPrice - stopPrice)
    ensures entryPrice > 0.0 && Abs(entryPrice - stopPrice) > 0.0 ==> size * entryPrice <= balance * MaxPositionPct
  {
    var riskAmount := balance * riskPerTrade;
    var diff := Abs(entryPrice - stopPrice);
    if diff <= 0.0 then 0.0
    else
      var size := riskAmount / diff;
      var maxValue := balance * MaxPositionPct;
      if size * entryPrice > maxValue && entryPrice > 0.0 then
        CapBelow(size, entryPrice, maxValue);
        maxValue / entryPrice
      else size
  }

  /** Capping: `max_value / entry` is below a size whose value exceeds
      `max_value`, and is worth exactly `max_value`. */
  lemma CapBelow(size: real, entryPrice: real, maxValue: real)
    requires entryPrice > 0.0 && size * entryPrice > maxValue
    ensures maxValue / entryPrice < size
    ensures maxValue / entryPrice * entryPrice == maxValue
  {
    var q := maxValue / entryPrice;
    assert q * entryPrice == maxValue;
    assert q * entryPrice < size * entryPrice;
  }

  /** The distance from the close to the stop: `max(0.8*atr, 0.2% of
      the price)`. */
  function StopDistance(candles: seq<Candle>, i: int): real
    requires 0 <= i < |candles|
  {
    Max(AtrValue(candles, i, AtrPeriod) * StopAtrMult, candles[i].close * StopFloorPct)
  }

  /** `signal_for_index`. */
  function SignalForIndex(candles: seq<Candle>, i: int): Option<Signal>
    requires i < MinBarsRequired || i < |candles|
  {
    if i < MinBarsRequired then None
    else
      var closes := Closes(candles[..i + 1]);
      var emaF := EmaOrNone(closes, EmaFast);
      var emaS := EmaOrNone(closes, EmaSlow);
      if emaF.None? || emaS.None? then None
      else
        var isUp := emaF.value > emaS.value;
        var isDown := emaF.value < emaS.value;
        var sma5 := Sum(closes[|closes| - 5..]) / 5.0;
        var sma8 := Sum(closes[|closes| - 8..]) / 8.0;
        var price := candles[i].close;
        var currentAtr := AtrValue(candles, i, AtrPeriod);
        var stopDist := Max(currentAtr * StopAtrMult, price * StopFloorPct);
        if isUp && sma5 > sma8 then
          Some(Signal(Buy, price, price - stopDist, price + stopDist * TpMult))
        else if isDown && sma5 < sma8 then
          Some(Signal(Sell, price, price + stopDist, price - stopDist * TpMult))
        else None
  }

  /** No signal before bar 199: the 200-bar EMA needs 200 closes. */
  lemma NoSignalWithoutHistory(candles: seq<Candle>, i: int)
    requires i < |candles| && i < EmaSlow - 1
    ensures SignalForIndex(candles, i).None?
  {
  }

  /** Every signal enters at the close; the stop distance is at least 0.2%
      of the price; the take-profit lies 2.8 stop distances beyond the entry
      on the winning side; and for a positive price the stop and take-profit
      bracket the entry. */
  lemma SignalBrackets(candles: seq<Candle>, i: int)
    requires 0 <= i < |candles|
    requires SignalForIndex(candles, i).Some?
    ensures var s := SignalForIndex(candles, i).value;
      var d := StopDistance(candles, i);
      s.entry == candles[i].close &&
      d >= s.entry * StopFloorPct &&
      (s.side == Buy ==> s.entry - s.stop == d && s.take - s.entry == TpMult * (s.entry - s.stop)) &&
      (s.side == Sell ==> s.stop - s.entry == d && s.entry - s.take == TpMult * (s.stop - s.entry)) &&
      (s.entry > 0.0 && s.side == Buy ==> s.stop < s.entry < s.take) &&
      (s.entry > 0.0 && s.side == Sell ==> s.take < s.entry < s.stop)
  {
    var closes := Closes(candles[..i + 1]);
    assert |closes| == i + 1;
  }

  /** A buy exactly when the fast EMA is above the slow one and SMA5 above
      SMA8; a sell exactly when both are reversed. */
  lemma SignalSideCharacterised(candles: seq<Candle>, i: int)
    requires EmaSlow - 1 <= i < |candles|
    ensures var closes := Closes(candles[..i + 1]);
      var f := SeededEma(closes, EmaFast);
      var sl := SeededEma(closes, EmaSlow);
      var sma5 := Sum(closes[|closes| - 5..]) / 5.0;
      var sma8 := Sum(closes[|closes| - 8..]) / 8.0;
      var s := SignalForIndex(candles, i);
      (s.Some? && s.value.side == Buy <==> f > sl && sma5 > sma8) &&
      (s.Some? && s.value.side == Sell <==> f < sl && sma5 < sma8)
  {
    var closes := Closes(candles[..i + 1]);
    assert |closes| == i + 1;
  }

  /** `exit_for_index`: take-profit, then stop-loss (both filled at their
      own level and tested against the bar's range), then the time limit and
      the flip (both at the close). */
  function ExitForIndex(candles: seq<Candle>, i: int, pos: Option<Position>): Option<Exit>
    requires pos.None? || 0 <= i < |candles|
  {
    if pos.None? then None
    else
      var p := pos.value;
      var row := candles[i];
      if p.side == Buy && row.high >= p.take then Some(Exit(p.take, TakeProfit))
      else if p.side == Buy && row.low <= p.stop then Some(Exit(p.stop, StopLoss))
      else if p.side != Buy && row.low <= p.take then Some(Exit(p.take, TakeProfit))
      else if p.side != Buy && row.high >= p.stop then Some(Exit(p.stop, StopLoss))
      else if i - p.entryIndex >= MaxHoldBars then Some(Exit(row.close, TimeExit))
      else
        var s := SignalForIndex(candles, i);
        if s.Some? && s.value.side != p.side then Some(Exit(row.close, Flip)) else None
  }

  /** Whether the bar reaches the take-profit level of p. */
  predicate TakeHit(row: Candle, p: Position)
  {
    if p.side == Buy then row.high >= p.take else row.low <= p.take
  }

  /** Whether the bar reaches the stop level of p. */
  predicate StopHit(row: Candle, p: Position)
  {
    if p.side == Buy then row.low <= p.stop else row.high >= p.stop
  }

  /** The exit order: nothing without a position; a bar that reaches the
      take-profit exits there even when it also reaches the stop; the stop
      exits only when the take-profit was not reached; the time exit only
      when neither level was reached; the flip only after all three, and
      exactly when the opposite signal appears. */
  lemma ExitPrecedence(candles: seq<Candle>, i: int, pos: Option<Position>)
    requires pos.None? || 0 <= i < |candles|
    ensures pos.None? ==> ExitForIndex(candles, i, pos).None?
    ensures pos.Some? && TakeHit(candles[i], pos.value) ==>
      ExitForIndex(candles, i, pos) == Some(Exit(pos.value.take, TakeProfit))
    ensures pos.Some? && !TakeHit(candles[i], pos.value) && StopHit(candles[i], pos.value) ==>
      ExitForIndex(candles, i, pos) == Some(Exit(pos.value.stop, StopLoss))
    ensures pos.Some? && !TakeHit(candles[i], pos.value) && !StopHit(candles[i], pos.value) ==>
      (ExitForIndex(candles, i, pos) == Some(Exit(candles[i].close, TimeExit)) <==> i - pos.value.entryIndex >= MaxHoldBars)
    ensures pos.Some? && !TakeHit(candles[i], pos.value) && !StopHit(candles[i], pos.value) && i - pos.value.entryIndex < MaxHoldBars ==>
      (ExitForIndex(candles, i, pos) == Some(Exit(candles[i].close, Flip)) <==>
        SignalForIndex(candles, i).Some? && SignalForIndex(candles, i).value.side != pos.value.side)
  {
  }
}
