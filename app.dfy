/** The web application's backtest: a long/short replay of the trend
    strategy with risk-based sizing capped at a share of the balance,
    stop-losses checked before the strategy's own exits, and additive
    profit and loss. */
module App {
  import opened Series
  import Strategy

  /** `max_position_pct`'s default. */
  const MaxPositionPct: real := 0.5

  /** The `pos` dict. */
  datatype Position = Position(side: Side, entryIndex: int, entryPrice: real, stop: real, qty: real,
                               balanceAtEntry: real)

  /** The loop's state between bars. */
  datatype Book = Book(balance: real, pos: Option<Position>, trades: seq<Trade>)

  datatype BacktestResult = BacktestResult(startBalance: real, endBalance: real, trades: seq<Trade>)

  // ------------------------------------------------------------- sizing

  /** `safe_position_size`: the risk amount over the stop distance, but no
      more than `max_position_pct` of the balance in value, and never
      negative. */
  function SafePositionSize(balance: real, entryPrice: real, slPrice: real, riskPerTrade: real,
                            maxPositionPct: real): (qty: real)
    ensures qty >= 0.0
    ensures Abs(entryPrice - slPrice) <= 0.0 ==> qty == 0.0
    ensures entryPrice <= 0.0 ==> qty == 0.0
    ensures qty > 0.0 ==> qty <= balance * riskPerTrade / Abs(entryPrice - slPrice)
    ensures qty > 0.0 ==> qty * entryPrice <= balance * maxPositionPct
  {
    var riskAmount := balance * riskPerTrade;
    var stopDist := Abs(entryPrice - slPrice);
    if stopDist <= 0.0 then 0.0
    else
      var qtyByRisk := riskAmount / stopDist;
      var maxPositionValue := balance * maxPositionPct;
      var qtyByValue := if entryPrice > 0.0 then maxPositionValue / entryPrice else 0.0;
      var qty := Min(qtyByRisk, qtyByValue);
      if qty > 0.0 && entryPrice > 0.0 then
        ValueCap(qty, entryPrice, maxPositionValue);
        Max(qty, 0.0)
      else Max(qty, 0.0)
  }

  /** A quantity at most `value / price` is worth at most `value`. */
  lemma ValueCap(qty: real, price: real, value: real)
    requires price > 0.0 && qty <= value / price
    ensures qty * price <= value
  {
    assert value / price * price == value;
    assert qty * price <= value / price * price;
  }

  /** With a non-negative balance and risk the quantity never exceeds the
      risk amount over the stop distance. */
  lemma SizeWithinRisk(balance: real, entryPrice: real, slPrice: real, riskPerTrade: real,
                       maxPositionPct: real)
    requires balance >= 0.0 && riskPerTrade >= 0.0 && Abs(entryPrice - slPrice) > 0.0
    ensures SafePositionSize(balance, entryPrice, slPrice, riskPerTrade, maxPositionPct)
            <= balance * riskPerTrade / Abs(entryPrice - slPrice)
  {
    DivNonneg(balance * riskPerTrade, Abs(entryPrice - slPrice));
  }

  // ------------------------------------------------------------- replay

  /** Profit and loss of closing p at `exitPrice`: long positions gain
      when the price rises, short positions when it falls. */
  function Pnl(p: Position, exitPrice: real): real
  {
    if p.side == Buy then (exitPrice - p.entryPrice) * p.qty else (p.entryPrice - exitPrice) * p.qty
  }

  /** For a positive quantity the trade wins exactly when the price moved
      the position's way. */
  lemma PnlSign(p: Position, exitPrice: real)
    requires p.qty > 0.0
    ensures p.side == Buy ==> (Pnl(p, exitPrice) > 0.0 <==> exitPrice > p.entryPrice)
    ensures p.side == Sell ==> (Pnl(p, exitPrice) > 0.0 <==> exitPrice < p.entryPrice)
    ensures Pnl(p, exitPrice) == 0.0 <==> exitPrice == p.entryPrice
  {
    if p.side == Buy {
      SignOfProduct(exitPrice - p.entryPrice, p.qty);
    } else {
      SignOfProduct(p.entryPrice - exitPrice, p.qty);
    }
  }

  lemma SignOfProduct(d: real, q: real)
    requires q > 0.0
    ensures d * q > 0.0 <==> d > 0.0
    ensures d * q == 0.0 <==> d == 0.0
  {
    if d > 0.0 {
      assert d * q > 0.0;
    } else if d < 0.0 {
      assert (-d) * q > 0.0;
    }
  }

  /** Where and why an open position leaves on bar i: a stop-loss at the
      stop when the bar's range reaches it, otherwise the strategy's exit
      at the close, otherwise nowhere. */
  function ExitDecision(candles: seq<Candle>, i: int, p: Position): Option<(real, ExitReason)>
    requires 0 <= i < |candles|
  {
    var row := candles[i];
    if p.side == Buy && row.low <= p.stop then Some((p.stop, StopLoss))
    else if p.side == Sell && row.high >= p.stop then Some((p.stop, StopLoss))
    else
      var s2 := Strategy.ExitForIndex(candles, i, Strategy.Held(p.side, p.entryIndex));
      if s2.Some? then Some((row.close, s2.value)) else None
  }

  /** The exit half of a bar: close the open position, if ExitDecision
      says so, adding its profit to the balance and logging one trade. */
  function Manage(candles: seq<Candle>, i: int, book: Book): Book
    requires 0 <= i < |candles|
  {
    if book.pos.None? then book
    else
      var p := book.pos.value;
      var d := ExitDecision(candles, i, p);
      if d.None? then book
      else
        var pnl := Pnl(p, d.value.0);
        var balance := book.balance + pnl;
        Book(balance, None, book.trades + [Trade(candles[i].time, p.entryPrice, d.value.0, pnl, balance, d.value.1)])
  }

  /** One bar of `run_backtest`: a flat book opens on a buy or sell signal
      at the close with the signal's stop, unless the size is not positive,
      in which case the bar ends there; then the exit half runs. */
  function Bar(candles: seq<Candle>, i: int, riskPerTrade: real, book: Book): Book
    requires 0 <= i < |candles|
  {
    var signal := Strategy.SignalForIndex(candles, i);
    if book.pos.None? && signal.Some? then
      var entry := candles[i].close;
      var sl := signal.value.stop;
      var qty := SafePositionSize(book.balance, entry, sl, riskPerTrade, MaxPositionPct);
      if qty <= 0.0 then book
      else Manage(candles, i, book.(pos := Some(Position(signal.value.side, i, entry, sl, qty, book.balance))))
    else Manage(candles, i, book)
  }

  /** The book after bars 0 .. hi - 1. */
  function Replay(candles: seq<Candle>, hi: int, riskPerTrade: real, initialBalance: real): Book
    requires 0 <= hi <= |candles|
  {
    if hi == 0 then Book(initialBalance, None, [])
    else Bar(candles, hi - 1, riskPerTrade, Replay(candles, hi - 1, riskPerTrade, initialBalance))
  }

  /** Python's `sum(t["profit"] for t in trades)`. */
  function SumProfits(trades: seq<Trade>): real
  {
    if trades == [] then 0.0 else SumProfits(trades[..|trades| - 1]) + trades[|trades| - 1].profit
  }

  /** `run_backtest`: the end balance is the start balance plus every
      trade's profit, and every trade's `balance_after` is the start
      balance plus the profits up to and including it. */
  method RunBacktest(candles: seq<Candle>, initialBalance: real, riskPerTrade: real, stopAtrMult: real)
    returns (res: BacktestResult)
    ensures var b := Replay(candles, |candles|, riskPerTrade, initialBalance);
      res == BacktestResult(initialBalance, b.balance, b.trades)
    ensures res.endBalance == res.startBalance + SumProfits(res.trades)
    ensures forall t :: 0 <= t < |res.trades| ==>
      res.trades[t].balanceAfter == initialBalance + SumProfits(res.trades[..t + 1])
  {
    var balance := initialBalance;
    var trades: seq<Trade> := [];
    var pos: Option<Position> := None;
    for i := 0 to |candles|
      invariant Book(balance, pos, trades) == Replay(candles, i, riskPerTrade, initialBalance)
    {
      ghost var before := Book(balance, pos, trades);
      assert Replay(candles, i + 1, riskPerTrade, initialBalance) == Bar(candles, i, riskPerTrade, before);
      var row := candles[i];
      var signal := Strategy.SignalForIndex(candles, i);
      if pos.None? && signal.Some? {
        var entry := row.close;
        var sl := signal.value.stop;
        var qty := SafePositionSize(balance, entry, sl, riskPerTrade, MaxPositionPct);
        if qty <= 0.0 {
          assert Bar(candles, i, riskPerTrade, before) == before;
          continue;
        }
        pos := Some(Position(signal.value.side, i, entry, sl, qty, balance));
      }
      ghost var entered := Book(balance, pos, trades);
      assert Bar(candles, i, riskPerTrade, before) == Manage(candles, i, entered);
      if pos.Some? {
        balance, pos, trades := ExitBar(candles, i, balance, pos.value, trades);
      }
    }
    res := BacktestResult(initialBalance, balance, trades);
    ReplayAdditive(candles, |candles|, riskPerTrade, initialBalance);
  }

  /** The exit half of one bar of `run_backtest` for an open position. */
  method ExitBar(candles: seq<Candle>, i: int, balance: real, p: Position, trades: seq<Trade>)
    returns (balance': real, pos': Option<Position>, trades': seq<Trade>)
    requires 0 <= i < |candles|
    ensures Book(balance', pos', trades') == Manage(candles, i, Book(balance, Some(p), trades))
  {
    var row := candles[i];
    var shouldClose := false;
    var exitPrice := 0.0;
    var exitReason := StopLoss;
    if p.side == Buy && row.low <= p.stop {
      shouldClose, exitPrice, exitReason := true, p.stop, StopLoss;
    } else if p.side == Sell && row.high >= p.stop {
      shouldClose, exitPrice, exitReason := true, p.stop, StopLoss;
    } else {
      var s2 := Strategy.ExitForIndex(candles, i, Strategy.Held(p.side, p.entryIndex));
      if s2.Some? {
        shouldClose, exitPrice, exitReason := true, row.close, s2.value;
      }
    }
    assert shouldClose <==> ExitDecision(candles, i, p).Some?;
    assert shouldClose ==> ExitDecision(candles, i, p).value == (exitPrice, exitReason);
    balance', pos', trades' := balance, Some(p), trades;
    if shouldClose {
      var pnl := if p.side == Buy then (exitPrice - p.entryPrice) * p.qty else (p.entryPrice - exitPrice) * p.qty;
      balance' := balance + pnl;
      trades' := trades + [Trade(row.time, p.entryPrice, exitPrice, pnl, balance', exitReason)];
      pos' := None;
    }
  }

  // ------------------------------------------------------------- lemmas

  /** The ledger: the balance is the start balance plus the profits so
      far, and each trade's `balance_after` is the start balance plus the
      profits up to it. */
  predicate Additive(b: Book, initialBalance: real)
  {
    b.balance == initialBalance + SumProfits(b.trades) &&
    forall t :: 0 <= t < |b.trades| ==> b.trades[t].balanceAfter == initialBalance + SumProfits(b.trades[..t + 1])
  }

  lemma ManageAdditive(candles: seq<Candle>, i: int, book: Book, initialBalance: real)
    requires 0 <= i < |candles| && Additive(book, initialBalance)
    ensures Additive(Manage(candles, i, book), initialBalance)
  {
    var after := Manage(candles, i, book);
    if after.trades != book.trades {
      var n := |book.trades|;
      assert after.trades[..n] == book.trades;
      assert after.trades[..n + 1] == after.trades;
      assert SumProfits(after.trades) == SumProfits(book.trades) + after.trades[n].profit;
      forall t | 0 <= t < |after.trades|
        ensures after.trades[t].balanceAfter == initialBalance + SumProfits(after.trades[..t + 1])
      {
        if t < n {
          assert after.trades[..t + 1] == book.trades[..t + 1];
        }
      }
    }
  }

  lemma {:induction false} ReplayAdditive(candles: seq<Candle>, hi: int, riskPerTrade: real, initialBalance: real)
    requires 0 <= hi <= |candles|
    ensures Additive(Replay(candles, hi, riskPerTrade, initialBalance), initialBalance)
  {
    if hi > 0 {
      var i := hi - 1;
      var book := Replay(candles, i, riskPerTrade, initialBalance);
      ReplayAdditive(candles, i, riskPerTrade, initialBalance);
      var signal := Strategy.SignalForIndex(candles, i);
      if book.pos.None? && signal.Some? {
        var qty := SafePositionSize(book.balance, candles[i].close, signal.value.stop, riskPerTrade, MaxPositionPct);
        if qty > 0.0 {
          ManageAdditive(candles, i, book.(pos := Some(Position(signal.value.side, i, candles[i].close, signal.value.stop, qty, book.balance))), initialBalance);
        }
      } else {
        ManageAdditive(candles, i, book, initialBalance);
      }
    }
  }

  /** A bar that ends with a position it did not start with opened it on
      a signal, while flat, with a positive size from SafePositionSize, at
      the close, with the signal's side and stop. A flat bar whose signal
      gives no positive size changes nothing. */
  lemma EntryRules(candles: seq<Candle>, i: int, riskPerTrade: real, book: Book)
    requires 0 <= i < |candles| && book.pos.None?
    ensures var after := Bar(candles, i, riskPerTrade, book);
      var signal := Strategy.SignalForIndex(candles, i);
      after.pos.Some? ==>
        signal.Some? &&
        after.pos.value == Position(signal.value.side, i, candles[i].close, signal.value.stop,
                                    SafePositionSize(book.balance, candles[i].close, signal.value.stop, riskPerTrade, MaxPositionPct),
                                    book.balance) &&
        after.pos.value.qty > 0.0
    ensures var signal := Strategy.SignalForIndex(candles, i);
      signal.None? ==> Bar(candles, i, riskPerTrade, book) == book
    ensures var signal := Strategy.SignalForIndex(candles, i);
      signal.Some? && SafePositionSize(book.balance, candles[i].close, signal.value.stop, riskPerTrade, MaxPositionPct) <= 0.0 ==>
        Bar(candles, i, riskPerTrade, book) == book
  {
  }

  /** The stop is checked before the strategy: a long whose bar's low
      reaches the stop, or a short whose bar's high reaches it, leaves at
      the stop price as a stop-loss whatever the strategy says; otherwise
      any exit is the strategy's, at the close. */
  lemma StopBeforeStrategy(candles: seq<Candle>, i: int, p: Position)
    requires 0 <= i < |candles|
    ensures p.side == Buy && candles[i].low <= p.stop ==> ExitDecision(candles, i, p) == Some((p.stop, StopLoss))
    ensures p.side == Sell && candles[i].high >= p.stop ==> ExitDecision(candles, i, p) == Some((p.stop, StopLoss))
    ensures !(p.side == Buy && candles[i].low <= p.stop) && !(p.side == Sell && candles[i].high >= p.stop) ==>
      var s2 := Strategy.ExitForIndex(candles, i, Strategy.Held(p.side, p.entryIndex));
      (ExitDecision(candles, i, p).Some? <==> s2.Some?) &&
      (s2.Some? ==> ExitDecision(candles, i, p) == Some((candles[i].close, s2.value)))
  {
  }

  /** A bar appends at most one trade. When it does, the position is gone
      afterwards, the trade's profit is Pnl of the position held at its
      exit price, the balance grew by exactly that profit, and
      `balance_after` is the new balance. Without a trade the balance is
      unchanged. */
  lemma OneTradePerClose(candles: seq<Candle>, i: int, riskPerTrade: real, book: Book)
    requires 0 <= i < |candles|
    ensures var after := Bar(candles, i, riskPerTrade, book);
      after.trades == book.trades || (|after.trades| == |book.trades| + 1 && after.trades[..|book.trades|] == book.trades)
    ensures var after := Bar(candles, i, riskPerTrade, book);
      after.trades == book.trades ==> after.balance == book.balance
    ensures var after := Bar(candles, i, riskPerTrade, book);
      var signal := Strategy.SignalForIndex(candles, i);
      var held := if book.pos.Some? then book.pos.value
                  else if signal.None? then Position(Buy, i, 0.0, 0.0, 0.0, book.balance)
                  else Position(signal.value.side, i, candles[i].close, signal.value.stop,
                                SafePositionSize(book.balance, candles[i].close, signal.value.stop, riskPerTrade, MaxPositionPct),
                                book.balance);
      after.trades != book.trades ==>
        var t := after.trades[|after.trades| - 1];
        after.pos.None? &&
        t.entry == held.entryPrice &&
        t.profit == Pnl(held, t.exit) &&
        after.balance == book.balance + t.profit &&
        t.balanceAfter == after.balance
  {
    var after := Bar(candles, i, riskPerTrade, book);
    var signal := Strategy.SignalForIndex(candles, i);
    if book.pos.None? && signal.Some? {
      var qty := SafePositionSize(book.balance, candles[i].close, signal.value.stop, riskPerTrade, MaxPositionPct);
      if qty > 0.0 {
        var entered := book.(pos := Some(Position(signal.value.side, i, candles[i].close, signal.value.stop, qty, book.balance)));
        assert after == Manage(candles, i, entered);
      }
    }
  }
}
