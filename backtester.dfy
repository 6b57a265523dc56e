/** The nearest-neighbour backtester: a direction classifier that scores
    earlier bars by a Lorentzian distance over RSI, ADX and CCI and lets the
    k nearest vote with the sign of their own 4-bar-ahead return, and a
    long-only compounding replay driven by that vote.

    `math.log` is not modelled as IEEE arithmetic: the distance takes the
    logarithm as a parameter `ln`, and the facts that need it assume only
    that it is 0 at 1 and monotone from 1 on (`LogLike`). */
module KnnBacktest {
  import opened Series

  ghost predicate LogLike(ln: real -> real)
  {
    ln(1.0) == 0.0 && forall x, y :: 1.0 <= x <= y ==> ln(x) <= ln(y)
  }

  // ------------------------------------------------------------ distance

  predicate FeaturesCover(features: seq<seq<real>>, i: int, j: int)
  {
    0 <= i && 0 <= j && forall f :: 0 <= f < |features| ==> i < |features[f]| && j < |features[f]|
  }

  /** `sum(log(1 + |f[i] - f[j]|) for f in features)`, accumulated in order. */
  function FeatureDistance(features: seq<seq<real>>, i: int, j: int, ln: real -> real): real
    requires FeaturesCover(features, i, j)
  {
    if features == [] then 0.0
    else
      var f := features[|features| - 1];
      FeatureDistance(features[..|features| - 1], i, j, ln) + ln(1.0 + Abs(f[i] - f[j]))
  }

  lemma {:induction false} DistanceNonneg(features: seq<seq<real>>, i: int, j: int, ln: real -> real)
    requires FeaturesCover(features, i, j) && LogLike(ln)
    ensures FeatureDistance(features, i, j, ln) >= 0.0
  {
    if features != [] {
      var f := features[|features| - 1];
      DistanceNonneg(features[..|features| - 1], i, j, ln);
      assert ln(1.0) <= ln(1.0 + Abs(f[i] - f[j]));
    }
  }

  lemma {:induction false} DistanceToSelfIsZero(features: seq<seq<real>>, i: int, ln: real -> real)
    requires FeaturesCover(features, i, i) && ln(1.0) == 0.0
    ensures FeatureDistance(features, i, i, ln) == 0.0
  {
    if features != [] {
      DistanceToSelfIsZero(features[..|features| - 1], i, ln);
    }
  }

  lemma {:induction false} DistanceSymmetric(features: seq<seq<real>>, i: int, j: int, ln: real -> real)
    requires FeaturesCover(features, i, j)
    ensures FeaturesCover(features, j, i)
    ensures FeatureDistance(features, i, j, ln) == FeatureDistance(features, j, i, ln)
  {
    if features != [] {
      var f := features[|features| - 1];
      DistanceSymmetric(features[..|features| - 1], i, j, ln);
      assert Abs(f[i] - f[j]) == Abs(f[j] - f[i]);
    }
  }

  // -------------------------------------------------------- stable sort

  /** A candidate neighbour: (distance, bar index). */
  type Scored = (real, nat)

  predicate SortedByDistance(s: seq<Scored>)
  {
    forall a, b :: 0 <= a < b < |s| ==> s[a].0 <= s[b].0
  }

  predicate IndexAscending(s: seq<Scored>)
  {
    forall a, b :: 0 <= a < b < |s| ==> s[a].1 < s[b].1
  }

  /** p comes first: nearer, or as near and earlier. */
  predicate Precedes(p: Scored, q: Scored)
  {
    p.0 < q.0 || (p.0 == q.0 && p.1 < q.1)
  }

  /** Sorted by distance, ties broken by the smaller index. */
  predicate SortedThenByIndex(s: seq<Scored>)
  {
    forall a, b :: 0 <= a < b < |s| ==> Precedes(s[a], s[b])
  }

  lemma ConsSortedThenByIndex(h: Scored, rest: seq<Scored>)
    requires SortedThenByIndex(rest)
    requires forall t :: 0 <= t < |rest| ==> Precedes(h, rest[t])
    ensures SortedThenByIndex([h] + rest)
  {
    var r := [h] + rest;
    forall a, b | 0 <= a < b < |r|
      ensures Precedes(r[a], r[b])
    {
      assert r[b] == rest[b - 1];
      if a > 0 {
        assert r[a] == rest[a - 1];
      }
    }
  }

  /** Inserts x after every element whose distance is not larger. */
  function InsertByDistance(s: seq<Scored>, x: Scored): (r: seq<Scored>)
    ensures |r| == |s| + 1
  {
    if s == [] then [x]
    else if x.0 < s[0].0 then [x] + s
    else [s[0]] + InsertByDistance(s[1..], x)
  }

  lemma {:induction false} InsertIsPermutation(s: seq<Scored>, x: Scored)
    ensures multiset(InsertByDistance(s, x)) == multiset(s) + multiset{x}
  {
    if s != [] && !(x.0 < s[0].0) {
      InsertIsPermutation(s[1..], x);
      assert s == [s[0]] + s[1..];
    }
  }

  lemma {:induction false} InsertKeepsSorted(s: seq<Scored>, x: Scored)
    requires SortedByDistance(s)
    ensures SortedByDistance(InsertByDistance(s, x))
  {
    if s != [] && !(x.0 < s[0].0) {
      InsertKeepsSorted(s[1..], x);
      var rest := InsertByDistance(s[1..], x);
      HeadBelowInsert(s, x);
      var r := [s[0]] + rest;
      forall a, b | 0 <= a < b < |r|
        ensures r[a].0 <= r[b].0
      {
        assert r[b] == rest[b - 1];
        if a > 0 {
          assert r[a] == rest[a - 1];
        }
      }
    }
  }

  /** When x does not go in front, the head of a sorted list is no farther
      than anything the insertion into its tail produces. */
  lemma HeadBelowInsert(s: seq<Scored>, x: Scored)
    requires SortedByDistance(s) && s != [] && !(x.0 < s[0].0)
    ensures forall t :: 0 <= t < |InsertByDistance(s[1..], x)| ==> s[0].0 <= InsertByDistance(s[1..], x)[t].0
  {
    var rest := InsertByDistance(s[1..], x);
    InsertIsPermutation(s[1..], x);
    forall t | 0 <= t < |rest|
      ensures s[0].0 <= rest[t].0
    {
      assert rest[t] in multiset(s[1..]) + multiset{x};
      if rest[t] != x {
        var c :| 0 <= c < |s[1..]| && s[1..][c] == rest[t];
        assert s[c + 1] == rest[t];
      }
    }
  }

  /** With x's index above every index in s, insertion keeps ties ordered
      by index: the stability of the sort. */
  lemma {:induction false} InsertKeepsTieOrder(s: seq<Scored>, x: Scored)
    requires SortedThenByIndex(s)
    requires forall e :: e in s ==> e.1 < x.1
    ensures SortedThenByIndex(InsertByDistance(s, x))
  {
    if s == [] {
    } else if x.0 < s[0].0 {
      forall t | 0 <= t < |s|
        ensures Precedes(x, s[t])
      {
        if t > 0 {
          assert Precedes(s[0], s[t]);
        }
      }
      ConsSortedThenByIndex(x, s);
    } else {
      assert forall e :: e in s[1..] ==> e in s;
      assert SortedThenByIndex(s[1..]) by {
        forall a, b | 0 <= a < b < |s| - 1
          ensures Precedes(s[1..][a], s[1..][b])
        {
          assert s[1..][a] == s[a + 1] && s[1..][b] == s[b + 1];
        }
      }
      InsertKeepsTieOrder(s[1..], x);
      InsertIsPermutation(s[1..], x);
      var rest := InsertByDistance(s[1..], x);
      forall t | 0 <= t < |rest|
        ensures Precedes(s[0], rest[t])
      {
        assert rest[t] in multiset(s[1..]) + multiset{x};
        if rest[t] != x {
          var c :| 0 <= c < |s[1..]| && s[1..][c] == rest[t];
          assert s[c + 1] == rest[t];
        } else {
          assert s[0] in s;
        }
      }
      ConsSortedThenByIndex(s[0], rest);
    }
  }

  /** `distances.sort(key=lambda x: x[0])` as a stable insertion sort:
      a permutation (here), ordered by distance (SortIsSorted), and equal
      distances keep their original order (SortIsStable). */
  function SortByDistance(s: seq<Scored>): (r: seq<Scored>)
    ensures |r| == |s|
  {
    if s == [] then []
    else InsertByDistance(SortByDistance(s[..|s| - 1]), s[|s| - 1])
  }

  lemma {:induction false} SortIsPermutation(s: seq<Scored>)
    ensures multiset(SortByDistance(s)) == multiset(s)
  {
    if s != [] {
      SortIsPermutation(s[..|s| - 1]);
      InsertIsPermutation(SortByDistance(s[..|s| - 1]), s[|s| - 1]);
      assert s == s[..|s| - 1] + [s[|s| - 1]];
    }
  }

  lemma {:induction false} SortIsSorted(s: seq<Scored>)
    ensures SortedByDistance(SortByDistance(s))
  {
    if s != [] {
      SortIsSorted(s[..|s| - 1]);
      InsertKeepsSorted(SortByDistance(s[..|s| - 1]), s[|s| - 1]);
    }
  }

  /** For candidates listed in ascending index order, the sort breaks
      distance ties by the smaller index: Python's sort is stable. */
  lemma {:induction false} SortIsStable(s: seq<Scored>)
    requires IndexAscending(s)
    ensures SortedThenByIndex(SortByDistance(s))
  {
    if s != [] {
      var init := s[..|s| - 1];
      var x := s[|s| - 1];
      var sortedInit := SortByDistance(init);
      SortIsStable(init);
      SortIsPermutation(init);
      assert s == init + [x];
      forall e | e in sortedInit
        ensures e.1 < x.1
      {
        assert e in multiset(init);
        var u :| 0 <= u < |init| && init[u] == e;
      }
      InsertKeepsTieOrder(sortedInit, x);
    }
  }

  /** Sorting moves elements but keeps every index inside the range the
      candidates came from. */
  lemma SortKeepsIndexRange(s: seq<Scored>, lo: int, hi: int)
    requires forall t :: 0 <= t < |s| ==> lo <= s[t].1 < hi
    ensures forall t :: 0 <= t < |SortByDistance(s)| ==> lo <= SortByDistance(s)[t].1 < hi
  {
    var r := SortByDistance(s);
    SortIsPermutation(s);
    forall t | 0 <= t < |r|
      ensures lo <= r[t].1 < hi
    {
      assert r[t] in multiset(s);
      var u :| 0 <= u < |s| && s[u] == r[t];
    }
  }

  // ------------------------------------------------------------- voting

  /** Python's `s[:m]`: a negative m counts from the end. */
  function PyPrefix<T>(s: seq<T>, m: int): (r: seq<T>)
    ensures |r| <= |s| && r == s[..|r|]
    ensures m >= 0 ==> |r| == MinInt(m, |s|)
  {
    if m >= 0 then s[..MinInt(m, |s|)] else s[..MaxInt(0, |s| + m)]
  }

  function SignOf(x: real): int
  {
    if x > 0.0 then 1 else if x < 0.0 then -1 else 0
  }

  function SignOfInt(x: int): int
  {
    if x > 0 then 1 else if x < 0 then -1 else 0
  }

  /** The first bar the replay processes. */
  const WarmUp: int := 50

  /** The votes bars 0 .. hi - 1 see: `vote(i)` from WarmUp on, 0 before. */
  function Tabulate(hi: int, vote: int --> int): (v: seq<int>)
    requires forall i :: WarmUp <= i < hi ==> vote.requires(i)
    ensures |v| == MaxInt(0, hi)
    decreases hi
  {
    if hi <= 0 then [] else Tabulate(hi - 1, vote) + [if hi - 1 < WarmUp then 0 else vote(hi - 1)]
  }

  lemma {:induction false} TabulateAt(hi: int, vote: int --> int, i: int)
    requires forall j :: WarmUp <= j < hi ==> vote.requires(j)
    requires WarmUp <= i < hi
    ensures Tabulate(hi, vote)[i] == vote(i)
  {
    if i < hi - 1 {
      TabulateAt(hi - 1, vote, i);
    }
  }

  datatype LongPosition = LongPosition(entryPrice: real, qty: real, stopPrice: real, entryIndex: int)

  datatype EquityPoint = EquityPoint(time: int, equity: real)

  /** The `stats` dict; `profitUsd` is unrounded. */
  datatype Stats = Stats(trades: nat, wins: nat, losses: nat, profitUsd: real)

  datatype RunResult = RunResult(initialBalance: real, finalBalance: real, trades: seq<Trade>,
                                 stats: Stats, equity: seq<EquityPoint>)

  /** The replay's mutable state between bars. */
  datatype Book = Book(balance: real, position: Option<LongPosition>, trades: seq<Trade>,
                       equity: seq<EquityPoint>, stats: Stats)

  class Backtester {
    const candles: seq<Candle>
    const ind: IndicatorSet
    const k: int
    const lookback: int
    const stopAtrMult: real
    const riskPct: real
    const initialBalance: real

    constructor (candles: seq<Candle>, indicators: IndicatorSet, k: int, lookback: int,
                 stopAtrMult: real, riskPct: real, initialBalance: real)
      ensures this.candles == candles && this.ind == indicators
      ensures this.k == k && this.lookback == lookback
      ensures this.stopAtrMult == stopAtrMult && this.riskPct == riskPct
      ensures this.initialBalance == initialBalance
    {
      this.candles := candles;
      this.ind := indicators;
      this.k := k;
      this.lookback := lookback;
      this.stopAtrMult := stopAtrMult;
      this.riskPct := riskPct;
      this.initialBalance := initialBalance;
    }

    /** `lorentzian_distance`: one term per feature series. */
    method LorentzianDistance(i: int, j: int, features: seq<seq<real>>, ln: real -> real) returns (s: real)
      requires FeaturesCover(features, i, j)
      ensures s == FeatureDistance(features, i, j, ln)
    {
      s := 0.0;
      for f := 0 to |features|
        invariant s == FeatureDistance(features[..f], i, j, ln)
      {
        var a := features[f][i];
        var b := features[f][j];
        assert features[..f + 1][..f] == features[..f];
        s := s + ln(1.0 + Abs(a - b));
      }
      assert features[..|features|] == features;
    }

    /** The classifier's features, in the order the source lists them. */
    function Features(): seq<seq<real>>
    {
      [ind.rsi, ind.adx, ind.cci]
    }

    /** What `predict_knn(idx)` may read. */
    predicate CanPredict(idx: int)
    {
      0 <= idx <= |candles| && idx < |ind.rsi| && idx < |ind.adx| && idx < |ind.cci|
    }

    function WindowStart(idx: int): int
    {
      MaxInt(0, idx - lookback)
    }

    /** Every bar j with `max(0, idx - lookback) <= j < idx`, scored by its
        distance to idx, in ascending order of j. */
    function Candidates(idx: int, ln: real -> real): (c: seq<Scored>)
      requires CanPredict(idx)
      ensures |c| == MaxInt(0, idx - WindowStart(idx))
    {
      var start := WindowStart(idx);
      seq(MaxInt(0, idx - start), t requires 0 <= t < MaxInt(0, idx - start) =>
        (FeatureDistance(Features(), idx, start + t, ln), start + t))
    }

    /** The candidates are exactly the bars of the lookback window before
        idx, each once, in ascending order, each scored by its distance. */
    lemma CandidatesAreWindow(idx: int, ln: real -> real)
      requires CanPredict(idx)
      ensures var c := Candidates(idx, ln);
        (forall t :: 0 <= t < |c| ==> c[t] == (FeatureDistance(Features(), idx, WindowStart(idx) + t, ln), WindowStart(idx) + t)) &&
        (forall t :: 0 <= t < |c| ==> WindowStart(idx) <= c[t].1 < idx) &&
        IndexAscending(c)
    {
    }

    /** The vote of neighbour j: the sign of the close 4 bars after j, or 0
        when that bar does not exist. Relative to the neighbour only. */
    function Label(j: nat): (v: int)
      ensures -1 <= v <= 1
      ensures j + 4 >= |candles| ==> v == 0
      ensures j + 4 < |candles| ==> (v == 0 <==> candles[j + 4].close == candles[j].close)
      ensures j + 4 < |candles| ==> (v == 1 <==> candles[j + 4].close > candles[j].close)
    {
      if j + 4 < |candles| then SignOf(candles[j + 4].close - candles[j].close) else 0
    }

    function VoteSum(vs: seq<Scored>): int
    {
      if vs == [] then 0 else VoteSum(vs[..|vs| - 1]) + Label(vs[|vs| - 1].1)
    }

    /** Each neighbour moves the vote by at most one. */
    lemma {:induction false} VoteSumBounded(vs: seq<Scored>)
      ensures -|vs| <= VoteSum(vs) <= |vs|
    {
      if vs != [] {
        VoteSumBounded(vs[..|vs| - 1]);
      }
    }

    /** The candidates sorted by distance and cut to the first
        `min(k, len(distances))`. */
    function Neighbours(idx: int, ln: real -> real): seq<Scored>
      requires CanPredict(idx)
    {
      var sorted := SortByDistance(Candidates(idx, ln));
      PyPrefix(sorted, MinInt(k, |sorted|))
    }

    /** At most `min(k, len(distances))` neighbours vote, exactly that many
        when k is not negative. */
    lemma NeighboursCount(idx: int, ln: real -> real)
      requires CanPredict(idx)
      ensures |Neighbours(idx, ln)| <= |Candidates(idx, ln)|
      ensures k >= 0 ==> |Neighbours(idx, ln)| == MinInt(k, |Candidates(idx, ln)|)
    {
    }

    /** Every neighbour is a bar of the lookback window before idx. */
    lemma NeighboursInWindow(idx: int, ln: real -> real)
      requires CanPredict(idx)
      ensures forall t :: 0 <= t < |Neighbours(idx, ln)| ==> WindowStart(idx) <= Neighbours(idx, ln)[t].1 < idx
    {
      var c := Candidates(idx, ln);
      CandidatesAreWindow(idx, ln);
      SortKeepsIndexRange(c, WindowStart(idx), idx);
    }

    /** The neighbours are the nearest candidates first, ties going to the
        earlier bar, and every candidate left out is at least as far as
        every neighbour. */
    lemma NeighboursNearestFirst(idx: int, ln: real -> real)
      requires CanPredict(idx)
      ensures SortedThenByIndex(Neighbours(idx, ln))
      ensures var sorted := SortByDistance(Candidates(idx, ln));
        var nb := Neighbours(idx, ln);
        nb == sorted[..|nb|] &&
        forall a, b :: 0 <= a < |nb| <= b < |sorted| ==> nb[a].0 <= sorted[b].0
    {
      var c := Candidates(idx, ln);
      CandidatesAreWindow(idx, ln);
      SortIsStable(c);
      SortIsSorted(c);
    }

    /** The classifier's answer: 0 with no candidates, otherwise the sign of
        the neighbours' vote sum. */
    function Prediction(idx: int, ln: real -> real): int
      requires CanPredict(idx)
    {
      if |Candidates(idx, ln)| == 0 then 0 else SignOfInt(VoteSum(Neighbours(idx, ln)))
    }

    /** The first loop of `predict_knn`: the distance from idx to every
        bar of the window, in ascending order of the bar. */
    method CollectDistances(idx: int, ln: real -> real) returns (distances: seq<Scored>)
      requires CanPredict(idx)
      ensures distances == Candidates(idx, ln)
    {
      var features := [ind.rsi, ind.adx, ind.cci];
      assert features == Features();
      distances := [];
      var start := MaxInt(0, idx - lookback);
      ghost var cands := Candidates(idx, ln);
      var j := start;
      while j < idx
        invariant start <= j && (j <= idx || j == start)
        invariant distances == cands[..j - start]
      {
        var d := LorentzianDistance(idx, j, features, ln);
        assert cands[j - start] == (d, j);
        assert cands[..j - start + 1] == cands[..j - start] + [(d, j)];
        distances := distances + [(d, j)];
        j := j + 1;
      }
      assert distances == cands;
    }

    /** The second loop of `predict_knn`: each neighbour adds the sign of
        the move from its close to the close four bars later, if any. */
    method CountVotes(nb: seq<Scored>) returns (votes: int)
      ensures votes == VoteSum(nb)
    {
      votes := 0;
      for t := 0 to |nb|
        invariant votes == VoteSum(nb[..t])
      {
        var nj := nb[t].1;
        var futureIdx := nj + 4;
        assert nb[..t + 1][..t] == nb[..t];
        if futureIdx < |candles| {
          var ret := candles[futureIdx].close - candles[nj].close;
          votes := votes + (if ret > 0.0 then 1 else if ret < 0.0 then -1 else 0);
        }
      }
      assert nb[..|nb|] == nb;
    }

    /** `predict_knn`: in {-1, 0, 1}, 0 when no earlier bar lies in the
        window, and otherwise the sign of the k nearest neighbours' votes. */
    method PredictKnn(idx: int, ln: real -> real) returns (r: int)
      requires CanPredict(idx)
      ensures r == Prediction(idx, ln)
      ensures -1 <= r <= 1
      ensures idx <= WindowStart(idx) ==> r == 0
    {
      var distances := CollectDistances(idx, ln);
      distances := SortByDistance(distances);
      if distances == [] {
        return 0;
      }
      var kk := MinInt(k, |distances|);
      var nb := PyPrefix(distances, kk);
      var votes := CountVotes(nb);
      r := if votes > 0 then 1 else if votes < 0 then -1 else 0;
    }

    // ----------------------------------------------------------- replay

    predicate IndicatorsCover()
    {
      |ind.rsi| >= |candles| && |ind.adx| >= |candles| && |ind.cci| >= |candles| && |ind.atr| >= |candles|
    }

    predicate NonzeroCloses()
    {
      forall i :: 0 <= i < |candles| ==> candles[i].close != 0.0
    }

    /** Entry sizing: the whole balance at a 1% stop without a positive ATR;
        otherwise risk `risk_pct` of the balance over an ATR stop, capped so
        the position is worth at most the balance. */
    function Entry(balance: real, price: real, atr: real, i: int): LongPosition
      requires price != 0.0
    {
      if atr <= 0.0 then LongPosition(price, balance / price, price * 0.99, i)
      else
        var stopDistance := stopAtrMult * atr;
        var riskAmount := balance * riskPct;
        var qty0 := if stopDistance > 0.0 then riskAmount / stopDistance else balance / price;
        var qty := if qty0 * price > balance then balance / price else qty0;
        LongPosition(price, qty, price - stopDistance, i)
    }

    /** An entry is never worth more than the balance it is sized from. */
    lemma EntryWithinBalance(balance: real, price: real, atr: real, i: int)
      requires price != 0.0
      ensures Entry(balance, price, atr, i).qty * price <= balance
      ensures Entry(balance, price, atr, i).entryPrice == price
    {
      assert balance / price * price == balance;
    }

    /** Closing the open position at `exitPrice`: the balance becomes the
        proceeds (compounding) and one trade is logged. */
    function Close(book: Book, i: int, exitPrice: real, reason: ExitReason): Book
      requires 0 <= i < |candles| && book.position.Some?
    {
      var p := book.position.value;
      var proceeds := p.qty * exitPrice;
      var cost := p.qty * p.entryPrice;
      var profit := proceeds - cost;
      var st := book.stats;
      Book(proceeds, None,
           book.trades + [Trade(candles[i].time, p.entryPrice, exitPrice, profit, proceeds, reason)],
           book.equity,
           Stats(st.trades + 1,
                 if profit >= 0.0 then st.wins + 1 else st.wins,
                 if profit >= 0.0 then st.losses else st.losses + 1,
                 st.profitUsd))
    }

    /** The entry half of a bar: a flat book opens a long position, sized
        by Entry, on a vote of 1. */
    function Admit(book: Book, i: int, signal: int): Book
      requires 0 <= i < |candles| && IndicatorsCover() && NonzeroCloses()
    {
      var atr := if ind.atr[i] > 0.0 then ind.atr[i] else 0.0;
      if book.position.None? && signal == 1
      then book.(position := Some(Entry(book.balance, candles[i].close, atr, i)))
      else book
    }

    /** The exit half of a bar: an open position is closed at the close
        when that is at or below its stop, or else when the vote is -1. */
    function Manage(book: Book, i: int, signal: int): Book
      requires 0 <= i < |candles|
    {
      var price := candles[i].close;
      if book.position.None? then book
      else if price <= book.position.value.stopPrice then Close(book, i, price, StopLoss)
      else if signal == -1 then Close(book, i, price, SignalExit)
      else book
    }

    /** One bar of `run`: entry, then exit on the same bar, then the
        balance is recorded on the equity curve. */
    function Step(book: Book, i: int, signal: int): Book
      requires 0 <= i < |candles| && IndicatorsCover() && NonzeroCloses()
    {
      var managed := Manage(Admit(book, i, signal), i, signal);
      managed.(equity := managed.equity + [EquityPoint(candles[i].time, managed.balance)])
    }

    function InitialBook(): Book
    {
      Book(initialBalance, None, [], [], Stats(0, 0, 0, 0.0))
    }

    /** The state after bars WarmUp .. hi - 1, where bar i sees the vote
        `votes[i]`. */
    function Replay(hi: int, votes: seq<int>): Book
      requires WarmUp <= hi <= LastBar() && hi <= |votes| && IndicatorsCover() && NonzeroCloses()
      decreases hi
    {
      if hi == WarmUp then InitialBook()
      else Step(Replay(hi - 1, votes), hi - 1, votes[hi - 1])
    }

    lemma ReplayNext(hi: int, votes: seq<int>)
      requires WarmUp <= hi < LastBar() && hi < |votes| && IndicatorsCover() && NonzeroCloses()
      ensures Replay(hi + 1, votes) == Step(Replay(hi, votes), hi, votes[hi])
    {
    }

    /** The classifier as a partial function of the bar. */
    function Predictor(ln: real -> real): int --> int
    {
      i requires CanPredict(i) => Prediction(i, ln)
    }

    /** The classifier's vote at every bar `run` processes. */
    function Votes(ln: real -> real): (v: seq<int>)
      requires IndicatorsCover()
      ensures |v| == LastBar()
    {
      assert forall i :: WarmUp <= i < LastBar() ==> CanPredict(i);
      Tabulate(LastBar(), Predictor(ln))
    }

    lemma VotesAt(ln: real -> real, i: int)
      requires IndicatorsCover() && WarmUp <= i < LastBar()
      ensures CanPredict(i) && Votes(ln)[i] == Prediction(i, ln)
    {
      assert forall j :: WarmUp <= j < LastBar() ==> CanPredict(j);
      TabulateAt(LastBar(), Predictor(ln), i);
    }

    /** One past the last bar `run` processes: `range(50, n - 4)`. */
    function LastBar(): int
    {
      MaxInt(WarmUp, |candles| - 4)
    }

    function Finish(book: Book): RunResult
    {
      RunResult(initialBalance, book.balance, book.trades,
                book.stats.(profitUsd := book.balance - initialBalance), book.equity)
    }

    /** The sizing branch of `run`'s entry. */
    method SizeEntry(balance: real, price: real, atr: real, i: int) returns (p: LongPosition)
      requires price != 0.0
      ensures p == Entry(balance, price, atr, i)
      ensures p.qty * price <= balance
    {
      var qty, stopPrice;
      if atr <= 0.0 {
        qty := balance / price;
        stopPrice := price * 0.99;
      } else {
        var stopDistance := stopAtrMult * atr;
        var riskAmount := balance * riskPct;
        qty := if stopDistance > 0.0 then riskAmount / stopDistance else balance / price;
        if qty * price > balance {
          qty := balance / price;
        }
        stopPrice := price - stopDistance;
      }
      p := LongPosition(price, qty, stopPrice, i);
      EntryWithinBalance(balance, price, atr, i);
    }

    /** The exit branch of `run`: the balance becomes the proceeds and the
        trade is logged and counted. */
    method CloseTrade(balance: real, p: LongPosition, trades: seq<Trade>, stats: Stats, i: int,
                      exitPrice: real, reason: ExitReason, ghost equity: seq<EquityPoint>)
      returns (balance': real, trades': seq<Trade>, stats': Stats)
      requires 0 <= i < |candles|
      ensures Book(balance', None, trades', equity, stats') == Close(Book(balance, Some(p), trades, equity, stats), i, exitPrice, reason)
      ensures balance' == p.qty * exitPrice
      ensures trades' == trades + [Trade(candles[i].time, p.entryPrice, exitPrice, balance' - p.qty * p.entryPrice, balance', reason)]
    {
      var proceeds := p.qty * exitPrice;
      var cost := p.qty * p.entryPrice;
      var profit := proceeds - cost;
      balance' := proceeds;
      trades' := trades + [Trade(candles[i].time, p.entryPrice, exitPrice, profit, balance', reason)];
      stats' := stats.(trades := stats.trades + 1);
      if profit >= 0.0 {
        stats' := stats'.(wins := stats'.wins + 1);
      } else {
        stats' := stats'.(losses := stats'.losses + 1);
      }
      ghost var c := Close(Book(balance, Some(p), trades, equity, stats), i, exitPrice, reason);
      assert c.trades[|trades|] == trades'[|trades|];
    }

    /** The position management of one bar of `run`: a stop-loss at the
        close when it is at or below the stop, else an exit on a -1 vote. */
    method ManageBar(balance: real, position: Option<LongPosition>, trades: seq<Trade>, stats: Stats,
                     i: int, signal: int, ghost equity: seq<EquityPoint>)
      returns (balance': real, position': Option<LongPosition>, trades': seq<Trade>, stats': Stats)
      requires 0 <= i < |candles|
      ensures Book(balance', position', trades', equity, stats') == Manage(Book(balance, position, trades, equity, stats), i, signal)
    {
      balance', position', trades', stats' := balance, position, trades, stats;
      var price := candles[i].close;
      if position.Some? {
        var p := position.value;
        if price <= p.stopPrice {
          balance', trades', stats' := CloseTrade(balance, p, trades, stats, i, price, StopLoss, equity);
          position' := None;
        } else if signal == -1 {
          balance', trades', stats' := CloseTrade(balance, p, trades, stats, i, price, SignalExit, equity);
          position' := None;
        }
      }
    }

    /** The classifier's vote at bar i, the one the replay uses there. */
    method VoteAt(i: int, ln: real -> real) returns (signal: int)
      requires IndicatorsCover() && WarmUp <= i < LastBar()
      ensures signal == Votes(ln)[i]
    {
      VotesAt(ln, i);
      signal := PredictKnn(i, ln);
    }

    /** One bar of `run`: entry, position management, and the equity point. */
    method StepBar(book: Book, i: int, signal: int) returns (after: Book)
      requires 0 <= i < |candles| && IndicatorsCover() && NonzeroCloses()
      ensures after == Step(book, i, signal)
    {
      var price := candles[i].close;
      var atr := if ind.atr[i] > 0.0 then ind.atr[i] else 0.0;
      var position := book.position;
      if position.None? && signal == 1 {
        var p := SizeEntry(book.balance, price, atr, i);
        position := Some(p);
      }
      assert book.(position := position) == Admit(book, i, signal);
      var balance, trades, stats;
      balance, position, trades, stats := ManageBar(book.balance, position, book.trades, book.stats, i, signal, book.equity);
      after := Book(balance, position, trades, book.equity + [EquityPoint(candles[i].time, balance)], stats);
    }

    /** `run`: the replay of bars 50 .. n - 5, one equity point per bar;
        the book holds the balance, the open position, the trade log, the
        equity curve and the counters. */
    method Run(ln: real -> real) returns (res: RunResult)
      requires IndicatorsCover() && NonzeroCloses()
      ensures res == Finish(Replay(LastBar(), Votes(ln)))
      ensures |res.equity| == MaxInt(0, |candles| - 54)
      ensures res.stats.trades == |res.trades| == res.stats.wins + res.stats.losses
      ensures res.stats.wins == CountWins(res.trades)
      ensures res.finalBalance == if res.trades == [] then initialBalance else res.trades[|res.trades| - 1].balanceAfter
      ensures res.stats.profitUsd == res.finalBalance - initialBalance
    {
      var book := Book(initialBalance, None, [], [], Stats(0, 0, 0, 0.0));
      var n := |candles|;
      ghost var votes := Votes(ln);
      var i := WarmUp;
      while i < n - 4
        invariant WarmUp <= i <= LastBar() == |votes|
        invariant book == Replay(i, votes)
      {
        var signal := VoteAt(i, ln);
        book := StepBar(book, i, signal);
        ReplayNext(i, votes);
        i := i + 1;
      }
      res := RunResult(initialBalance, book.balance, book.trades,
                       book.stats.(profitUsd := book.balance - initialBalance), book.equity);
      assert res == Finish(book);
      FinishFacts(votes);
    }

    /** What `run` returns after the whole replay: one equity point per
        bar from 50 to n - 5, counters matching the trade log, the final
        balance as the last `balance_after`, and the profit as final less
        initial balance. */
    lemma FinishFacts(votes: seq<int>)
      requires IndicatorsCover() && NonzeroCloses() && LastBar() <= |votes|
      ensures var r := Finish(Replay(LastBar(), votes));
        |r.equity| == MaxInt(0, |candles| - 54) &&
        r.stats.trades == |r.trades| == r.stats.wins + r.stats.losses &&
        r.stats.wins == CountWins(r.trades) &&
        r.finalBalance == (if r.trades == [] then initialBalance else r.trades[|r.trades| - 1].balanceAfter) &&
        r.stats.profitUsd == r.finalBalance - initialBalance
    {
      ReplayConsistent(LastBar(), votes);
      ReplayEquity(LastBar(), votes);
    }

    // ----------------------------------------------------------- lemmas

    /** The balance is the last trade's `balance_after`, or the initial
        balance before any trade, and the counters agree with the log. */
    predicate Consistent(b: Book)
    {
      b.stats.trades == |b.trades| == b.stats.wins + b.stats.losses &&
      b.stats.wins == CountWins(b.trades) &&
      b.balance == (if b.trades == [] then initialBalance else b.trades[|b.trades| - 1].balanceAfter)
    }

    /** One bar appends exactly one equity point, holding the balance after
        the bar. */
    lemma StepAppendsEquity(book: Book, i: int, signal: int)
      requires 0 <= i < |candles| && IndicatorsCover() && NonzeroCloses()
      ensures var after := Step(book, i, signal);
        |after.equity| == |book.equity| + 1 &&
        after.equity[|after.equity| - 1] == EquityPoint(candles[i].time, after.balance)
    {
    }

    /** One bar keeps the book consistent and appends exactly one equity
        point, holding the balance after the bar. */
    lemma StepKeepsConsistent(book: Book, i: int, signal: int)
      requires 0 <= i < |candles| && IndicatorsCover() && NonzeroCloses()
      requires Consistent(book)
      ensures Consistent(Step(book, i, signal))
    {
      var price := candles[i].close;
      var atr := if ind.atr[i] > 0.0 then ind.atr[i] else 0.0;
      var entered := if book.position.None? && signal == 1
                     then book.(position := Some(Entry(book.balance, price, atr, i))) else book;
      assert Consistent(entered);
      if entered.position.Some? {
        if price <= entered.position.value.stopPrice {
          assert Consistent(Close(entered, i, price, StopLoss));
        } else if signal == -1 {
          assert Consistent(Close(entered, i, price, SignalExit));
        }
      }
    }

    /** Through the whole replay the book stays consistent. */
    lemma {:induction false} ReplayConsistent(hi: int, votes: seq<int>)
      requires WarmUp <= hi <= LastBar() && hi <= |votes| && IndicatorsCover() && NonzeroCloses()
      ensures Consistent(Replay(hi, votes))
    {
      if hi > WarmUp {
        ReplayConsistent(hi - 1, votes);
        ReplayNext(hi - 1, votes);
        StepKeepsConsistent(Replay(hi - 1, votes), hi - 1, votes[hi - 1]);
      }
    }

    /** One equity point per processed bar, the last one holding the
        current balance. */
    lemma {:induction false} ReplayEquity(hi: int, votes: seq<int>)
      requires WarmUp <= hi <= LastBar() && hi <= |votes| && IndicatorsCover() && NonzeroCloses()
      ensures var b := Replay(hi, votes);
        |b.equity| == hi - WarmUp &&
        (hi > WarmUp ==> b.equity[|b.equity| - 1] == EquityPoint(candles[hi - 1].time, b.balance))
    {
      if hi > WarmUp {
        ReplayEquity(hi - 1, votes);
        ReplayNext(hi - 1, votes);
        StepAppendsEquity(Replay(hi - 1, votes), hi - 1, votes[hi - 1]);
      }
    }

    /** A bar that ends with a position it did not start with opened it
        because the book was flat and the vote was 1, sized by Entry, and
        worth at most the balance. */
    lemma EntryOnlyWhenFlatOnBuyVote(book: Book, i: int, signal: int)
      requires 0 <= i < |candles| && IndicatorsCover() && NonzeroCloses()
      requires book.position.None? && Step(book, i, signal).position.Some?
      ensures signal == 1
      ensures var atr := if ind.atr[i] > 0.0 then ind.atr[i] else 0.0;
        Step(book, i, signal).position.value == Entry(book.balance, candles[i].close, atr, i)
      ensures Step(book, i, signal).position.value.qty * candles[i].close <= book.balance
    {
      var atr := if ind.atr[i] > 0.0 then ind.atr[i] else 0.0;
      EntryWithinBalance(book.balance, candles[i].close, atr, i);
    }

    /** Each bar appends at most one trade. When it appends one, the
        position held during the bar is gone, the balance is its quantity
        times the exit price, the profit is quantity times (exit - entry),
        `balance_after` is the new balance, and the exit is at the close:
        a stop-loss when the close is at or below the stop, otherwise the
        vote was -1. Without a trade the balance is unchanged. */
    lemma ExitCompounds(book: Book, i: int, signal: int)
      requires 0 <= i < |candles| && IndicatorsCover() && NonzeroCloses()
      ensures var after := Step(book, i, signal);
        |after.trades| == |book.trades| || |after.trades| == |book.trades| + 1
      ensures var after := Step(book, i, signal);
        |after.trades| == |book.trades| ==> after.balance == book.balance && after.trades == book.trades
      ensures var after := Step(book, i, signal);
        var atr := if ind.atr[i] > 0.0 then ind.atr[i] else 0.0;
        var held := if book.position.Some? then book.position.value
                    else Entry(book.balance, candles[i].close, atr, i);
        |after.trades| == |book.trades| + 1 ==>
          var t := after.trades[|after.trades| - 1];
          after.trades[..|book.trades|] == book.trades &&
          after.position.None? &&
          t.exit == candles[i].close && t.entry == held.entryPrice &&
          after.balance == held.qty * t.exit &&
          t.profit == held.qty * t.exit - held.qty * held.entryPrice &&
          t.balanceAfter == after.balance &&
          (t.reason == StopLoss <==> candles[i].close <= held.stopPrice) &&
          (t.reason == SignalExit ==> signal == -1)
    {
      assert Step(book, i, signal).trades[..|book.trades|] == book.trades || |Step(book, i, signal).trades| == |book.trades|;
    }
  }
}
