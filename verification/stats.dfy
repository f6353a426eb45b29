/**
 The statistics the backtester reports for a list of trades
 (`calculateStats`): count, wins and losses, win rate, average return and
 the extreme returns, the last three in percent.
 */
module Statistics {
  import opened JsValues
  import opened Trades

  datatype Stats = Stats(
    count: nat, wins: nat, losses: nat,
    winRate: real, avgReturn: real, maxWin: real, maxLoss: real,
    trades: seq<Trade>)

  /** The result for an empty trade list. */
  const ZeroStats: Stats := Stats(0, 0, 0, 0.0, 0.0, 0.0, 0.0, [])

  /** `trades.filter(t => t.pnl > 0).length`: the number of trades with a strictly positive return. */
  function Wins(trades: seq<Trade>): (w: nat)
    ensures w == |set k | 0 <= k < |trades| && trades[k].pnl > 0.0|
    ensures w <= |trades|
  {
    if |trades| == 0 then 0
    else
      var n := |trades| - 1;
      var init := trades[..n];
      var before := set k | 0 <= k < n && trades[k].pnl > 0.0;
      assert (set k | 0 <= k < |init| && init[k].pnl > 0.0) == before;
      if trades[n].pnl > 0.0 then
        assert (set k | 0 <= k < |trades| && trades[k].pnl > 0.0) == before + {n};
        Wins(init) + 1
      else
        assert (set k | 0 <= k < |trades| && trades[k].pnl > 0.0) == before;
        Wins(init)
  }

  function Pnls(trades: seq<Trade>): (r: seq<real>)
    ensures |r| == |trades|
    ensures forall k :: 0 <= k < |trades| ==> r[k] == trades[k].pnl
  {
    seq(|trades|, k requires 0 <= k < |trades| => trades[k].pnl)
  }

  /** `maxWin` of the scan: starts at 0 and takes every larger return, in trade order. */
  function BestReturn(trades: seq<Trade>): (m: real)
    ensures 0.0 <= m
    ensures forall k :: 0 <= k < |trades| ==> trades[k].pnl <= m
    ensures m > 0.0 ==> exists k :: 0 <= k < |trades| && trades[k].pnl == m
  {
    if |trades| == 0 then 0.0
    else
      var m := BestReturn(trades[..|trades| - 1]);
      assert forall k :: 0 <= k < |trades| - 1 ==> trades[..|trades| - 1][k] == trades[k];
      if trades[|trades| - 1].pnl > m then trades[|trades| - 1].pnl else m
  }

  /** `maxLoss` of the scan: starts at 0 and takes every smaller return, in trade order. */
  function WorstReturn(trades: seq<Trade>): (m: real)
    ensures m <= 0.0
    ensures forall k :: 0 <= k < |trades| ==> m <= trades[k].pnl
    ensures m < 0.0 ==> exists k :: 0 <= k < |trades| && trades[k].pnl == m
  {
    if |trades| == 0 then 0.0
    else
      var m := WorstReturn(trades[..|trades| - 1]);
      assert forall k :: 0 <= k < |trades| - 1 ==> trades[..|trades| - 1][k] == trades[k];
      if trades[|trades| - 1].pnl < m then trades[|trades| - 1].pnl else m
  }

  /**
   `calculateStats`: the statistics of a trade list. Wins are the trades
   with a positive return, the win rate is their share and the average
   return the mean return, both in percent; `maxWin` and `maxLoss` bracket
   every return.
   */
  function CalculateStats(trades: seq<Trade>): (s: Stats)
    ensures s.count == |trades| && s.trades == trades
    ensures s.wins == |set k | 0 <= k < |trades| && trades[k].pnl > 0.0|
    ensures s.wins + s.losses == s.count
    ensures |trades| == 0 ==> s == ZeroStats
    ensures |trades| > 0 ==> s.winRate == s.wins as real / s.count as real * 100.0
    ensures |trades| > 0 ==> MeanPercent(s.avgReturn, Pnls(trades))
    ensures s.maxLoss <= 0.0 <= s.maxWin
    ensures forall k :: 0 <= k < |trades| ==> s.maxLoss <= trades[k].pnl * 100.0 <= s.maxWin
  {
    if |trades| == 0 then ZeroStats
    else
      var count := |trades|;
      var wins := Wins(trades);
      var avg := AverageReturn(trades);
      Stats(count, wins, count - wins,
        wins as real / count as real * 100.0,
        avg,
        BestReturn(trades) * 100.0,
        WorstReturn(trades) * 100.0,
        trades)
  }

  /** `a` is the mean of `xs` in percent: times the number of values, it is their total in percent. */
  predicate MeanPercent(a: real, xs: seq<real>)
  {
    a * |xs| as real == Sum(xs) * 100.0
  }

  /** The mean return in percent. */
  function AverageReturn(trades: seq<Trade>): (a: real)
    requires |trades| > 0
    ensures MeanPercent(a, Pnls(trades))
  {
    Sum(Pnls(trades)) / |trades| as real * 100.0
  }

  /** All trades win exactly when Wins is the count; none does exactly when it is 0. */
  lemma {:induction false} WinsExtremes(trades: seq<Trade>)
    ensures Wins(trades) == |trades| <==> forall k :: 0 <= k < |trades| ==> trades[k].pnl > 0.0
    ensures Wins(trades) == 0 <==> forall k :: 0 <= k < |trades| ==> trades[k].pnl <= 0.0
  {
    if |trades| > 0 {
      var n := |trades| - 1;
      WinsExtremes(trades[..n]);
      assert forall k :: 0 <= k < n ==> trades[..n][k] == trades[k];
    }
  }

  lemma RateBounds(wins: nat, count: nat)
    requires 0 < count && wins <= count
    ensures 0.0 <= wins as real / count as real * 100.0 <= 100.0
    ensures wins as real / count as real * 100.0 == 100.0 <==> wins == count
    ensures wins as real / count as real * 100.0 == 0.0 <==> wins == 0
  {
    var share := wins as real / count as real;
    DivUnit(wins as real, count as real);
    DivStrict(wins as real, count as real);
    assert wins < count ==> share * 100.0 < 100.0;
    assert 0 < wins ==> 0.0 < share * 100.0;
  }

  /**
   The win rate is a percentage; it is 100 exactly when every trade has a
   positive return and 0 exactly when none has.
   */
  lemma WinRateRange(trades: seq<Trade>)
    requires |trades| > 0
    ensures 0.0 <= CalculateStats(trades).winRate <= 100.0
    ensures CalculateStats(trades).winRate == 100.0 <==> forall k :: 0 <= k < |trades| ==> trades[k].pnl > 0.0
    ensures CalculateStats(trades).winRate == 0.0 <==> forall k :: 0 <= k < |trades| ==> trades[k].pnl <= 0.0
  {
    WinsExtremes(trades);
    RateBounds(Wins(trades), |trades|);
  }

  /** The average return lies between the largest loss and the largest win. */
  lemma AverageBetweenExtremes(trades: seq<Trade>)
    ensures CalculateStats(trades).maxLoss <= CalculateStats(trades).avgReturn <= CalculateStats(trades).maxWin
  {
    if |trades| > 0 {
      var pnls := Pnls(trades);
      var mean := Sum(pnls) / |pnls| as real;
      MeanWithinBounds(pnls, WorstReturn(trades), BestReturn(trades));
      assert WorstReturn(trades) * 100.0 <= mean * 100.0 <= BestReturn(trades) * 100.0;
    }
  }

  /** A positive `maxWin` is the return of some trade, and a negative `maxLoss` likewise. */
  lemma ExtremesAttained(trades: seq<Trade>)
    ensures CalculateStats(trades).maxWin > 0.0 ==>
              exists k :: 0 <= k < |trades| && trades[k].pnl * 100.0 == CalculateStats(trades).maxWin
    ensures CalculateStats(trades).maxLoss < 0.0 ==>
              exists k :: 0 <= k < |trades| && trades[k].pnl * 100.0 == CalculateStats(trades).maxLoss
  {
  }
}
