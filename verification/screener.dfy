/**
 The market screener's deterministic part: the symbol list by sector, the
 sector lookup, the short- and long-term rankings built from every
 symbol's backtest reports, and the best calendar month of a trade list.
 */
module MarketScreener {
  import opened JsValues
  import opened Signals
  import opened Lists
  import opened Trades
  import opened Statistics
  import opened Backtest

  /** One entry of the stock list: a sector name and its symbols, in listing order. */
  datatype Sector = Sector(name: string, symbols: seq<string>)

  /** The sector reported for a symbol that no sector lists ("Khác", "other"). */
  const Other: string := "Kh\U{e1}c"

  /** A symbol is listed under the k-th sector. */
  predicate ListedIn(list: seq<Sector>, symbol: string, k: int)
  {
    0 <= k < |list| && symbol in list[k].symbols
  }

  /** All sectors' symbols, sector after sector. */
  function Flatten(list: seq<Sector>): (r: seq<string>)
    ensures forall s :: s in r <==> exists k :: ListedIn(list, s, k)
  {
    if |list| == 0 then []
    else
      var rest := Flatten(list[1..]);
      forall s
        ensures s in list[0].symbols + rest <==> exists k :: ListedIn(list, s, k)
      {
        if s in rest {
          var k :| ListedIn(list[1..], s, k);
          assert ListedIn(list, s, k + 1);
        } else if s in list[0].symbols {
          assert ListedIn(list, s, 0);
        }
        if exists k :: ListedIn(list, s, k) {
          var k :| ListedIn(list, s, k);
          if k > 0 {
            assert ListedIn(list[1..], s, k - 1);
          }
        }
      }
      list[0].symbols + rest
  }

  function Id(s: string): string
  {
    s
  }

  /**
   `getAllSymbols`: every listed symbol exactly once, in the order of its
   first occurrence across the sectors.
   */
  function AllSymbols(list: seq<Sector>): (r: seq<string>)
    ensures forall a, b :: 0 <= a < b < |r| ==> r[a] != r[b]
    ensures forall s :: s in r <==> exists k :: ListedIn(list, s, k)
  {
    var all := Flatten(list);
    var r := Dedup(all, Id);
    forall s | s in all
      ensures s in r
    {
      var i :| 0 <= i < |all| && all[i] == s;
      var j :| 0 <= j < |r| && Id(r[j]) == Id(all[i]);
    }
    forall s | s in r
      ensures s in all
    {
      var j :| 0 <= j < |r| && r[j] == s;
      var i :| 0 <= i < |all| && r[j] == all[i] && FirstOfKey(all, Id, i);
    }
    r
  }

  /** The symbols come in the order of their first occurrence in the sector-by-sector listing. */
  lemma AllSymbolsInFirstOccurrenceOrder(list: seq<Sector>)
    ensures AllSymbols(list) == Pick(Flatten(list), Indices(0, FirstHits(Flatten(list), Id)))
  {
    DedupIsFirstOccurrences(Flatten(list), Id);
  }

  /** `getSector`: the first sector listing the symbol, or `Other` when none does. */
  function SectorOf(list: seq<Sector>, symbol: string): (r: string)
    ensures (exists k :: ListedIn(list, symbol, k)) ==>
              exists k :: ListedIn(list, symbol, k) && r == list[k].name &&
                          forall j :: 0 <= j < k ==> symbol !in list[j].symbols
    ensures (forall k :: !ListedIn(list, symbol, k)) ==> r == Other
  {
    if |list| == 0 then Other
    else if symbol in list[0].symbols then
      assert ListedIn(list, symbol, 0);
      list[0].name
    else
      var r := SectorOf(list[1..], symbol);
      assert forall k :: ListedIn(list[1..], symbol, k) <==> ListedIn(list, symbol, k + 1);
      assert forall k :: ListedIn(list, symbol, k) ==> k > 0;
      assert (exists k :: ListedIn(list, symbol, k)) ==>
               exists k :: ListedIn(list, symbol, k) && r == list[k].name &&
                           forall j :: 0 <= j < k ==> symbol !in list[j].symbols by {
        if exists k :: ListedIn(list, symbol, k) {
          var k :| ListedIn(list, symbol, k);
          assert ListedIn(list[1..], symbol, k - 1);
          var k' :| ListedIn(list[1..], symbol, k') && r == list[1..][k'].name &&
                    forall j :: 0 <= j < k' ==> symbol !in list[1..][j].symbols;
          assert ListedIn(list, symbol, k' + 1) && r == list[k' + 1].name;
          assert forall j :: 0 <= j < k' + 1 ==> symbol !in list[j].symbols by {
            forall j | 0 <= j < k' + 1
              ensures symbol !in list[j].symbols
            {
              if j > 0 {
                assert list[j] == list[1..][j - 1];
              }
            }
          }
        }
      }
      r
  }

  /** A symbol missing from `getAllSymbols` is reported under `Other`. */
  lemma UnlistedSymbolIsOther(list: seq<Sector>, symbol: string)
    requires symbol !in AllSymbols(list)
    ensures SectorOf(list, symbol) == Other
  {
  }

  /** One row of a ranking before the recommendation is attached. */
  datatype Candidate = Candidate(
    symbol: string, sector: string, strategy: string, timeframe: nat,
    winRate: real, avgReturn: real, totalReturn: real, maxWin: real, maxLoss: real,
    trades: nat, wins: nat, losses: nat, allTrades: seq<Trade>)

  /** The reports of one scanned symbol, keyed by strategy key in insertion order. */
  datatype SymbolResult = SymbolResult(symbol: string, reports: seq<(string, Report)>)

  /** Fewest trades a horizon needs to be ranked: 5 in the short term, 3 in the long term. */
  function MinTrades(t: Term): nat
  {
    if t.ShortTerm? then 5 else 3
  }

  /** The total return of a row is its average return times its number of trades. */
  predicate TotalIsAverageTimesCount(c: Candidate)
  {
    c.totalReturn == c.avgReturn * c.trades as real
  }

  function CandidateOf(list: seq<Sector>, symbol: string, key: string, h: nat, s: Stats): (c: Candidate)
    ensures c.symbol == symbol && c.sector == SectorOf(list, symbol) && c.strategy == key && c.timeframe == h
    ensures TotalIsAverageTimesCount(c)
    ensures c.winRate == s.winRate && c.avgReturn == s.avgReturn && c.trades == s.count
    ensures c.wins == s.wins && c.losses == s.losses && c.allTrades == s.trades
  {
    Candidate(symbol, SectorOf(list, symbol), key, h, s.winRate, s.avgReturn,
              s.avgReturn * s.count as real, s.maxWin, s.maxLoss, s.count, s.wins, s.losses, s.trades)
  }

  /** Whether horizon h of the table qualifies for a ranking of term t. */
  predicate Qualifies(table: map<nat, Stats>, h: nat, t: Term)
  {
    h in table && table[h].count >= MinTrades(t)
  }

  /** The candidates of one strategy's table, horizon by horizon. */
  function HorizonCandidates(list: seq<Sector>, symbol: string, key: string, table: map<nat, Stats>,
                             hs: seq<nat>, t: Term): (r: seq<Candidate>)
    ensures forall c :: c in r <==>
              exists h :: h in hs && Qualifies(table, h, t) && c == CandidateOf(list, symbol, key, h, table[h])
  {
    if |hs| == 0 then []
    else
      var rest := HorizonCandidates(list, symbol, key, table, hs[1..], t);
      assert forall h :: h in hs <==> h == hs[0] || h in hs[1..];
      (if Qualifies(table, hs[0], t) then [CandidateOf(list, symbol, key, hs[0], table[hs[0]])] else []) + rest
  }

  /** The candidates of one symbol's reports of term t. */
  function ReportCandidates(list: seq<Sector>, symbol: string, reports: seq<(string, Report)>, t: Term): (r: seq<Candidate>)
    ensures forall c :: c in r <==>
              exists j :: 0 <= j < |reports| &&
                c in HorizonCandidates(list, symbol, reports[j].0, Table(reports[j].1, t), Horizons(t), t)
  {
    if |reports| == 0 then []
    else
      var rest := ReportCandidates(list, symbol, reports[1..], t);
      assert forall j :: 1 <= j < |reports| ==> reports[1..][j - 1] == reports[j];
      HorizonCandidates(list, symbol, reports[0].0, Table(reports[0].1, t), Horizons(t), t) + rest
  }

  /** All candidates of term t, symbol by symbol. */
  function Candidates(list: seq<Sector>, results: seq<SymbolResult>, t: Term): (r: seq<Candidate>)
    ensures forall c :: c in r <==>
              exists i :: 0 <= i < |results| && c in ReportCandidates(list, results[i].symbol, results[i].reports, t)
  {
    if |results| == 0 then []
    else
      var rest := Candidates(list, results[1..], t);
      assert forall i :: 1 <= i < |results| ==> results[1..][i - 1] == results[i];
      ReportCandidates(list, results[0].symbol, results[0].reports, t) + rest
  }

  /**
   Every candidate comes from a symbol, strategy and horizon of the term
   whose table entry has at least the minimum number of trades, and copies
   that entry with `totalReturn = avgReturn * count`.
   */
  lemma CandidatesQualify(list: seq<Sector>, results: seq<SymbolResult>, t: Term, c: Candidate)
    requires c in Candidates(list, results, t)
    ensures exists i, j, h :: 0 <= i < |results| && 0 <= j < |results[i].reports| && h in Horizons(t) &&
              Qualifies(Table(results[i].reports[j].1, t), h, t) &&
              c == CandidateOf(list, results[i].symbol, results[i].reports[j].0, h, Table(results[i].reports[j].1, t)[h])
    ensures c.trades >= MinTrades(t) && TotalIsAverageTimesCount(c) && c.timeframe in Horizons(t)
  {
    var i :| 0 <= i < |results| && c in ReportCandidates(list, results[i].symbol, results[i].reports, t);
    var reports := results[i].reports;
    var j :| 0 <= j < |reports| &&
             c in HorizonCandidates(list, results[i].symbol, reports[j].0, Table(reports[j].1, t), Horizons(t), t);
    var table := Table(reports[j].1, t);
    var h :| h in Horizons(t) && Qualifies(table, h, t) && c == CandidateOf(list, results[i].symbol, reports[j].0, h, table[h]);
    var d := CandidateOf(list, results[i].symbol, reports[j].0, h, table[h]);
    assert d.trades >= MinTrades(t) && TotalIsAverageTimesCount(d) && d.timeframe in Horizons(t);
  }

  /** Every qualifying horizon of every symbol's strategy yields a candidate. */
  lemma QualifyingHorizonsAreCandidates(list: seq<Sector>, results: seq<SymbolResult>, t: Term, i: nat, j: nat, h: nat)
    requires i < |results| && j < |results[i].reports| && h in Horizons(t)
    requires Qualifies(Table(results[i].reports[j].1, t), h, t)
    ensures CandidateOf(list, results[i].symbol, results[i].reports[j].0, h, Table(results[i].reports[j].1, t)[h])
              in Candidates(list, results, t)
  {
    var reports := results[i].reports;
    var c := CandidateOf(list, results[i].symbol, reports[j].0, h, Table(reports[j].1, t)[h]);
    assert c in HorizonCandidates(list, results[i].symbol, reports[j].0, Table(reports[j].1, t), Horizons(t), t);
    assert c in ReportCandidates(list, results[i].symbol, reports, t);
  }

  function WinRate(c: Candidate): real
  {
    c.winRate
  }

  function SymbolOf(c: Candidate): string
  {
    c.symbol
  }

  /** Sort by win rate descending, keep the first row per symbol, take ten. */
  function Rank(candidates: seq<Candidate>): seq<Candidate>
  {
    Take(BestPerSymbol(candidates), 10)
  }

  /** The candidates sorted by win rate and reduced to the first row per symbol. */
  function BestPerSymbol(candidates: seq<Candidate>): seq<Candidate>
  {
    Dedup(SortDescending(candidates, WinRate), SymbolOf)
  }

  /**
   A ranking holds at most ten candidates with distinct symbols, in
   non-increasing win rate, and each is the best row of its symbol.
   */
  lemma RankIsBestPerSymbol(candidates: seq<Candidate>)
    ensures var r := Rank(candidates);
            |r| <= 10 &&
            (forall k :: 0 <= k < |r| ==> r[k] in candidates) &&
            (forall a, b :: 0 <= a < b < |r| ==> r[a].symbol != r[b].symbol) &&
            (forall a, b :: 0 <= a < b < |r| ==> r[a].winRate >= r[b].winRate) &&
            (forall k, c :: 0 <= k < |r| && c in candidates && c.symbol == r[k].symbol ==> c.winRate <= r[k].winRate)
  {
    var unique := BestPerSymbol(candidates);
    var r := Rank(candidates);
    BestPerKeyOrdered(candidates, SymbolOf, WinRate);
    BestPerKeyIsBest(candidates, SymbolOf, WinRate);
    forall k, c | 0 <= k < |r| && c in candidates && c.symbol == r[k].symbol
      ensures c.winRate <= r[k].winRate
    {
      assert r[k] == unique[k];
      assert SymbolOf(c) == SymbolOf(unique[k]);
      assert WinRate(c) <= WinRate(unique[k]);
    }
  }

  /**
   A ranking is the top ten symbols: with fewer than ten rows every
   candidate's symbol is ranked, and with ten no symbol left out has a row
   beating the last ranked one.
   */
  lemma RankIsTopTen(candidates: seq<Candidate>)
    ensures var r := Rank(candidates);
            (|r| < 10 ==> forall c :: c in candidates ==> exists k :: 0 <= k < |r| && r[k].symbol == c.symbol) &&
            (|r| == 10 ==> forall c :: c in candidates && (forall k :: 0 <= k < 10 ==> r[k].symbol != c.symbol) ==>
                             c.winRate <= r[9].winRate)
  {
    if |Rank(candidates)| < 10 {
      ShortRankCoversAll(candidates);
    }
    if |Rank(candidates)| == 10 {
      FullRankBeatsLeftOut(candidates);
    }
  }

  /** With fewer than ten rows, every candidate's symbol is ranked. */
  lemma ShortRankCoversAll(candidates: seq<Candidate>)
    requires |Rank(candidates)| < 10
    ensures forall c :: c in candidates ==>
              exists k :: 0 <= k < |Rank(candidates)| && Rank(candidates)[k].symbol == c.symbol
  {
    var r := Rank(candidates);
    BestPerKeyOrdered(candidates, SymbolOf, WinRate);
    assert r == BestPerSymbol(candidates);
    forall c | c in candidates
      ensures exists k :: 0 <= k < |r| && r[k].symbol == c.symbol
    {
      var p := KeptFor(candidates, SymbolOf, WinRate, c);
      assert r[p].symbol == c.symbol;
    }
  }

  /** With ten rows, no candidate whose symbol is left out beats the tenth. */
  lemma FullRankBeatsLeftOut(candidates: seq<Candidate>)
    requires |Rank(candidates)| == 10
    ensures forall c :: c in candidates && (forall k :: 0 <= k < 10 ==> Rank(candidates)[k].symbol != c.symbol) ==>
              c.winRate <= Rank(candidates)[9].winRate
  {
    var unique := BestPerSymbol(candidates);
    var r := Rank(candidates);
    BestPerKeyOrdered(candidates, SymbolOf, WinRate);
    forall c | c in candidates && (forall k :: 0 <= k < 10 ==> r[k].symbol != c.symbol)
      ensures c.winRate <= r[9].winRate
    {
      var p := KeptFor(candidates, SymbolOf, WinRate, c);
      assert forall k :: 0 <= k < 10 ==> unique[k].symbol != c.symbol by {
        forall k | 0 <= k < 10
          ensures unique[k].symbol != c.symbol
        {
          assert r[k] == unique[k];
        }
      }
      assert p >= 10;
      assert unique[9].winRate >= unique[p].winRate;
    }
  }

  /**
   What `generateRankings` promises of one term's ranking: at most ten rows,
   each a candidate, with distinct symbols, in non-increasing win rate, each
   the best row of its symbol, and the top ten symbols: fewer than ten rows
   rank every symbol, and with ten no symbol left out beats the tenth.
   */
  predicate IsRanking(r: seq<Candidate>, candidates: seq<Candidate>)
  {
    |r| <= 10 &&
    (forall k :: 0 <= k < |r| ==> r[k] in candidates) &&
    (forall a, b :: 0 <= a < b < |r| ==> r[a].symbol != r[b].symbol) &&
    (forall a, b :: 0 <= a < b < |r| ==> r[a].winRate >= r[b].winRate) &&
    (forall k, c :: 0 <= k < |r| && c in candidates && c.symbol == r[k].symbol ==> c.winRate <= r[k].winRate) &&
    (|r| < 10 ==> forall c :: c in candidates ==> exists k :: 0 <= k < |r| && r[k].symbol == c.symbol) &&
    (|r| == 10 ==> forall c :: c in candidates && (forall k :: 0 <= k < 10 ==> r[k].symbol != c.symbol) ==>
                     c.winRate <= r[9].winRate)
  }

  /** Sorting, keeping the first row per symbol and taking ten yields a ranking. */
  lemma RankIsRanking(candidates: seq<Candidate>)
    ensures IsRanking(Rank(candidates), candidates)
  {
    RankIsBestPerSymbol(candidates);
    RankIsTopTen(candidates);
  }

  /** A term's ranking: a ranking of the term's candidates, each with the term's minimum of trades. */
  predicate IsTermRanking(r: seq<Candidate>, list: seq<Sector>, results: seq<SymbolResult>, t: Term)
  {
    IsRanking(r, Candidates(list, results, t)) &&
    forall k :: 0 <= k < |r| ==> r[k].trades >= MinTrades(t)
  }

  /** Ranking a term's candidates gives that term's ranking. */
  lemma TermRanking(list: seq<Sector>, results: seq<SymbolResult>, t: Term)
    ensures IsTermRanking(Rank(Candidates(list, results, t)), list, results, t)
  {
    var candidates := Candidates(list, results, t);
    var r := Rank(candidates);
    RankIsRanking(candidates);
    forall k | 0 <= k < |r|
      ensures r[k].trades >= MinTrades(t)
    {
      CandidatesQualify(list, results, t, r[k]);
    }
  }

  /** The two rankings and the counts reported with them. */
  datatype Rankings = Rankings(shortTerm: seq<Candidate>, longTerm: seq<Candidate>,
                               totalStocksScanned: nat, totalStrategies: nat)

  /** `generateRankings` without the recommendations: short and long rankings ranked independently. */
  function GenerateRankings(list: seq<Sector>, results: seq<SymbolResult>): (r: Rankings)
    ensures r.totalStocksScanned == |results| && r.totalStrategies == |SupportedKeys|
    ensures IsTermRanking(r.shortTerm, list, results, ShortTerm)
    ensures IsTermRanking(r.longTerm, list, results, LongTerm)
  {
    TermRanking(list, results, ShortTerm);
    TermRanking(list, results, LongTerm);
    Rankings(Rank(Candidates(list, results, ShortTerm)), Rank(Candidates(list, results, LongTerm)),
             |results|, |SupportedKeys|)
  }

  /** A calendar month number, as `getMonth() + 1` yields it. */
  type Month = m: int | 1 <= m <= 12 witness 1

  /** A trade as the month statistics see it: its entry month, absent when the date does not parse, and its return. */
  datatype MonthTrade = MonthTrade(month: Option<Month>, pnl: real)

  /** Trades entered in month m. */
  function MonthTotal(trades: seq<MonthTrade>, m: Month): nat
  {
    if |trades| == 0 then 0
    else (if trades[0].month == Some(m) then 1 else 0) + MonthTotal(trades[1..], m)
  }

  /** Winning trades entered in month m. */
  function MonthWins(trades: seq<MonthTrade>, m: Month): (w: nat)
    ensures w <= MonthTotal(trades, m)
  {
    if |trades| == 0 then 0
    else (if trades[0].month == Some(m) && trades[0].pnl > 0.0 then 1 else 0) + MonthWins(trades[1..], m)
  }

  /** The win share of month m, for months with at least two trades. */
  function MonthScore(trades: seq<MonthTrade>, m: Month): (r: Option<real>)
    ensures r.Some? <==> MonthTotal(trades, m) >= 2
    ensures r.Some? ==> 0.0 <= r.value <= 1.0
    ensures r.Some? ==> (r.value > 0.0 <==> MonthWins(trades, m) > 0)
  {
    var total := MonthTotal(trades, m);
    var wins := MonthWins(trades, m);
    if total >= 2 then
      DivUnit(wins as real, total as real);
      Some(wins as real / total as real)
    else None
  }

  /** The scores of months 1 to 12, at indices 0 to 11. */
  function MonthScores(trades: seq<MonthTrade>): (r: seq<Option<real>>)
    ensures |r| == 12
    ensures forall k :: 0 <= k < 12 ==> r[k] == MonthScore(trades, k + 1)
  {
    seq(12, k requires 0 <= k < 12 => MonthScore(trades, k + 1))
  }

  /**
   `findBestMonth`: nothing for an empty list; otherwise the earliest month
   of the highest win share among months with at least two trades, and
   nothing when no such month has a win.
   */
  function BestMonth(trades: seq<MonthTrade>): (r: Option<Month>)
    ensures |trades| == 0 ==> r.None?
    ensures r.Some? ==> MonthTotal(trades, r.value) >= 2 && MonthWins(trades, r.value) > 0
    ensures r.Some? ==> forall m: Month :: MonthTotal(trades, m) >= 2 ==>
              MonthScore(trades, m).value <= MonthScore(trades, r.value).value
    ensures r.Some? ==> forall m: Month :: m < r.value && MonthTotal(trades, m) >= 2 ==>
              MonthScore(trades, m).value < MonthScore(trades, r.value).value
    ensures |trades| > 0 ==>
              (r.None? <==> forall m: Month :: MonthTotal(trades, m) >= 2 ==> MonthWins(trades, m) == 0)
  {
    if |trades| == 0 then None
    else
      var scores := MonthScores(trades);
      match FirstBest(scores)
      case None =>
        assert forall m: Month :: MonthTotal(trades, m) >= 2 ==> MonthWins(trades, m) == 0 by {
          forall m: Month | MonthTotal(trades, m) >= 2
            ensures MonthWins(trades, m) == 0
          {
            assert scores[m - 1] == MonthScore(trades, m);
          }
        }
        None
      case Some(k) =>
        var best: Month := k + 1;
        forall m: Month | MonthTotal(trades, m) >= 2
          ensures MonthScore(trades, m).value <= MonthScore(trades, best).value
          ensures m < best ==> MonthScore(trades, m).value < MonthScore(trades, best).value
        {
          assert scores[m - 1] == MonthScore(trades, m);
        }
        Some(best)
  }

  /** A month without a win is never the best, however many trades it has. */
  lemma WinlessMonthNeverBest(trades: seq<MonthTrade>, m: Month)
    requires MonthWins(trades, m) == 0
    ensures BestMonth(trades) != Some(m)
  {
  }
}
