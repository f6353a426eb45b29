/**
 The dashboard's choice of the single best strategy over all backtest
 reports of one symbol (`getTopStrategy`): the first horizon, over every
 strategy's short and long tables, with the highest win rate among those
 with at least three trades.
 */
module TopStrategy {
  import opened JsValues
  import opened Lists
  import opened Statistics
  import opened Backtest

  /** One table entry the scan visits: strategy key, horizon and its statistics. */
  datatype Entry = Entry(key: string, timeframe: nat, stats: Stats)

  datatype TopStats = TopStats(winRate: real, avgReturn: real, trades: nat, wins: nat, totalReturn: real)

  /** The chosen strategy key, its statistics and its horizon. */
  datatype Top = Top(key: string, stats: TopStats, timeframe: nat)

  /** Fewest trades an entry needs to be considered. */
  const MinTopTrades: nat := 3

  /** The entries of one table, horizon by horizon. */
  function TableEntries(key: string, table: map<nat, Stats>, hs: seq<nat>): (r: seq<Entry>)
    ensures forall e :: e in r <==> exists h :: h in hs && h in table && e == Entry(key, h, table[h])
  {
    if |hs| == 0 then []
    else
      assert forall h :: h in hs <==> h == hs[0] || h in hs[1..];
      (if hs[0] in table then [Entry(key, hs[0], table[hs[0]])] else []) + TableEntries(key, table, hs[1..])
  }

  /** The entries of one strategy's report: its short table, then its long table. */
  function ReportEntries(key: string, report: Report): (r: seq<Entry>)
    ensures forall e :: e in r <==>
              exists t: Term, h :: h in Horizons(t) && h in Table(report, t) && e == Entry(key, h, Table(report, t)[h])
  {
    var short := TableEntries(key, report.short, ShortHorizons);
    var long := TableEntries(key, report.long, LongHorizons);
    forall e
      ensures e in short + long <==>
              exists t: Term, h :: h in Horizons(t) && h in Table(report, t) && e == Entry(key, h, Table(report, t)[h])
    {
      if e in short {
        var h :| h in ShortHorizons && h in report.short && e == Entry(key, h, report.short[h]);
        assert h in Horizons(ShortTerm) && h in Table(report, ShortTerm);
      } else if e in long {
        var h :| h in LongHorizons && h in report.long && e == Entry(key, h, report.long[h]);
        assert h in Horizons(LongTerm) && h in Table(report, LongTerm);
      }
      if exists t: Term, h :: h in Horizons(t) && h in Table(report, t) && e == Entry(key, h, Table(report, t)[h]) {
        var t: Term, h :| h in Horizons(t) && h in Table(report, t) && e == Entry(key, h, Table(report, t)[h]);
        if t.ShortTerm? {
          assert e in short;
        } else {
          assert e in long;
        }
      }
    }
    short + long
  }

  /** All entries, strategy by strategy in insertion order. */
  function Entries(reports: seq<(string, Report)>): seq<Entry>
  {
    if |reports| == 0 then [] else ReportEntries(reports[0].0, reports[0].1) + Entries(reports[1..])
  }

  /** The entries are exactly those of the reports' tables. */
  lemma {:induction false} EntriesMembers(reports: seq<(string, Report)>)
    ensures forall e :: e in Entries(reports) <==> exists j :: 0 <= j < |reports| && e in ReportEntries(reports[j].0, reports[j].1)
  {
    if |reports| > 0 {
      EntriesMembers(reports[1..]);
      assert forall j :: 1 <= j < |reports| ==> reports[1..][j - 1] == reports[j];
    }
  }

  /** `r.count > 0 ? r.wins / r.count * 100 : 0`. */
  function RateOf(s: Stats): (w: real)
    ensures s.count == 0 ==> w == 0.0
    ensures s.count > 0 && s.wins <= s.count ==> 0.0 <= w <= 100.0
    ensures s.count > 0 && s.wins <= s.count ==> (w == 100.0 <==> s.wins == s.count) && (w == 0.0 <==> s.wins == 0)
  {
    if s.count == 0 then 0.0
    else if s.wins <= s.count then
      RateBounds(s.wins, s.count);
      s.wins as real / s.count as real * 100.0
    else s.wins as real / s.count as real * 100.0
  }

  /** The win rate of an entry with enough trades; entries with fewer are never chosen. */
  function Score(e: Entry): Option<real>
  {
    if e.stats.count >= MinTopTrades then Some(RateOf(e.stats)) else None
  }

  function Scores(es: seq<Entry>): (r: seq<Option<real>>)
    ensures |r| == |es|
    ensures forall k :: 0 <= k < |es| ==> r[k] == Score(es[k])
  {
    seq(|es|, k requires 0 <= k < |es| => Score(es[k]))
  }

  /** Entry e, if it has enough trades to be considered, reports a win rate of at most w. */
  predicate NoBetterThan(e: Entry, w: real)
  {
    e.stats.count >= MinTopTrades ==> RateOf(e.stats) <= w
  }

  /** The result built from entry e: `avgReturn || 0` and `count || 0` change nothing for finite numbers. */
  function TopOf(e: Entry): (r: Top)
    ensures r.key == e.key && r.timeframe == e.timeframe
    ensures r.stats.trades == e.stats.count && r.stats.wins == e.stats.wins
    ensures r.stats.winRate == RateOf(e.stats) && r.stats.avgReturn == e.stats.avgReturn
    ensures r.stats.totalReturn == e.stats.avgReturn * e.stats.count as real
  {
    Top(e.key, TopStats(RateOf(e.stats), e.stats.avgReturn, e.stats.count, e.stats.wins,
                        e.stats.avgReturn * e.stats.count as real), e.timeframe)
  }

  /**
   The scan over the entries from a best win rate of 0: the earliest entry
   of the highest positive win rate among entries with at least three
   trades, and none when no such entry has a positive win rate.
   */
  function BestEntry(es: seq<Entry>): (r: Option<nat>)
    ensures r.None? <==> forall m :: 0 <= m < |es| ==> NoBetterThan(es[m], 0.0)
    ensures r.Some? ==> r.value < |es| && es[r.value].stats.count >= MinTopTrades && RateOf(es[r.value].stats) > 0.0
    ensures r.Some? ==> forall m :: 0 <= m < |es| ==> NoBetterThan(es[m], RateOf(es[r.value].stats))
    ensures r.Some? ==> forall m :: 0 <= m < r.value && es[m].stats.count >= MinTopTrades ==>
                          RateOf(es[m].stats) < RateOf(es[r.value].stats)
  {
    var scores := Scores(es);
    var r := FirstBest(scores);
    assert forall m :: 0 <= m < |es| ==> scores[m] == Score(es[m]);
    r
  }

  /**
   `getTopStrategy`: null without reports; otherwise the best entry, and
   null when there is none or when its strategy key is the empty string,
   which the final truthiness test rejects.
   */
  function GetTopStrategy(reports: seq<(string, Report)>): (r: Option<Top>)
    ensures |reports| == 0 ==> r.None?
    ensures r.Some? ==> r.value.key != ""
    ensures forall k: nat :: IsTopChoice(Entries(reports), k) && Entries(reports)[k].key != "" ==>
              r == Some(TopOf(Entries(reports)[k]))
  {
    if |reports| == 0 then None else Choose(Entries(reports))
  }

  /** The entry the scan settles on, unless its strategy key is the empty string. */
  function Choose(es: seq<Entry>): (r: Option<Top>)
    ensures r.Some? ==> r.value.key != ""
    ensures forall k: nat :: IsTopChoice(es, k) && es[k].key != "" ==> r == Some(TopOf(es[k]))
  {
    TopChoiceIsBestEntry(es);
    match BestEntry(es)
    case None => None
    case Some(k) => if es[k].key == "" then None else Some(TopOf(es[k]))
  }

  lemma ChooseIsBestEntry(es: seq<Entry>)
    ensures Choose(es).Some? ==> exists k: nat {:trigger IsTopChoice(es, k)} :: IsTopChoice(es, k) && Choose(es).value == TopOf(es[k])
    ensures (forall m :: 0 <= m < |es| ==> NoBetterThan(es[m], 0.0)) ==> Choose(es).None?
    ensures forall k: nat :: IsTopChoice(es, k) && es[k].key != "" ==> Choose(es) == Some(TopOf(es[k]))
  {
    if Choose(es).Some? {
      var k := BestEntry(es).value;
      assert IsTopChoice(es, k);
    }
  }

  /**
   Entry k is the one the scan settles on: it has at least three trades and
   a positive win rate, no considered entry beats it, and every earlier
   considered entry is strictly worse.
   */
  predicate IsTopChoice(es: seq<Entry>, k: nat)
  {
    k < |es| && es[k].stats.count >= MinTopTrades && RateOf(es[k].stats) > 0.0 &&
    (forall m :: 0 <= m < |es| ==> NoBetterThan(es[m], RateOf(es[k].stats))) &&
    (forall m :: 0 <= m < k && es[m].stats.count >= MinTopTrades ==> RateOf(es[m].stats) < RateOf(es[k].stats))
  }

  /** The scan settles on entry k exactly when k is the top choice: there is only one. */
  lemma TopChoiceIsBestEntry(es: seq<Entry>)
    ensures forall k: nat :: IsTopChoice(es, k) <==> BestEntry(es) == Some(k)
  {
    var b := BestEntry(es);
    forall k: nat | IsTopChoice(es, k)
      ensures b == Some(k)
    {
      assert !NoBetterThan(es[k], 0.0);
      assert b.Some?;
    }
  }

  /**
   A chosen strategy has a non-empty key and is the earliest entry of the
   highest positive win rate among entries with at least three trades; when
   no such entry has a positive win rate nothing is chosen.
   */
  lemma TopStrategyIsBestEntry(reports: seq<(string, Report)>)
    ensures GetTopStrategy(reports).Some? ==>
              GetTopStrategy(reports).value.key != "" &&
              exists k: nat {:trigger IsTopChoice(Entries(reports), k)} ::
                IsTopChoice(Entries(reports), k) && GetTopStrategy(reports).value == TopOf(Entries(reports)[k])
    ensures (forall m :: 0 <= m < |Entries(reports)| ==> NoBetterThan(Entries(reports)[m], 0.0)) ==>
              GetTopStrategy(reports).None?
    ensures forall k: nat :: IsTopChoice(Entries(reports), k) && Entries(reports)[k].key != "" ==>
              GetTopStrategy(reports) == Some(TopOf(Entries(reports)[k]))
  {
    var es := Entries(reports);
    ChooseIsBestEntry(es);
    if GetTopStrategy(reports).Some? {
      assert GetTopStrategy(reports) == Choose(es);
    }
  }

  /** The empty strategy key is never reported, even when its entry is the best one. */
  lemma EmptyKeyNeverChosen(reports: seq<(string, Report)>)
    requires BestEntry(Entries(reports)).Some?
    requires Entries(reports)[BestEntry(Entries(reports)).value].key == ""
    ensures GetTopStrategy(reports).None?
  {
  }

  /** No entry with fewer than three trades is ever chosen, whatever its win rate. */
  lemma FewTradesNeverChosen(reports: seq<(string, Report)>)
    ensures GetTopStrategy(reports).Some? ==> GetTopStrategy(reports).value.stats.trades >= MinTopTrades
  {
    TopStrategyIsBestEntry(reports);
  }

  /**
   The chosen entry is one of the strategies' table entries: a horizon of
   the short or long table of some report.
   */
  lemma ChosenFromSomeReport(reports: seq<(string, Report)>)
    ensures GetTopStrategy(reports).Some? ==>
              exists j, t: Term, h :: 0 <= j < |reports| && h in Horizons(t) && h in Table(reports[j].1, t) &&
                GetTopStrategy(reports).value == TopOf(Entry(reports[j].0, h, Table(reports[j].1, t)[h]))
  {
    var r := GetTopStrategy(reports);
    if r.Some? {
      var es := Entries(reports);
      var k := BestEntry(es).value;
      assert r.value == TopOf(es[k]);
      assert es[k] in es;
      EntriesMembers(reports);
      var j :| 0 <= j < |reports| && es[k] in ReportEntries(reports[j].0, reports[j].1);
      var t: Term, h :| h in Horizons(t) && h in Table(reports[j].1, t) &&
                        es[k] == Entry(reports[j].0, h, Table(reports[j].1, t)[h]);
    }
  }
}
