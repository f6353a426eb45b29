/**
 The backtester's entry point (`Backtester.run`): pick a strategy by key,
 derive its entry and exit signals from the standard-setting indicators,
 and report the statistics of trades held for each fixed horizon and of
 trades closed by the strategy's own exit signal.
 */
module Backtest {
  import opened JsValues
  import opened MarketData
  import opened MovingAverages
  import opened Macd
  import opened Volatility
  import opened Oscillators
  import opened Ichimoku
  import opened DirectionalMovement
  import opened AverageDirectionalIndex
  import opened Signals
  import opened Trades
  import opened Statistics

  /** Holding periods in bars: the short horizons, and the long ones of about 3, 6, 9 and 12 months. */
  const ShortHorizons: seq<nat> := [3, 5, 9, 14]
  const LongHorizons: seq<nat> := [65, 130, 195, 260]

  datatype Strategy =
    | RsiLevels
    | BollingerBands
    | MacdCrossover
    | SmaCrossover(period: nat)
    | KumoBreakout
    | AdxTrend

  /** The strategies the backtester offers. */
  predicate Supported(s: Strategy)
  {
    s.SmaCrossover? ==> s.period in {20, 50, 200}
  }

  /** The key of a supported strategy. */
  function KeyOf(s: Strategy): string
    requires Supported(s)
  {
    match s
    case RsiLevels => "rsi"
    case BollingerBands => "bollinger"
    case MacdCrossover => "macd"
    case SmaCrossover(p) => if p == 20 then "sma20" else if p == 50 then "sma50" else "sma200"
    case KumoBreakout => "ichimoku"
    case AdxTrend => "adx"
  }

  /** The strategy `run` dispatches to for a key; any other key selects none. */
  function StrategyOf(key: string): (r: Option<Strategy>)
    ensures r.Some? ==> Supported(r.value)
  {
    if key == "rsi" then Some(RsiLevels)
    else if key == "bollinger" then Some(BollingerBands)
    else if key == "macd" then Some(MacdCrossover)
    else if key == "sma20" then Some(SmaCrossover(20))
    else if key == "sma50" then Some(SmaCrossover(50))
    else if key == "sma200" then Some(SmaCrossover(200))
    else if key == "ichimoku" then Some(KumoBreakout)
    else if key == "adx" then Some(AdxTrend)
    else None
  }

  /** The keys of the offered strategies, in the order they are listed. */
  const SupportedKeys: seq<string> := ["rsi", "bollinger", "macd", "sma20", "sma50", "sma200", "ichimoku", "adx"]

  /** Keys and strategies correspond one to one: every listed key selects a strategy, and that strategy's key is the key. */
  lemma KeysRoundTrip(s: Strategy, key: string)
    ensures Supported(s) ==> StrategyOf(KeyOf(s)) == Some(s)
    ensures StrategyOf(key).Some? <==> key in SupportedKeys
    ensures StrategyOf(key).Some? ==> KeyOf(StrategyOf(key).value) == key
  {
  }

  datatype SignalSet = SignalSet(entries: seq<nat>, exits: seq<nat>)

  /** Kumo breakout at bar i: the previous close on or below the cloud top, this close above it. */
  predicate KumoEntryAt(bars: seq<Bar>, cloud: IchimokuLines, i: nat)
    requires 1 <= i < |bars| && |cloud.spanA| == |cloud.spanB| == |bars|
  {
    var top := Max(Num(cloud.spanA[i]), Num(cloud.spanB[i]));
    bars[i - 1].close <= top && bars[i].close > top
  }

  /** Kumo breakdown at bar i: the previous close on or above the cloud bottom, this close below it. */
  predicate KumoExitAt(bars: seq<Bar>, cloud: IchimokuLines, i: nat)
    requires 1 <= i < |bars| && |cloud.spanA| == |cloud.spanB| == |bars|
  {
    var bottom := Min(Num(cloud.spanA[i]), Num(cloud.spanB[i]));
    bars[i - 1].close >= bottom && bars[i].close < bottom
  }

  /** ADX above 20 and DI+ crossing above DI- (`up`) or below it (`down`) at bar i. */
  predicate AdxCrossAt(lines: AdxLines, dir: Direction, i: nat)
    requires 1 <= i < |lines.adx| && |lines.diPlus| == |lines.diMinus| == |lines.adx|
  {
    var plusBefore, minusBefore := NumberOf(lines.diPlus[i - 1]), NumberOf(lines.diMinus[i - 1]);
    var plusNow, minusNow := NumberOf(lines.diPlus[i]), NumberOf(lines.diMinus[i]);
    Less(Fin(20.0), NumberOf(lines.adx[i])) &&
    match dir
    case Up => AtMost(plusBefore, minusBefore) && Less(minusNow, plusNow)
    case Down => AtMost(minusBefore, plusBefore) && Less(plusNow, minusNow)
  }

  /** The entry and exit indices of a strategy; no strategy gives no signals. */
  function StrategySignals(bars: seq<Bar>, strategy: Option<Strategy>, root: real -> real): (r: SignalSet)
    requires ValidBars(bars)
    requires strategy.Some? ==> Supported(strategy.value)
    ensures Ascending(r.entries) && Ascending(r.exits)
    ensures forall k :: 0 <= k < |r.entries| ==> r.entries[k] < |bars|
    ensures forall k :: 0 <= k < |r.exits| ==> r.exits[k] < |bars|
    ensures strategy.None? ==> r == SignalSet([], [])
  {
    var n := |bars|;
    if strategy.None? then SignalSet([], [])
    else match strategy.value
    case RsiLevels =>
      var rsi := Rsi(bars, 14);
      SignalSet(FindConditions(rsi, v => v < 30.0, 14), FindConditions(rsi, v => v > 70.0, 14))
    case BollingerBands =>
      var bb := Bollinger(bars, 20, 2.0, root);
      SignalSet(
        Indices(20, seq(n, i requires 0 <= i < n => bars[i].close < Num(bb.lower[i]))),
        Indices(20, seq(n, i requires 0 <= i < n => bars[i].close > Num(bb.upper[i]))))
    case MacdCrossover =>
      var m := CalculateMacd(bars, 12, 26, 9);
      SignalSet(FindCrossovers(m.macd, m.signal, Up, 26), FindCrossovers(m.macd, m.signal, Down, 26))
    case SmaCrossover(p) =>
      var sma := Sma(Closes(bars), p);
      SignalSet(FindCrossovers(Closes(bars), sma, Up, p), FindCrossovers(Closes(bars), sma, Down, p))
    case KumoBreakout =>
      var cloud := CalculateIchimoku(bars);
      SignalSet(
        Indices(52, seq(n, i requires 0 <= i < n => i >= 52 && KumoEntryAt(bars, cloud, i))),
        Indices(52, seq(n, i requires 0 <= i < n => i >= 52 && KumoExitAt(bars, cloud, i))))
    case AdxTrend =>
      var lines := Adx(bars, 14);
      SignalSet(
        Indices(14, seq(n, i requires 0 <= i < n => i >= 14 && AdxCrossAt(lines, Up, i))),
        Indices(14, seq(n, i requires 0 <= i < n => i >= 14 && AdxCrossAt(lines, Down, i))))
  }

  datatype Report = Report(short: map<nat, Stats>, long: map<nat, Stats>, signal: Stats)

  /** The two horizon tables of a report. */
  datatype Term = ShortTerm | LongTerm

  /**
   The order in which a table's keys are visited: integer-like object keys
   are enumerated in ascending order, and the horizon lists are ascending.
   */
  function Horizons(t: Term): seq<nat>
  {
    if t.ShortTerm? then ShortHorizons else LongHorizons
  }

  function Table(r: Report, t: Term): map<nat, Stats>
  {
    if t.ShortTerm? then r.short else r.long
  }

  /**
   The statistics of horizon h: those of one trade per entry whose horizon
   stays inside the data, bought at the entry and sold exactly h bars
   later, in entry order.
   */
  predicate HeldForHorizon(bars: seq<Bar>, entries: seq<nat>, h: nat, s: Stats)
  {
    NonZeroCloses(bars) && s == CalculateStats(s.trades) &&
    PairedWithHorizon(bars, KeptEntries(entries, |bars|, h), h, s.trades)
  }

  /**
   The signal statistics: those of one trade per entry that some exit
   follows, sold at the first exit after it, in entry order.
   */
  predicate ClosedBySignals(bars: seq<Bar>, entries: seq<nat>, exits: seq<nat>, s: Stats)
  {
    s == CalculateStats(s.trades) && PairedWithFirstExits(bars, exits, WithExit(entries, exits), s.trades)
  }

  lemma HorizonTradesHeld(bars: seq<Bar>, entries: seq<nat>, h: nat)
    requires NonZeroCloses(bars)
    ensures HeldForHorizon(bars, entries, h, CalculateStats(FixedHorizonTrades(bars, entries, h)))
  {
    FixedHorizonTradesOfKeptEntries(bars, entries, h);
  }

  lemma SignalTradesClosed(bars: seq<Bar>, entries: seq<nat>, exits: seq<nat>)
    requires NonZeroCloses(bars)
    requires forall k :: 0 <= k < |exits| ==> exits[k] < |bars|
    ensures ClosedBySignals(bars, entries, exits, CalculateStats(SignalTrades(bars, entries, exits)))
  {
    SignalTradesCloseAtFirstExit(bars, entries, exits);
  }

  /** One statistics entry per horizon, each of the trades held that long from the given entries. */
  function HorizonStats(bars: seq<Bar>, entries: seq<nat>, horizons: seq<nat>): (m: map<nat, Stats>)
    requires ValidBars(bars)
    ensures m.Keys == set h | h in horizons
    ensures forall h :: h in m ==> HeldForHorizon(bars, entries, h, m[h])
    ensures forall h :: h in m ==> m[h].count <= |entries|
    ensures forall h :: h in m ==> forall k :: 0 <= k < |m[h].trades| ==> m[h].trades[k].days == h
  {
    NonZeroClosesOfValid(bars);
    assert forall h :: h in horizons ==>
             HeldForHorizon(bars, entries, h, CalculateStats(FixedHorizonTrades(bars, entries, h))) by {
      forall h | h in horizons
        ensures HeldForHorizon(bars, entries, h, CalculateStats(FixedHorizonTrades(bars, entries, h)))
      {
        HorizonTradesHeld(bars, entries, h);
      }
    }
    map h | h in horizons :: CalculateStats(FixedHorizonTrades(bars, entries, h))
  }

  lemma NonZeroClosesOfValid(bars: seq<Bar>)
    requires ValidBars(bars)
    ensures NonZeroCloses(bars)
  {
    forall i | 0 <= i < |bars|
      ensures bars[i].close != 0.0
    {
      assert ValidBar(bars[i]);
    }
  }

  lemma HorizonKeys()
    ensures (set h | h in ShortHorizons) == {3, 5, 9, 14}
    ensures (set h | h in LongHorizons) == {65, 130, 195, 260}
  {
  }

  /**
   The report for a given set of signals: one statistics entry per short
   and per long horizon, each of trades held exactly that many bars, plus
   the statistics of trades closed by the first exit after their entry.
   Without entries every statistics entry is the empty one.
   */
  function ReportOf(bars: seq<Bar>, signals: SignalSet): (r: Report)
    requires ValidBars(bars)
    requires forall k :: 0 <= k < |signals.exits| ==> signals.exits[k] < |bars|
    ensures r.short.Keys == {3, 5, 9, 14}
    ensures r.long.Keys == {65, 130, 195, 260}
    ensures forall h :: h in r.short ==> forall k :: 0 <= k < |r.short[h].trades| ==> r.short[h].trades[k].days == h
    ensures forall h :: h in r.long ==> forall k :: 0 <= k < |r.long[h].trades| ==> r.long[h].trades[k].days == h
    ensures forall k :: 0 <= k < |r.signal.trades| ==> r.signal.trades[k].days > 0
    ensures forall h :: h in r.short ==> HeldForHorizon(bars, signals.entries, h, r.short[h])
    ensures forall h :: h in r.long ==> HeldForHorizon(bars, signals.entries, h, r.long[h])
    ensures ClosedBySignals(bars, signals.entries, signals.exits, r.signal)
    ensures r.signal.count <= |signals.entries|
    ensures signals.entries == [] ==>
              r.signal == ZeroStats && (forall h :: h in r.short ==> r.short[h] == ZeroStats)
              && (forall h :: h in r.long ==> r.long[h] == ZeroStats)
  {
    NonZeroClosesOfValid(bars);
    HorizonKeys();
    SignalTradesClosed(bars, signals.entries, signals.exits);
    Report(HorizonStats(bars, signals.entries, ShortHorizons),
           HorizonStats(bars, signals.entries, LongHorizons),
           CalculateStats(SignalTrades(bars, signals.entries, signals.exits)))
  }

  /** `Backtester.run`: the report of the signals of the strategy named by the key; an unknown key gives no signals. */
  function Run(bars: seq<Bar>, key: string, root: real -> real): (r: Report)
    requires ValidBars(bars)
    ensures r.short.Keys == {3, 5, 9, 14}
    ensures r.long.Keys == {65, 130, 195, 260}
    ensures forall h :: h in r.short ==> forall k :: 0 <= k < |r.short[h].trades| ==> r.short[h].trades[k].days == h
    ensures forall h :: h in r.long ==> forall k :: 0 <= k < |r.long[h].trades| ==> r.long[h].trades[k].days == h
    ensures forall k :: 0 <= k < |r.signal.trades| ==> r.signal.trades[k].days > 0
    ensures forall h :: h in r.short ==> HeldForHorizon(bars, StrategySignals(bars, StrategyOf(key), root).entries, h, r.short[h])
    ensures forall h :: h in r.long ==> HeldForHorizon(bars, StrategySignals(bars, StrategyOf(key), root).entries, h, r.long[h])
    ensures ClosedBySignals(bars, StrategySignals(bars, StrategyOf(key), root).entries,
                            StrategySignals(bars, StrategyOf(key), root).exits, r.signal)
    ensures StrategyOf(key).None? ==>
              r.signal == ZeroStats && (forall h :: h in r.short ==> r.short[h] == ZeroStats)
              && (forall h :: h in r.long ==> r.long[h] == ZeroStats)
  {
    ReportOf(bars, StrategySignals(bars, StrategyOf(key), root))
  }

  /** The count a report gives for horizon h is the number of trades held h bars. */
  lemma ReportCount(bars: seq<Bar>, signals: SignalSet, h: nat)
    requires ValidBars(bars)
    requires forall k :: 0 <= k < |signals.exits| ==> signals.exits[k] < |bars|
    requires h in {3, 5, 9, 14, 65, 130, 195, 260}
    ensures NonZeroCloses(bars)
    ensures (ReportOf(bars, signals).short + ReportOf(bars, signals).long)[h].count ==
            |FixedHorizonTrades(bars, signals.entries, h)|
  {
    NonZeroClosesOfValid(bars);
  }

  /** Longer horizons report no more trades than shorter ones, across the short and the long table. */
  lemma ReportHorizonCounts(bars: seq<Bar>, signals: SignalSet, h1: nat, h2: nat)
    requires ValidBars(bars)
    requires forall k :: 0 <= k < |signals.exits| ==> signals.exits[k] < |bars|
    requires h1 <= h2
    requires h1 in {3, 5, 9, 14, 65, 130, 195, 260} && h2 in {3, 5, 9, 14, 65, 130, 195, 260}
    ensures (ReportOf(bars, signals).short + ReportOf(bars, signals).long)[h2].count <=
            (ReportOf(bars, signals).short + ReportOf(bars, signals).long)[h1].count
  {
    ReportCount(bars, signals, h1);
    ReportCount(bars, signals, h2);
    LongerHorizonFewerTrades(bars, signals.entries, h1, h2);
  }

  /** Longer horizons report no more trades than shorter ones, across the short and the long table. */
  lemma RunHorizonCounts(bars: seq<Bar>, key: string, root: real -> real, h1: nat, h2: nat)
    requires ValidBars(bars)
    requires h1 <= h2
    requires h1 in {3, 5, 9, 14, 65, 130, 195, 260} && h2 in {3, 5, 9, 14, 65, 130, 195, 260}
    ensures (Run(bars, key, root).short + Run(bars, key, root).long)[h2].count <=
            (Run(bars, key, root).short + Run(bars, key, root).long)[h1].count
  {
    ReportHorizonCounts(bars, StrategySignals(bars, StrategyOf(key), root), h1, h2);
  }

  /** Every signal-exit trade is matched to an entry, so there are never more of them than entries. */
  lemma SignalTradesAtMostEntries(bars: seq<Bar>, key: string, root: real -> real)
    requires ValidBars(bars)
    ensures Run(bars, key, root).signal.count <= |StrategySignals(bars, StrategyOf(key), root).entries|
  {
  }

  /** RSI entries (below 30) and exits (above 70) never fall on the same bar. */
  lemma RsiSignalsDisjoint(bars: seq<Bar>, root: real -> real)
    requires ValidBars(bars)
    ensures var s := StrategySignals(bars, Some(RsiLevels), root);
            forall i :: i in s.entries ==> i !in s.exits
  {
  }

  /**
   Between bars 52 and 76 `Math.min` reads the `null` span B as 0, so the
   cloud bottom is 0 and no close of valid bars falls below it: the Kumo
   strategy cannot exit before bar 77.
   */
  lemma KumoNoEarlyExits(bars: seq<Bar>, root: real -> real)
    requires ValidBars(bars)
    ensures forall i :: i in StrategySignals(bars, Some(KumoBreakout), root).exits ==> i >= 77
  {
    var cloud := CalculateIchimoku(bars);
    forall i | 52 <= i < 77 && i < |bars|
      ensures !KumoExitAt(bars, cloud, i)
    {
      EarlyCloud(bars, i);
      assert ValidBar(bars[i]);
    }
  }

  /** In the same stretch the cloud top is span A alone: the breakout is a cross of span A. */
  lemma KumoEarlyEntriesCrossSpanA(bars: seq<Bar>, i: nat)
    requires ValidBars(bars)
    requires 52 <= i < 77 && i < |bars|
    ensures var cloud := CalculateIchimoku(bars);
            KumoEntryAt(bars, cloud, i) <==> bars[i - 1].close <= cloud.spanA[i].value < bars[i].close
  {
    EarlyCloud(bars, i);
  }
}
