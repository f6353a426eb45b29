/**
 Hypothetical trades of the backtester: every entry signal buys at that
 bar's close and sells either a fixed number of bars later
 (`evaluateHypotheticalTrades`) or at the first exit signal after it
 (`evaluateSignalTrades`).
 */
module Trades {
  import opened JsValues
  import opened MarketData
  import opened Signals

  datatype Trade = Trade(entryDate: int, entryPrice: real, exitDate: int, exitPrice: real, days: int, pnl: real)

  /** Every close can be divided by: the return of a trade is relative to its entry close. */
  predicate NonZeroCloses(bars: seq<Bar>)
  {
    forall i :: 0 <= i < |bars| ==> bars[i].close != 0.0
  }

  /** Buy at the close of bar `entry`, sell at the close of bar `exit`. */
  function MakeTrade(bars: seq<Bar>, entry: nat, exit: nat): (t: Trade)
    requires entry < |bars| && exit < |bars|
    requires NonZeroCloses(bars)
    ensures t.entryDate == bars[entry].date && t.exitDate == bars[exit].date
    ensures t.entryPrice == bars[entry].close && t.exitPrice == bars[exit].close
    ensures t.days == exit - entry
    ensures t.entryPrice * (1.0 + t.pnl) == t.exitPrice
    ensures t.entryPrice > 0.0 ==> (t.pnl > 0.0 <==> t.exitPrice > t.entryPrice)
  {
    var entryPrice := bars[entry].close;
    var exitPrice := bars[exit].close;
    var pnl := (exitPrice - entryPrice) / entryPrice;
    assert pnl * entryPrice == exitPrice - entryPrice;
    Trade(bars[entry].date, entryPrice, bars[exit].date, exitPrice, exit - entry, pnl)
  }

  /** The entries whose horizon `entry + horizon` still falls inside the data, in their original order. */
  function KeptEntries(entries: seq<nat>, n: nat, horizon: nat): (r: seq<nat>)
    ensures |r| <= |entries|
    ensures forall e :: e in r <==> e in entries && e + horizon < n
  {
    if |entries| == 0 then []
    else
      var rest := KeptEntries(entries[1..], n, horizon);
      assert forall e :: e in entries[1..] ==> e in entries;
      if entries[0] + horizon < n then [entries[0]] + rest else rest
  }

  /** Filtering keeps ascending order. */
  lemma {:induction false} KeptEntriesAscending(entries: seq<nat>, n: nat, horizon: nat)
    requires Ascending(entries)
    ensures Ascending(KeptEntries(entries, n, horizon))
  {
    if |entries| > 0 {
      KeptEntriesAscending(entries[1..], n, horizon);
      var rest := KeptEntries(entries[1..], n, horizon);
      forall k | 0 <= k < |rest|
        ensures entries[0] < rest[k]
      {
        assert rest[k] in entries[1..];
      }
    }
  }

  /** `evaluateHypotheticalTrades` before the statistics: one trade per entry whose horizon is inside the data. */
  function FixedHorizonTrades(bars: seq<Bar>, entries: seq<nat>, horizon: nat): (r: seq<Trade>)
    requires NonZeroCloses(bars)
    ensures |r| <= |entries|
    ensures forall k :: 0 <= k < |r| ==> r[k].days == horizon
  {
    if |entries| == 0 then []
    else
      var idx := entries[0];
      var rest := FixedHorizonTrades(bars, entries[1..], horizon);
      if idx + horizon < |bars| then [MakeTrade(bars, idx, idx + horizon)] + rest else rest
  }

  /** Trade t buys at the entry and sells `horizon` bars later, inside the data. */
  predicate HeldFrom(bars: seq<Bar>, entry: nat, horizon: nat, t: Trade)
  {
    NonZeroCloses(bars) && entry + horizon < |bars| && t == MakeTrade(bars, entry, entry + horizon)
  }

  /** The k-th trade buys at the k-th entry of `kept` and sells `horizon` bars later. */
  predicate PairedWithHorizon(bars: seq<Bar>, kept: seq<nat>, horizon: nat, t: seq<Trade>)
  {
    |t| == |kept| && forall k :: 0 <= k < |kept| ==> HeldFrom(bars, kept[k], horizon, t[k])
  }

  lemma HorizonCons(bars: seq<Bar>, e: nat, kept: seq<nat>, horizon: nat, t: seq<Trade>, first: Trade)
    requires PairedWithHorizon(bars, kept, horizon, t)
    requires HeldFrom(bars, e, horizon, first)
    ensures PairedWithHorizon(bars, [e] + kept, horizon, [first] + t)
  {
    forall k | 1 <= k < |kept| + 1
      ensures HeldFrom(bars, ([e] + kept)[k], horizon, ([first] + t)[k])
    {
      assert ([e] + kept)[k] == kept[k - 1];
    }
  }

  /** The fixed-horizon trades are exactly those of the kept entries, one each, in order. */
  lemma {:induction false} FixedHorizonTradesOfKeptEntries(bars: seq<Bar>, entries: seq<nat>, horizon: nat)
    requires NonZeroCloses(bars)
    ensures PairedWithHorizon(bars, KeptEntries(entries, |bars|, horizon), horizon, FixedHorizonTrades(bars, entries, horizon))
  {
    if |entries| > 0 {
      var rest := entries[1..];
      FixedHorizonTradesOfKeptEntries(bars, rest, horizon);
      if entries[0] + horizon < |bars| {
        var first := MakeTrade(bars, entries[0], entries[0] + horizon);
        HorizonCons(bars, entries[0], KeptEntries(rest, |bars|, horizon), horizon, FixedHorizonTrades(bars, rest, horizon), first);
      }
    }
  }

  /** A longer horizon never produces more trades. */
  lemma {:induction false} LongerHorizonFewerTrades(bars: seq<Bar>, entries: seq<nat>, h1: nat, h2: nat)
    requires NonZeroCloses(bars)
    requires h1 <= h2
    ensures |FixedHorizonTrades(bars, entries, h2)| <= |FixedHorizonTrades(bars, entries, h1)|
  {
    if |entries| > 0 {
      LongerHorizonFewerTrades(bars, entries[1..], h1, h2);
    }
  }

  /** `exitIndices.find(e => e > entryIdx)`: the first exit in list order after the entry. */
  function FirstAfter(exits: seq<nat>, entry: nat): (r: Option<nat>)
    ensures r.None? <==> forall k :: 0 <= k < |exits| ==> exits[k] <= entry
    ensures r.Some? ==> exists k :: 0 <= k < |exits| && exits[k] == r.value &&
                          forall j :: 0 <= j < k ==> exits[j] <= entry
    ensures r.Some? ==> r.value > entry && r.value in exits
  {
    if |exits| == 0 then None
    else if exits[0] > entry then Some(exits[0])
    else
      var r := FirstAfter(exits[1..], entry);
      if r.Some? then
        var k :| 0 <= k < |exits[1..]| && exits[1..][k] == r.value && forall j :: 0 <= j < k ==> exits[1..][j] <= entry;
        assert exits[k + 1] == r.value;
        r
      else r
  }

  /** On an ascending exit list the first exit after the entry is the earliest one. */
  lemma FirstAfterIsEarliest(exits: seq<nat>, entry: nat)
    requires Ascending(exits)
    requires FirstAfter(exits, entry).Some?
    ensures forall e :: e in exits && e > entry ==> FirstAfter(exits, entry).value <= e
  {
    var v := FirstAfter(exits, entry).value;
    var k :| 0 <= k < |exits| && exits[k] == v && forall j :: 0 <= j < k ==> exits[j] <= entry;
    forall e | e in exits && e > entry
      ensures v <= e
    {
      var m :| 0 <= m < |exits| && exits[m] == e;
      assert k <= m;
      if m > k {
        assert exits[k] < exits[m];
      }
    }
  }

  /** `evaluateSignalTrades` before the statistics: each entry with a later exit trades until that exit. */
  function SignalTrades(bars: seq<Bar>, entries: seq<nat>, exits: seq<nat>): (r: seq<Trade>)
    requires NonZeroCloses(bars)
    requires forall k :: 0 <= k < |exits| ==> exits[k] < |bars|
    ensures |r| <= |entries|
    ensures forall k :: 0 <= k < |r| ==> r[k].days > 0
  {
    if |entries| == 0 then []
    else
      var entry := entries[0];
      var rest := SignalTrades(bars, entries[1..], exits);
      match FirstAfter(exits, entry)
      case None => rest
      case Some(exit) => [MakeTrade(bars, entry, exit)] + rest
  }

  /** The entries that some exit follows, in their original order. */
  function WithExit(entries: seq<nat>, exits: seq<nat>): (r: seq<nat>)
    ensures |r| <= |entries|
    ensures forall e :: e in r <==> e in entries && FirstAfter(exits, e).Some?
  {
    if |entries| == 0 then []
    else
      var rest := WithExit(entries[1..], exits);
      assert forall e :: e in entries[1..] ==> e in entries;
      if FirstAfter(exits, entries[0]).Some? then [entries[0]] + rest else rest
  }

  /** There is one signal trade per entry that is followed by an exit; none when every exit precedes every entry. */
  lemma {:induction false} SignalTradesCount(bars: seq<Bar>, entries: seq<nat>, exits: seq<nat>)
    requires NonZeroCloses(bars)
    requires forall k :: 0 <= k < |exits| ==> exits[k] < |bars|
    ensures |SignalTrades(bars, entries, exits)| == |WithExit(entries, exits)|
    ensures (forall k :: 0 <= k < |exits| ==> forall j :: 0 <= j < |entries| ==> exits[k] <= entries[j]) ==>
            SignalTrades(bars, entries, exits) == []
  {
    if |entries| > 0 {
      SignalTradesCount(bars, entries[1..], exits);
    }
  }

  /** Trade t buys at the entry and sells at the first exit after it. */
  predicate ClosedAtFirstExit(bars: seq<Bar>, exits: seq<nat>, entry: nat, t: Trade)
  {
    NonZeroCloses(bars) && FirstAfter(exits, entry).Some? && FirstAfter(exits, entry).value < |bars| &&
    t == MakeTrade(bars, entry, FirstAfter(exits, entry).value)
  }

  /** The k-th trade buys at the k-th entry of w and sells at the first exit after it. */
  predicate PairedWithFirstExits(bars: seq<Bar>, exits: seq<nat>, w: seq<nat>, t: seq<Trade>)
  {
    |t| == |w| && forall k :: 0 <= k < |w| ==> ClosedAtFirstExit(bars, exits, w[k], t[k])
  }

  lemma PairedCons(bars: seq<Bar>, exits: seq<nat>, e: nat, w: seq<nat>, t: seq<Trade>, first: Trade)
    requires PairedWithFirstExits(bars, exits, w, t)
    requires ClosedAtFirstExit(bars, exits, e, first)
    ensures PairedWithFirstExits(bars, exits, [e] + w, [first] + t)
  {
    forall k | 1 <= k < |w| + 1
      ensures ClosedAtFirstExit(bars, exits, ([e] + w)[k], ([first] + t)[k])
    {
      assert ([e] + w)[k] == w[k - 1];
    }
  }

  /**
   The k-th signal trade buys at the k-th entry that has a later exit and
   sells at the first exit after it in list order (the earliest one, by
   FirstAfterIsEarliest, when the exits ascend).
   */
  lemma {:induction false} SignalTradesCloseAtFirstExit(bars: seq<Bar>, entries: seq<nat>, exits: seq<nat>)
    requires NonZeroCloses(bars)
    requires forall k :: 0 <= k < |exits| ==> exits[k] < |bars|
    ensures PairedWithFirstExits(bars, exits, WithExit(entries, exits), SignalTrades(bars, entries, exits))
  {
    if |entries| > 0 {
      var rest := entries[1..];
      SignalTradesCloseAtFirstExit(bars, rest, exits);
      var found := FirstAfter(exits, entries[0]);
      if found.Some? {
        assert found.value in exits;
        var first := MakeTrade(bars, entries[0], found.value);
        assert ClosedAtFirstExit(bars, exits, entries[0], first);
        PairedCons(bars, exits, entries[0], WithExit(rest, exits), SignalTrades(bars, rest, exits), first);
      }
    }
  }
}
