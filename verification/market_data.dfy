/**
 The price series every indicator consumes: one bar per trading day, in
 chronological order, and the window extremes (highest high, lowest low)
 that the oscillators and Ichimoku read off it.
 */
module MarketData {
  import opened JsValues

  /** One trading day; `date` is the timestamp the data source supplies. */
  datatype Bar = Bar(date: int, open: real, high: real, low: real, close: real, volume: nat)

  /** The bar invariant of the price feed: positive prices, open and close inside [low, high]. */
  predicate ValidBar(b: Bar)
  {
    0.0 < b.low && b.low <= b.open <= b.high && b.low <= b.close <= b.high
  }

  predicate ValidBars(bars: seq<Bar>)
  {
    forall i :: 0 <= i < |bars| ==> ValidBar(bars[i])
  }

  /** The adapter that hands a bar series to the numeric-sequence indicators. */
  function Closes(bars: seq<Bar>): (r: seq<Value>)
    ensures |r| == |bars|
    ensures forall i :: 0 <= i < |bars| ==> r[i] == Some(bars[i].close)
  {
    seq(|bars|, i requires 0 <= i < |bars| => Some(bars[i].close))
  }

  /** `Math.max(...bars.slice(lo, hi).map(d => d.high))` on a non-empty window. */
  function HighestHigh(bars: seq<Bar>, lo: nat, hi: nat): (r: real)
    requires lo < hi <= |bars|
    ensures forall k :: lo <= k < hi ==> bars[k].high <= r
    ensures exists k :: lo <= k < hi && bars[k].high == r
    decreases hi - lo
  {
    if hi - lo == 1 then bars[lo].high else Max(bars[lo].high, HighestHigh(bars, lo + 1, hi))
  }

  /** `Math.min(...bars.slice(lo, hi).map(d => d.low))` on a non-empty window. */
  function LowestLow(bars: seq<Bar>, lo: nat, hi: nat): (r: real)
    requires lo < hi <= |bars|
    ensures forall k :: lo <= k < hi ==> r <= bars[k].low
    ensures exists k :: lo <= k < hi && bars[k].low == r
    decreases hi - lo
  {
    if hi - lo == 1 then bars[lo].low else Min(bars[lo].low, LowestLow(bars, lo + 1, hi))
  }

  /** On valid bars a window's lowest low is positive and at most its highest high,
      and every close of the window lies between the two. */
  lemma WindowRange(bars: seq<Bar>, lo: nat, hi: nat)
    requires lo < hi <= |bars|
    requires ValidBars(bars)
    ensures 0.0 < LowestLow(bars, lo, hi) <= HighestHigh(bars, lo, hi)
    ensures forall k :: lo <= k < hi ==>
              LowestLow(bars, lo, hi) <= bars[k].close <= HighestHigh(bars, lo, hi)
  {
    var l := LowestLow(bars, lo, hi);
    var k :| lo <= k < hi && bars[k].low == l;
    assert ValidBar(bars[k]);
  }
}
