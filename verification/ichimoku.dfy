/**
 Ichimoku cloud (`calculateIchimoku`) with the fixed 9 / 26 / 52 / 26
 settings. Every line is aligned with the bars: the leading spans at bar i
 are the values computed 26 bars earlier, and the lagging line at bar i is
 the close 26 bars later.
 */
module Ichimoku {
  import opened JsValues
  import opened MarketData

  const ConversionPeriod: nat := 9
  const BasePeriod: nat := 26
  const SpanBPeriod: nat := 52
  const Displacement: nat := 26

  datatype IchimokuLines = IchimokuLines(
    tenkan: seq<Value>, kijun: seq<Value>, spanA: seq<Value>, spanB: seq<Value>, lagging: seq<Value>)

  /** `getAvg`: the midpoint of the highest high and lowest low of the `period` bars ending at idx. */
  function Midpoint(bars: seq<Bar>, period: nat, idx: nat): (r: Value)
    requires period >= 1 && idx < |bars|
    ensures r.None? <==> idx + 1 < period
  {
    if idx + 1 < period then None
    else Some((HighestHigh(bars, idx + 1 - period, idx + 1) + LowestLow(bars, idx + 1 - period, idx + 1)) / 2.0)
  }

  function MidpointLine(bars: seq<Bar>, period: nat): (r: seq<Value>)
    requires period >= 1
    ensures |r| == |bars|
    ensures forall i :: 0 <= i < |bars| ==> r[i] == Midpoint(bars, period, i)
  {
    seq(|bars|, i requires 0 <= i < |bars| => Midpoint(bars, period, i))
  }

  function SpanAAt(tenkan: seq<Value>, kijun: seq<Value>, i: nat): Value
    requires i < |tenkan| && i < |kijun|
  {
    if i < Displacement then None
    else if tenkan[i - Displacement].Some? && kijun[i - Displacement].Some? then
      Some((tenkan[i - Displacement].value + kijun[i - Displacement].value) / 2.0)
    else None
  }

  function SpanBAt(bars: seq<Bar>, i: nat): Value
    requires i < |bars|
  {
    if i < Displacement then None else Midpoint(bars, SpanBPeriod, i - Displacement)
  }

  function LaggingAt(bars: seq<Bar>, i: nat): Value
  {
    if i + Displacement < |bars| then Some(bars[i + Displacement].close) else None
  }

  function SpanALine(tenkan: seq<Value>, kijun: seq<Value>): (r: seq<Value>)
    requires |tenkan| == |kijun|
    ensures |r| == |tenkan|
    ensures forall i :: 0 <= i < |tenkan| ==> r[i] == SpanAAt(tenkan, kijun, i)
  {
    seq(|tenkan|, i requires 0 <= i < |tenkan| => SpanAAt(tenkan, kijun, i))
  }

  function SpanBLine(bars: seq<Bar>): (r: seq<Value>)
    ensures |r| == |bars|
    ensures forall i :: 0 <= i < |bars| ==> r[i] == SpanBAt(bars, i)
  {
    seq(|bars|, i requires 0 <= i < |bars| => SpanBAt(bars, i))
  }

  function LaggingLine(bars: seq<Bar>): (r: seq<Value>)
    ensures |r| == |bars|
    ensures forall i :: 0 <= i < |bars| ==> r[i] == LaggingAt(bars, i)
  {
    seq(|bars|, i requires 0 <= i < |bars| => LaggingAt(bars, i))
  }

  /**
   All five lines are as long as the bar series. Warm-up: tenkan is defined
   from bar 8, kijun from bar 25, span A from bar 51 (kijun's warm-up plus the
   displacement), span B from bar 77, and the lagging line on all but the
   last 26 bars.
   */
  function CalculateIchimoku(bars: seq<Bar>): (r: IchimokuLines)
    ensures |r.tenkan| == |r.kijun| == |r.spanA| == |r.spanB| == |r.lagging| == |bars|
    ensures forall i :: 0 <= i < |bars| ==> (r.tenkan[i].Some? <==> i >= 8)
    ensures forall i :: 0 <= i < |bars| ==> (r.kijun[i].Some? <==> i >= 25)
    ensures forall i :: 0 <= i < |bars| ==> (r.spanA[i].Some? <==> i >= 51)
    ensures forall i :: 0 <= i < |bars| ==> (r.spanB[i].Some? <==> i >= 77)
    ensures forall i :: 0 <= i < |bars| ==> (r.lagging[i].Some? <==> i + 26 < |bars|)
  {
    var tenkan := MidpointLine(bars, ConversionPeriod);
    var kijun := MidpointLine(bars, BasePeriod);
    IchimokuLines(tenkan, kijun, SpanALine(tenkan, kijun), SpanBLine(bars), LaggingLine(bars))
  }

  /** A midpoint lies between the window's lowest low and highest high (and is positive on valid bars). */
  lemma MidpointWithinRange(bars: seq<Bar>, period: nat, idx: nat)
    requires 1 <= period <= idx + 1 <= |bars|
    requires ValidBars(bars)
    ensures 0.0 < LowestLow(bars, idx + 1 - period, idx + 1) <= Midpoint(bars, period, idx).value
    ensures Midpoint(bars, period, idx).value <= HighestHigh(bars, idx + 1 - period, idx + 1)
  {
    WindowRange(bars, idx + 1 - period, idx + 1);
  }

  lemma SpanALineAt(tenkan: seq<Value>, kijun: seq<Value>, i: nat)
    requires |tenkan| == |kijun|
    requires Displacement <= i < |tenkan|
    requires tenkan[i - Displacement].Some? && kijun[i - Displacement].Some?
    ensures SpanALine(tenkan, kijun)[i] == Some((tenkan[i - Displacement].value + kijun[i - Displacement].value) / 2.0)
  {
  }

  /** Span A at bar i is the average of tenkan and kijun 26 bars earlier. */
  lemma SpanAIsDisplaced(bars: seq<Bar>, i: nat)
    requires 51 <= i < |bars|
    ensures CalculateIchimoku(bars).spanA[i].value ==
            (CalculateIchimoku(bars).tenkan[i - Displacement].value + CalculateIchimoku(bars).kijun[i - Displacement].value) / 2.0
  {
    var r := CalculateIchimoku(bars);
    assert r.spanA == SpanALine(r.tenkan, r.kijun);
    assert r.tenkan[i - Displacement].Some? && r.kijun[i - Displacement].Some?;
    SpanALineAt(r.tenkan, r.kijun, i);
  }

  /** Span B at bar i is the 52-bar midpoint that ends 26 bars earlier. */
  lemma SpanBIsDisplaced(bars: seq<Bar>, i: nat)
    requires 26 <= i < |bars|
    ensures CalculateIchimoku(bars).spanB[i] == Midpoint(bars, 52, i - 26)
  {
    var r := CalculateIchimoku(bars);
    assert r.spanB[i] == SpanBAt(bars, i);
  }

  /** The lagging line at bar i is the close 26 bars later. */
  lemma LaggingIsFutureClose(bars: seq<Bar>, i: nat)
    requires i + 26 < |bars|
    ensures CalculateIchimoku(bars).lagging[i] == Some(bars[i + 26].close)
  {
  }

  /** On valid bars a defined midpoint is a positive price. */
  lemma MidpointPositive(bars: seq<Bar>, period: nat, idx: nat)
    requires 1 <= period <= idx + 1 <= |bars|
    requires ValidBars(bars)
    ensures Midpoint(bars, period, idx).Some? && 0.0 < Midpoint(bars, period, idx).value
  {
    MidpointWithinRange(bars, period, idx);
  }

  lemma BaseLinesAt(bars: seq<Bar>, j: nat)
    requires j < |bars|
    ensures CalculateIchimoku(bars).tenkan[j] == Midpoint(bars, ConversionPeriod, j)
    ensures CalculateIchimoku(bars).kijun[j] == Midpoint(bars, BasePeriod, j)
  {
  }

  /** Before bar 77 span B is still `null`. */
  lemma EarlySpanBNull(bars: seq<Bar>, i: nat)
    requires i < 77 && i < |bars|
    ensures CalculateIchimoku(bars).spanB[i].None?
  {
  }

  /** The line is defined at bar j and holds a positive price there. */
  predicate PositiveAt(line: seq<Value>, j: int)
  {
    0 <= j < |line| && line[j].Some? && 0.0 < line[j].value
  }

  /** From bar 8 on, tenkan of valid bars is a positive price. */
  lemma TenkanPositive(bars: seq<Bar>, j: nat)
    requires ValidBars(bars)
    requires 8 <= j < |bars|
    ensures PositiveAt(CalculateIchimoku(bars).tenkan, j)
  {
    BaseLinesAt(bars, j);
    MidpointPositive(bars, ConversionPeriod, j);
  }

  /** From bar 25 on, kijun of valid bars is a positive price. */
  lemma KijunPositive(bars: seq<Bar>, j: nat)
    requires ValidBars(bars)
    requires 25 <= j < |bars|
    ensures PositiveAt(CalculateIchimoku(bars).kijun, j)
  {
    BaseLinesAt(bars, j);
    MidpointPositive(bars, BasePeriod, j);
  }

  /** From bar 51 on, span A of valid bars is a positive price. */
  lemma SpanAPositive(bars: seq<Bar>, i: nat)
    requires ValidBars(bars)
    requires 51 <= i < |bars|
    ensures PositiveAt(CalculateIchimoku(bars).spanA, i)
  {
    var r := CalculateIchimoku(bars);
    TenkanPositive(bars, i - Displacement);
    KijunPositive(bars, i - Displacement);
    assert r.spanA == SpanALine(r.tenkan, r.kijun);
    SpanALinePositive(r.tenkan, r.kijun, i);
  }

  /** Span A is positive wherever the tenkan and kijun it averages are. */
  lemma SpanALinePositive(tenkan: seq<Value>, kijun: seq<Value>, i: nat)
    requires |tenkan| == |kijun|
    requires Displacement <= i < |tenkan|
    requires PositiveAt(tenkan, i - Displacement) && PositiveAt(kijun, i - Displacement)
    ensures PositiveAt(SpanALine(tenkan, kijun), i)
  {
    SpanALineAt(tenkan, kijun, i);
  }

  /** Between bars 51 and 76 span B is still `null` while span A, on valid bars, is a positive price. */
  lemma EarlyCloud(bars: seq<Bar>, i: nat)
    requires ValidBars(bars)
    requires 51 <= i < 77 && i < |bars|
    ensures CalculateIchimoku(bars).spanB[i].None?
    ensures PositiveAt(CalculateIchimoku(bars).spanA, i)
  {
    EarlySpanBNull(bars, i);
    SpanAPositive(bars, i);
  }
}
