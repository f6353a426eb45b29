/**
 MACD (`calculateMACD`): the difference of a fast and a slow EMA of the
 closes, a signal line that is the EMA of that difference, and the
 histogram between the two. The signal line is computed by handing the MACD
 line, `null`s included, to the EMA as if it were a price series.
 */
module Macd {
  import opened JsValues
  import opened MarketData
  import opened MovingAverages

  datatype MacdLines = MacdLines(macd: seq<Value>, signal: seq<Value>, histogram: seq<Value>)

  /** macdLine[i]: EMA(fast) - EMA(slow), `null` where either is `null`. */
  function MacdLine(bars: seq<Bar>, fast: nat, slow: nat): (r: seq<Value>)
    requires fast >= 1 && slow >= 1
    ensures |r| == |bars|
  {
    var emaFast := Ema(Closes(bars), fast);
    var emaSlow := Ema(Closes(bars), slow);
    seq(|bars|, i requires 0 <= i < |bars| =>
      if emaFast[i].Some? && emaSlow[i].Some? then Some(emaFast[i].value - emaSlow[i].value) else None)
  }

  /** histogram[i]: macd[i] - signal[i], `null` where either is `null`. */
  function Histogram(macd: seq<Value>, signal: seq<Value>): (r: seq<Value>)
    requires |macd| <= |signal|
    ensures |r| == |macd|
  {
    seq(|macd|, i requires 0 <= i < |macd| =>
      if macd[i].Some? && signal[i].Some? then Some(macd[i].value - signal[i].value) else None)
  }

  function CalculateMacd(bars: seq<Bar>, fast: nat, slow: nat, signalPeriod: nat): (m: MacdLines)
    requires fast >= 1 && slow >= 1 && signalPeriod >= 1
    ensures |m.macd| == |m.histogram| == |bars| <= |m.signal|
    ensures m.signal == Ema(m.macd, signalPeriod)
    ensures forall i :: 0 <= i < |bars| ==>
              (m.macd[i].None? <==> Ema(Closes(bars), fast)[i].None? || Ema(Closes(bars), slow)[i].None?)
    ensures forall i :: 0 <= i < |bars| && m.macd[i].Some? ==>
              m.macd[i].value == Ema(Closes(bars), fast)[i].value - Ema(Closes(bars), slow)[i].value
    ensures forall i :: 0 <= i < |bars| ==>
              (m.histogram[i].Some? <==> m.macd[i].Some? && m.signal[i].Some?)
    ensures forall i :: 0 <= i < |bars| && m.histogram[i].Some? ==>
              m.histogram[i].value == m.macd[i].value - m.signal[i].value
  {
    var macd := MacdLine(bars, fast, slow);
    var signal := Ema(macd, signalPeriod);
    MacdLines(macd, signal, Histogram(macd, signal))
  }

  /** With fast <= slow, the MACD line of a bar series is `null` exactly during the slow EMA's warm-up. */
  lemma MacdLineWarmup(bars: seq<Bar>, fast: nat, slow: nat)
    requires 1 <= fast <= slow <= |bars|
    ensures forall i :: 0 <= i < |bars| ==> (MacdLine(bars, fast, slow)[i].None? <==> i < slow - 1)
  {
    EmaOnNullFreeInput(Closes(bars), fast);
    EmaOnNullFreeInput(Closes(bars), slow);
  }

  /**
   The signal line is misaligned with the bars: the EMA receives the MACD
   line's slow-1 leading `null`s, skips them, and then pads another
   `signalPeriod` entries, so the signal line is slow-1 entries longer than
   the series it is indexed against (25 with the 12/26/9 defaults).
   */
  lemma MacdSignalMisaligned(bars: seq<Bar>, fast: nat, slow: nat, signalPeriod: nat)
    requires 1 <= fast <= slow <= |bars|
    requires 1 <= signalPeriod <= |bars|
    ensures |CalculateMacd(bars, fast, slow, signalPeriod).signal| == |bars| + slow - 1
  {
    var macd := MacdLine(bars, fast, slow);
    MacdLineWarmup(bars, fast, slow);
    var lead := LeadingNulls(macd);
    assert macd[slow - 1].Some?;
    assert lead == slow - 1;
  }
}
