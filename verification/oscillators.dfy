/**
 Momentum oscillators: RSI with Wilder smoothing (`calculateRSI`) and the
 Stochastic oscillator (`calculateStochastic`), whose %K and %D lines are
 SMAs of helper arrays that still carry the raw line's warm-up `null`s.
 */
module Oscillators {
  import opened JsValues
  import opened MarketData
  import opened MovingAverages

  /** gains[i]: the positive part of the close-to-close change; gains[0] is the padded 0. */
  function Gain(bars: seq<Bar>, i: nat): (g: real)
    requires i < |bars|
    ensures 0.0 <= g
  {
    if i == 0 then 0.0
    else
      var change := bars[i].close - bars[i - 1].close;
      if change > 0.0 then change else 0.0
  }

  /** losses[i]: the magnitude of a negative change; losses[0] is the padded 0. */
  function Loss(bars: seq<Bar>, i: nat): (l: real)
    requires i < |bars|
    ensures 0.0 <= l
  {
    if i == 0 then 0.0
    else
      var change := bars[i].close - bars[i - 1].close;
      if change < 0.0 then -change else 0.0
  }

  function Gains(bars: seq<Bar>): (r: seq<real>)
    ensures |r| == |bars|
    ensures forall i :: 0 <= i < |bars| ==> r[i] == Gain(bars, i)
  {
    seq(|bars|, i requires 0 <= i < |bars| => Gain(bars, i))
  }

  function Losses(bars: seq<Bar>): (r: seq<real>)
    ensures |r| == |bars|
    ensures forall i :: 0 <= i < |bars| ==> r[i] == Loss(bars, i)
  {
    seq(|bars|, i requires 0 <= i < |bars| => Loss(bars, i))
  }

  datatype Averages = Averages(gain: real, loss: real)

  /**
   avgGain/avgLoss after bar i: at i == period the plain means of
   gains[1..period] and losses[1..period], afterwards Wilder-smoothed.
   */
  function RsiAverages(bars: seq<Bar>, period: nat, i: nat): (a: Averages)
    requires 1 <= period <= i < |bars|
    ensures 0.0 <= a.gain && 0.0 <= a.loss
    decreases i
  {
    if i == period then
      var gains := Gains(bars)[1..period + 1];
      var losses := Losses(bars)[1..period + 1];
      SumNonNegative(gains);
      SumNonNegative(losses);
      Averages(Sum(gains) / period as real, Sum(losses) / period as real)
    else
      var prev := RsiAverages(bars, period, i - 1);
      Averages(Wilder(prev.gain, Gain(bars, i), period), Wilder(prev.loss, Loss(bars, i), period))
  }

  /** 100 when avgLoss is 0, otherwise 100 - 100 / (1 + avgGain / avgLoss). */
  function RsiValue(a: Averages): real
    requires 0.0 <= a.gain && 0.0 <= a.loss
  {
    if a.loss == 0.0 then 100.0 else 100.0 - 100.0 / (1.0 + a.gain / a.loss)
  }

  /** `calculateRSI`: `null` for the first `period` bars, then the RSI of the running averages. */
  function Rsi(bars: seq<Bar>, period: nat): (r: seq<Value>)
    requires period >= 1
    ensures |r| == |bars|
    ensures forall i :: 0 <= i < |bars| ==> (r[i].None? <==> i < period)
  {
    seq(|bars|, i requires 0 <= i < |bars| =>
      if i < period then None else Some(RsiValue(RsiAverages(bars, period, i))))
  }

  lemma RatioAtLeastOne(g: real, l: real)
    requires 0.0 <= g && 0.0 < l
    ensures 1.0 + g / l >= 1.0
  {
  }

  lemma ShareBelowOne(g: real, l: real)
    requires 0.0 <= g && 0.0 < l
    ensures g / (g + l) < 1.0
  {
  }

  /**
   With non-negative averages the RSI formula is 100 * avgGain / (avgGain + avgLoss)
   when avgLoss > 0; it reaches 100 exactly when avgLoss is 0 and lies in [0, 100].
   */
  lemma RsiValueRange(a: Averages)
    requires 0.0 <= a.gain && 0.0 <= a.loss
    ensures a.loss > 0.0 ==> RsiValue(a) == 100.0 * a.gain / (a.gain + a.loss)
    ensures RsiValue(a) == 100.0 <==> a.loss == 0.0
    ensures 0.0 <= RsiValue(a) <= 100.0
  {
    if a.loss > 0.0 {
      var g, l := a.gain, a.loss;
      var rs := g / l;
      assert rs * l == g;
      var d := 1.0 + rs;
      assert d * l == l + g;
      RatioAtLeastOne(g, l);
      var q := 100.0 / d;
      assert q * d == 100.0;
      assert q * (g + l) == 100.0 * l by {
        calc {
          q * (g + l);
          q * (d * l);
          (q * d) * l;
          100.0 * l;
        }
      }
      var t := 100.0 * g / (g + l);
      assert t * (g + l) == 100.0 * g;
      assert (100.0 - q) * (g + l) == 100.0 * g;
      Cancel(100.0 - q, t, g + l);
      DivUnit(g, g + l);
      ShareBelowOne(g, l);
      assert t == 100.0 * (g / (g + l));
    }
  }

  /** Every defined RSI entry lies in [0, 100]. */
  lemma RsiInRange(bars: seq<Bar>, period: nat)
    requires period >= 1
    ensures forall i :: period <= i < |bars| ==> 0.0 <= Rsi(bars, period)[i].value <= 100.0
  {
    forall i | period <= i < |bars|
      ensures 0.0 <= Rsi(bars, period)[i].value <= 100.0
    {
      RsiValueRange(RsiAverages(bars, period, i));
    }
  }

  lemma SumOfZeros(xs: seq<real>)
    requires forall j :: 0 <= j < |xs| ==> xs[j] == 0.0
    ensures Sum(xs) == 0.0
  {
    SumBounds(xs, 0.0, 0.0);
  }

  lemma {:induction false} SumPositive(xs: seq<real>)
    requires |xs| > 0
    requires forall j :: 0 <= j < |xs| ==> 0.0 < xs[j]
    ensures 0.0 < Sum(xs)
  {
    if |xs| > 1 {
      SumPositive(xs[1..]);
    } else {
      assert Sum(xs[1..]) == 0.0;
    }
  }

  /** On a series whose closes never fall, avgLoss stays 0. */
  lemma {:induction false} NonFallingLossIsZero(bars: seq<Bar>, period: nat, i: nat)
    requires 1 <= period <= i < |bars|
    requires forall j :: 1 <= j < |bars| ==> bars[j - 1].close <= bars[j].close
    ensures RsiAverages(bars, period, i).loss == 0.0
    decreases i
  {
    if i == period {
      var losses := Losses(bars)[1..period + 1];
      forall j | 0 <= j < |losses|
        ensures losses[j] == 0.0
      {
        assert losses[j] == Loss(bars, j + 1);
        assert bars[j].close <= bars[j + 1].close;
      }
      SumOfZeros(losses);
    } else {
      NonFallingLossIsZero(bars, period, i - 1);
      assert Loss(bars, i) == 0.0 by {
        assert bars[i - 1].close <= bars[i].close;
      }
    }
  }

  /** So every defined RSI entry of a non-falling series is 100. */
  lemma RsiOfNonFallingSeries(bars: seq<Bar>, period: nat)
    requires period >= 1
    requires forall j :: 1 <= j < |bars| ==> bars[j - 1].close <= bars[j].close
    ensures forall i :: period <= i < |bars| ==> Rsi(bars, period)[i].value == 100.0
  {
    forall i | period <= i < |bars|
      ensures Rsi(bars, period)[i].value == 100.0
    {
      NonFallingLossIsZero(bars, period, i);
    }
  }

  /** Smoothing in a positive value keeps an average positive. */
  lemma WilderPositive(avg: real, x: real, period: nat)
    requires period >= 1 && 0.0 <= avg && 0.0 < x
    ensures Wilder(avg, x, period) > 0.0
  {
    assert 0.0 <= avg * (period as real - 1.0);
  }

  /** On a strictly falling series the first averages: no gain, a positive loss. */
  lemma FallingSeed(bars: seq<Bar>, period: nat)
    requires 1 <= period < |bars|
    requires forall j :: 1 <= j < |bars| ==> bars[j].close < bars[j - 1].close
    ensures RsiAverages(bars, period, period).gain == 0.0
    ensures RsiAverages(bars, period, period).loss > 0.0
  {
    var gains := Gains(bars)[1..period + 1];
    var losses := Losses(bars)[1..period + 1];
    forall j | 0 <= j < period
      ensures gains[j] == 0.0 && losses[j] > 0.0
    {
      assert gains[j] == Gain(bars, j + 1);
      assert losses[j] == Loss(bars, j + 1);
      assert bars[j + 1].close < bars[j].close;
    }
    SumOfZeros(gains);
    SumPositive(losses);
  }

  /** On a strictly falling series avgGain stays 0 and avgLoss positive. */
  lemma {:induction false} FallingAverages(bars: seq<Bar>, period: nat, i: nat)
    requires 1 <= period <= i < |bars|
    requires forall j :: 1 <= j < |bars| ==> bars[j].close < bars[j - 1].close
    ensures RsiAverages(bars, period, i).gain == 0.0
    ensures RsiAverages(bars, period, i).loss > 0.0
    decreases i
  {
    if i == period {
      FallingSeed(bars, period);
    } else {
      FallingAverages(bars, period, i - 1);
      var prev := RsiAverages(bars, period, i - 1);
      assert Gain(bars, i) == 0.0 && Loss(bars, i) > 0.0 by {
        assert bars[i].close < bars[i - 1].close;
      }
      WilderPositive(prev.loss, Loss(bars, i), period);
    }
  }

  /** So every defined RSI entry of a strictly falling series is 0. */
  lemma RsiOfFallingSeries(bars: seq<Bar>, period: nat)
    requires period >= 1
    requires forall j :: 1 <= j < |bars| ==> bars[j].close < bars[j - 1].close
    ensures forall i :: period <= i < |bars| ==> Rsi(bars, period)[i].value == 0.0
  {
    forall i | period <= i < |bars|
      ensures Rsi(bars, period)[i].value == 0.0
    {
      FallingAverages(bars, period, i);
      RsiValueRange(RsiAverages(bars, period, i));
    }
  }

  /** Raw %K: 50 on a flat window, otherwise the close's position in the window's range, times 100. */
  function KValue(close: real, highest: real, lowest: real): real
  {
    if highest == lowest then 50.0 else (close - lowest) / (highest - lowest) * 100.0
  }

  /** The raw %K line: `null` during the first period-1 bars. */
  function RawK(bars: seq<Bar>, period: nat): (r: seq<Value>)
    requires period >= 1
    ensures |r| == |bars|
    ensures forall i :: 0 <= i < |bars| ==> (r[i].None? <==> i < period - 1)
  {
    seq(|bars|, i requires 0 <= i < |bars| => if i + 1 < period then None else Some(KAt(bars, period, i)))
  }

  /** Raw %K of bar i over the window of the `period` bars ending at i. */
  function KAt(bars: seq<Bar>, period: nat, i: nat): real
    requires 1 <= period <= i + 1 <= |bars|
  {
    KValue(bars[i].close, HighestHigh(bars, i + 1 - period, i + 1), LowestLow(bars, i + 1 - period, i + 1))
  }

  /** A close inside the window's range gives a raw %K in [0, 100]. */
  lemma KValueRange(close: real, highest: real, lowest: real)
    requires lowest <= close <= highest
    ensures 0.0 <= KValue(close, highest, lowest) <= 100.0
  {
    if highest != lowest {
      DivUnit(close - lowest, highest - lowest);
    }
  }

  lemma RawKEntryRange(bars: seq<Bar>, period: nat, i: nat)
    requires 1 <= period <= i + 1 <= |bars|
    requires ValidBars(bars)
    ensures 0.0 <= KAt(bars, period, i) <= 100.0
  {
    var hh := HighestHigh(bars, i + 1 - period, i + 1);
    var ll := LowestLow(bars, i + 1 - period, i + 1);
    WindowRange(bars, i + 1 - period, i + 1);
    KValueRange(bars[i].close, hh, ll);
  }

  /** On valid bars every defined raw %K lies in [0, 100]. */
  lemma RawKRange(bars: seq<Bar>, period: nat)
    requires period >= 1
    requires ValidBars(bars)
    ensures forall i :: period - 1 <= i < |bars| ==> 0.0 <= RawK(bars, period)[i].value <= 100.0
  {
    forall i | period - 1 <= i < |bars|
      ensures 0.0 <= RawK(bars, period)[i].value <= 100.0
    {
      RawKEntryRange(bars, period, i);
    }
  }

  /** Where the window's highest high equals its lowest low, raw %K is exactly 50. */
  lemma RawKFlatWindow(bars: seq<Bar>, period: nat)
    requires period >= 1
    ensures forall i :: (period - 1 <= i < |bars| &&
                         HighestHigh(bars, i + 1 - period, i + 1) == LowestLow(bars, i + 1 - period, i + 1)) ==>
              RawK(bars, period)[i] == Some(50.0)
  {
  }

  datatype StochasticLines = StochasticLines(k: seq<Value>, d: seq<Value>)

  /** `calculateStochastic`: %K = SMA(raw %K, smoothK), %D = SMA(%K, smoothD). */
  function Stochastic(bars: seq<Bar>, period: nat, smoothK: nat, smoothD: nat): (s: StochasticLines)
    requires period >= 1 && smoothK >= 1 && smoothD >= 1
    ensures |s.k| == |s.d| == |bars|
    ensures forall i :: 0 <= i < |bars| ==> (s.k[i].None? <==> i < smoothK - 1)
    ensures forall i :: 0 <= i < |bars| ==> (s.d[i].None? <==> i < smoothD - 1)
  {
    var k := Sma(RawK(bars, period), smoothK);
    StochasticLines(k, Sma(k, smoothD))
  }

  /**
   Because the SMA reads the raw line's `null`s as 0, the smoothed %K is the
   number 0 rather than `null` from index smoothK-1 up to period-2.
   */
  lemma SmoothedKZeroDuringWarmup(bars: seq<Bar>, period: nat, smoothK: nat, smoothD: nat)
    requires period >= 1 && smoothK >= 1 && smoothD >= 1
    ensures forall i :: smoothK - 1 <= i <= period - 2 && i < |bars| ==>
              Stochastic(bars, period, smoothK, smoothD).k[i] == Some(0.0)
  {
    var raw := RawK(bars, period);
    SmaIsTrailingMean(raw, smoothK);
    forall i | smoothK - 1 <= i <= period - 2 && i < |bars|
      ensures Stochastic(bars, period, smoothK, smoothD).k[i] == Some(0.0)
    {
      SumOfZeros(Nums(raw)[i + 1 - smoothK .. i + 1]);
    }
  }

  /** On valid bars every defined %K and %D entry lies in [0, 100]. */
  lemma StochasticInRange(bars: seq<Bar>, period: nat, smoothK: nat, smoothD: nat)
    requires period >= 1 && smoothK >= 1 && smoothD >= 1
    requires ValidBars(bars)
    ensures forall i :: smoothK - 1 <= i < |bars| ==>
              0.0 <= Stochastic(bars, period, smoothK, smoothD).k[i].value <= 100.0
    ensures forall i :: smoothD - 1 <= i < |bars| ==>
              0.0 <= Stochastic(bars, period, smoothK, smoothD).d[i].value <= 100.0
  {
    var raw := RawK(bars, period);
    RawKRange(bars, period);
    assert forall i :: 0 <= i < |raw| ==> 0.0 <= Num(raw[i]) <= 100.0;
    SmaBounds(raw, smoothK, 0.0, 100.0);
    var k := Sma(raw, smoothK);
    assert forall i :: 0 <= i < |k| ==> 0.0 <= Num(k[i]) <= 100.0;
    SmaBounds(k, smoothD, 0.0, 100.0);
  }
}
