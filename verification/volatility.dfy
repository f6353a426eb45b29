/**
 Rolling population standard deviation (`calculateStdDev`) and Bollinger
 Bands (`calculateBollinger`). `Math.sqrt` is not computed: it is a
 parameter `root`, and the properties that need it assume only that `root`
 is a non-negative square root (`IsSqrt`).
 */
module Volatility {
  import opened JsValues
  import opened MarketData
  import opened MovingAverages

  /** What the model assumes of `Math.sqrt`. */
  ghost predicate IsSqrt(root: real -> real)
  {
    forall x :: 0.0 <= x ==> 0.0 <= root(x) && root(x) * root(x) == x
  }

  function Square(x: real): real
  {
    x * x
  }

  /** `Math.pow(x - avg, 2)` for every term. */
  function SquaredDeviations(terms: seq<real>, avg: real): (r: seq<real>)
    ensures |r| == |terms|
    ensures forall j :: 0 <= j < |terms| ==> r[j] == Square(terms[j] - avg)
  {
    seq(|terms|, j requires 0 <= j < |terms| => Square(terms[j] - avg))
  }

  function Mean(w: seq<real>): real
    requires |w| > 0
  {
    Sum(w) / |w| as real
  }

  /** Population variance of a window: the mean squared deviation from its mean. */
  function PopulationVariance(w: seq<real>): real
    requires |w| > 0
  {
    Sum(SquaredDeviations(w, Mean(w))) / |w| as real
  }

  /**
   `calculateStdDev`: `null` during the SMA warm-up, then the root of the mean
   squared deviation of the trailing `period` closes from the SMA at that index.
   */
  function StdDev(bars: seq<Bar>, period: nat, root: real -> real): (r: seq<Value>)
    requires period >= 1
    ensures |r| == |bars|
    ensures forall i :: 0 <= i < |bars| ==> (r[i].None? <==> i < period - 1)
  {
    var closes := Closes(bars);
    var sma := Sma(closes, period);
    seq(|bars|, i requires 0 <= i < |bars| =>
      if i < period - 1 then None
      else Some(root(TrailingSum(SquaredDeviations(Nums(closes), Num(sma[i])), i, period) / period as real)))
  }

  /** Each defined entry is the root of the population variance of its trailing window. */
  lemma StdDevIsRootOfVariance(bars: seq<Bar>, period: nat, root: real -> real, i: nat)
    requires period >= 1
    requires period - 1 <= i < |bars|
    ensures StdDev(bars, period, root)[i]
         == Some(root(PopulationVariance(Nums(Closes(bars))[i + 1 - period .. i + 1])))
  {
    var terms := Nums(Closes(bars));
    var w := terms[i + 1 - period .. i + 1];
    SmaIsTrailingMean(Closes(bars), period);
    var avg := Num(Sma(Closes(bars), period)[i]);
    assert avg == Mean(w);
    TrailingSumIsWindowSum(SquaredDeviations(terms, avg), i, period);
    assert SquaredDeviations(terms, avg)[i + 1 - period .. i + 1] == SquaredDeviations(w, avg);
    var v := TrailingSum(SquaredDeviations(terms, avg), i, period) / period as real;
    assert v == PopulationVariance(w);
    assert StdDev(bars, period, root)[i] == Some(root(v));
  }

  lemma StdDevEntryNonNegative(bars: seq<Bar>, period: nat, root: real -> real, i: nat)
    requires period >= 1
    requires IsSqrt(root)
    requires period - 1 <= i < |bars|
    ensures StdDev(bars, period, root)[i].Some? && 0.0 <= StdDev(bars, period, root)[i].value
  {
    StdDevIsRootOfVariance(bars, period, root, i);
    var w := Nums(Closes(bars))[i + 1 - period .. i + 1];
    var sq := SquaredDeviations(w, Mean(w));
    SumNonNegative(sq);
    assert 0.0 <= PopulationVariance(w);
  }

  /** With a genuine square root every defined entry is non-negative. */
  lemma StdDevNonNegative(bars: seq<Bar>, period: nat, root: real -> real)
    requires period >= 1
    requires IsSqrt(root)
    ensures forall i :: period - 1 <= i < |bars| ==> 0.0 <= StdDev(bars, period, root)[i].value
  {
    forall i | period - 1 <= i < |bars|
      ensures 0.0 <= StdDev(bars, period, root)[i].value
    {
      StdDevEntryNonNegative(bars, period, root, i);
    }
  }

  datatype Bands = Bands(upper: seq<Value>, lower: seq<Value>, middle: seq<Value>)

  /** `calculateBollinger`: middle = SMA, upper/lower = middle ± multiplier · StdDev. */
  function Bollinger(bars: seq<Bar>, period: nat, multiplier: real, root: real -> real): (b: Bands)
    requires period >= 1
    ensures b.middle == Sma(Closes(bars), period)
    ensures |b.upper| == |b.lower| == |bars|
    ensures forall i :: 0 <= i < |bars| ==>
              (b.upper[i].None? <==> b.middle[i].None? || StdDev(bars, period, root)[i].None?)
    ensures forall i :: 0 <= i < |bars| ==>
              (b.lower[i].None? <==> b.middle[i].None? || StdDev(bars, period, root)[i].None?)
  {
    var sma := Sma(Closes(bars), period);
    var sd := StdDev(bars, period, root);
    Bands(
      seq(|bars|, i requires 0 <= i < |bars| =>
        if sma[i].None? || sd[i].None? then None else Some(sma[i].value + sd[i].value * multiplier)),
      seq(|bars|, i requires 0 <= i < |bars| =>
        if sma[i].None? || sd[i].None? then None else Some(sma[i].value - sd[i].value * multiplier)),
      sma)
  }

  /** Wherever the bands are defined, lower <= middle <= upper, for any multiplier >= 0. */
  lemma BollingerOrdered(bars: seq<Bar>, period: nat, multiplier: real, root: real -> real)
    requires period >= 1
    requires IsSqrt(root)
    requires 0.0 <= multiplier
    ensures forall i :: period - 1 <= i < |bars| ==>
              && Bollinger(bars, period, multiplier, root).upper[i].Some?
              && Bollinger(bars, period, multiplier, root).lower[i].value
                 <= Bollinger(bars, period, multiplier, root).middle[i].value
                 <= Bollinger(bars, period, multiplier, root).upper[i].value
  {
    StdDevNonNegative(bars, period, root);
    var b := Bollinger(bars, period, multiplier, root);
    var sd := StdDev(bars, period, root);
    forall i | period - 1 <= i < |bars|
      ensures b.upper[i].Some? && b.lower[i].value <= b.middle[i].value <= b.upper[i].value
    {
      assert 0.0 <= sd[i].value * multiplier;
    }
  }
}
