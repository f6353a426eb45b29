/**
 Fibonacci retracement (`calculateFibonacci`): seven price levels between
 the highest high and the lowest low of the whole series.
 */
module Fibonacci {
  import opened JsValues
  import opened MarketData

  datatype FibLevel = FibLevel(level: real, price: real, text: string)

  datatype Retracement = Retracement(max: real, min: real, levels: seq<FibLevel>)

  /** The retracement ratios, from the high (0) down to the low (1). */
  const Ratios: seq<real> := [0.0, 0.236, 0.382, 0.5, 0.618, 0.786, 1.0]

  const Labels: seq<string> := ["0% (High)", "23.6%", "38.2%", "50%", "61.8%", "78.6%", "100% (Low)"]

  /** The price of level k: the high itself, the low itself, or high - (high - low) * ratio in between. */
  function LevelPrice(maxHigh: real, minLow: real, k: nat): real
    requires k < |Ratios|
  {
    if k == 0 then maxHigh
    else if k == |Ratios| - 1 then minLow
    else maxHigh - (maxHigh - minLow) * Ratios[k]
  }

  /** `null` on an empty series; otherwise the extremes of all bars and the seven levels. */
  function CalculateFibonacci(bars: seq<Bar>): (r: Option<Retracement>)
    ensures r.None? <==> |bars| == 0
    ensures r.Some? ==> r.value.levels == Levels(r.value.max, r.value.min)
    ensures r.Some? ==> (forall i :: 0 <= i < |bars| ==> bars[i].high <= r.value.max && r.value.min <= bars[i].low)
    ensures r.Some? ==> (exists i :: 0 <= i < |bars| && bars[i].high == r.value.max)
    ensures r.Some? ==> (exists i :: 0 <= i < |bars| && bars[i].low == r.value.min)
    ensures r.Some? ==> forall k :: 0 <= k < 7 ==> r.value.levels[k].level == Ratios[k] && r.value.levels[k].text == Labels[k]
  {
    if |bars| == 0 then None
    else
      var maxHigh := HighestHigh(bars, 0, |bars|);
      var minLow := LowestLow(bars, 0, |bars|);
      Some(Retracement(maxHigh, minLow, Levels(maxHigh, minLow)))
  }

  function Levels(maxHigh: real, minLow: real): (r: seq<FibLevel>)
    ensures |r| == 7
  {
    seq(7, k requires 0 <= k < 7 => FibLevel(Ratios[k], LevelPrice(maxHigh, minLow, k), Labels[k]))
  }

  lemma RatiosIncrease()
    ensures Ratios[0] == 0.0 && Ratios[6] == 1.0
    ensures forall k :: 0 < k < 7 ==> Ratios[k - 1] < Ratios[k]
  {
  }

  /** With low <= high, level k's price is high - (high - low) * ratio, within [low, high], and below level k-1's. */
  lemma LevelPriceFacts(maxHigh: real, minLow: real, k: nat)
    requires minLow <= maxHigh
    requires k < 7
    ensures LevelPrice(maxHigh, minLow, k) == maxHigh - (maxHigh - minLow) * Ratios[k]
    ensures minLow <= LevelPrice(maxHigh, minLow, k) <= maxHigh
    ensures k > 0 ==> LevelPrice(maxHigh, minLow, k) <= LevelPrice(maxHigh, minLow, k - 1)
  {
    RatiosIncrease();
    var d := maxHigh - minLow;
    var r := Ratios[k];
    assert 0.0 <= r <= 1.0 by {
      if k > 0 {
        assert forall j :: 0 < j <= k ==> Ratios[j - 1] < Ratios[j];
      }
    }
    assert 0.0 <= d * r <= d;
    if k > 0 {
      var q := Ratios[k - 1];
      assert q < r;
      assert d * q <= d * r;
    }
  }

  /**
   With low <= high, level k's price is high - (high - low) * level, lies
   between the low and the high, and is at most the price of level k-1:
   prices fall as the level rises.
   */
  lemma LevelsOrdered(maxHigh: real, minLow: real)
    requires minLow <= maxHigh
    ensures forall k :: 0 <= k < 7 ==>
              Levels(maxHigh, minLow)[k].price == maxHigh - (maxHigh - minLow) * Levels(maxHigh, minLow)[k].level
    ensures forall k :: 0 <= k < 7 ==> minLow <= Levels(maxHigh, minLow)[k].price <= maxHigh
    ensures forall k :: 0 < k < 7 ==> Levels(maxHigh, minLow)[k].price <= Levels(maxHigh, minLow)[k - 1].price
  {
    forall k | 0 <= k < 7
      ensures LevelPrice(maxHigh, minLow, k) == maxHigh - (maxHigh - minLow) * Ratios[k]
      ensures minLow <= LevelPrice(maxHigh, minLow, k) <= maxHigh
      ensures k > 0 ==> LevelPrice(maxHigh, minLow, k) <= LevelPrice(maxHigh, minLow, k - 1)
    {
      LevelPriceFacts(maxHigh, minLow, k);
    }
  }

  /** On valid bars the low of the series is at most its high, so the levels are ordered as above. */
  lemma RetracementOrdered(bars: seq<Bar>)
    requires |bars| > 0
    requires ValidBars(bars)
    ensures CalculateFibonacci(bars).Some?
    ensures CalculateFibonacci(bars).value.min <= CalculateFibonacci(bars).value.max
  {
    WindowRange(bars, 0, |bars|);
  }
}
