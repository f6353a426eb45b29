/**
 Simple and exponential moving averages (`calculateSMA`, `calculateEMA`).
 Both take a plain sequence of series entries rather than bars: the library
 calls them on closes and also on helper arrays that hold `null`s (the %K line
 of the Stochastic, the MACD line), and those `null`s take part in the
 arithmetic as 0.
 */
module MovingAverages {
  import opened JsValues

  /** The inner loop of `calculateSMA`: terms[i] + terms[i-1] + ... + terms[i-count+1]. */
  function TrailingSum(terms: seq<real>, i: nat, count: nat): real
    requires count <= i + 1 <= |terms|
  {
    if count == 0 then 0.0 else TrailingSum(terms, i, count - 1) + terms[i + 1 - count]
  }

  /** The backward accumulation equals the sum of the window terms[i-count+1 .. i]. */
  lemma {:induction false} TrailingSumIsWindowSum(terms: seq<real>, i: nat, count: nat)
    requires count <= i + 1 <= |terms|
    ensures TrailingSum(terms, i, count) == Sum(terms[i + 1 - count .. i + 1])
  {
    if count > 0 {
      TrailingSumIsWindowSum(terms, i, count - 1);
      assert terms[i + 1 - count .. i + 1][1..] == terms[i + 2 - count .. i + 1];
    }
  }

  /** Simple moving average: one entry per input entry, `null` during the first period-1. */
  function Sma(vals: seq<Value>, period: nat): (r: seq<Value>)
    requires period >= 1
    ensures |r| == |vals|
    ensures forall i :: 0 <= i < |vals| ==> (r[i].None? <==> i < period - 1)
  {
    seq(|vals|, i requires 0 <= i < |vals| =>
      if i < period - 1 then None else Some(TrailingSum(Nums(vals), i, period) / period as real))
  }

  /** Every defined SMA entry is the mean of the `period` trailing entries, `null` counted as 0. */
  lemma SmaIsTrailingMean(vals: seq<Value>, period: nat)
    requires period >= 1
    ensures forall i :: period - 1 <= i < |vals| ==>
              Sma(vals, period)[i] == Some(Sum(Nums(vals)[i + 1 - period .. i + 1]) / period as real)
  {
    forall i | period - 1 <= i < |vals|
      ensures Sma(vals, period)[i] == Some(Sum(Nums(vals)[i + 1 - period .. i + 1]) / period as real)
    {
      TrailingSumIsWindowSum(Nums(vals), i, period);
    }
  }

  /** When every entry reads as a number in [lo, hi], so does every defined SMA entry. */
  lemma SmaBounds(vals: seq<Value>, period: nat, lo: real, hi: real)
    requires period >= 1
    requires forall i :: 0 <= i < |vals| ==> lo <= Num(vals[i]) <= hi
    ensures forall i :: period - 1 <= i < |vals| ==>
              lo <= Sma(vals, period)[i].value <= hi
  {
    SmaIsTrailingMean(vals, period);
    forall i | period - 1 <= i < |vals|
      ensures lo <= Sma(vals, period)[i].value <= hi
    {
      WindowMeanBounds(vals, period, lo, hi, i);
    }
  }

  /** The mean of the window ending at i lies in [lo, hi] when every entry does. */
  lemma WindowMeanBounds(vals: seq<Value>, period: nat, lo: real, hi: real, i: nat)
    requires 1 <= period && period - 1 <= i < |vals|
    requires forall j :: 0 <= j < |vals| ==> lo <= Num(vals[j]) <= hi
    ensures lo <= Sum(Nums(vals)[i + 1 - period .. i + 1]) / period as real <= hi
  {
    var w := Nums(vals)[i + 1 - period .. i + 1];
    assert |w| == period;
    SumBounds(w, lo, hi);
    MeanBounds(Sum(w), period as real, lo, hi);
  }

  /** Number of `null`/`undefined` entries the EMA's first loop skips. */
  function LeadingNulls(vals: seq<Value>): (lead: nat)
    ensures lead <= |vals|
    ensures forall j :: 0 <= j < lead ==> vals[j].None?
    ensures lead < |vals| ==> vals[lead].Some?
  {
    if |vals| == 0 || vals[0].Some? then 0 else 1 + LeadingNulls(vals[1..])
  }

  /** The EMA smoothing constant k = 2 / (period + 1). */
  function Smoothing(period: nat): real
  {
    2.0 / (period as real + 1.0)
  }

  /** One EMA update: (x - prev) * k + prev. */
  function EmaUpdate(prev: real, x: real, period: nat): real
  {
    (x - prev) * Smoothing(period) + prev
  }

  /** Wilder smoothing of an average: (avg * (period - 1) + x) / period. */
  function Wilder(avg: real, x: real, period: nat): (r: real)
    requires period >= 1
    ensures 0.0 <= avg && 0.0 <= x ==> 0.0 <= r
  {
    (avg * (period as real - 1.0) + x) / period as real
  }

  /** `initialSum / period`: the mean of the first `period` entries, `null` counted as 0. */
  function EmaSeed(vals: seq<Value>, period: nat): real
    requires 1 <= period <= |vals|
  {
    Sum(Nums(vals)[..period]) / period as real
  }

  /**
   The `results` array of `calculateEMA` once the main loop has handled the
   indices below i. It starts as the skipped leading nulls plus `period` nulls
   of padding, with `results[period - 1]` overwritten by the seed; the loop then
   appends one value per index, reading the previous EMA as `results[i - 1]` of
   that padded array.
   */
  function EmaSteps(vals: seq<Value>, period: nat, i: nat): (r: seq<Value>)
    requires 1 <= period <= i <= |vals|
    ensures |r| == LeadingNulls(vals) + i
    decreases i
  {
    var lead := LeadingNulls(vals);
    if i == period then
      seq(lead + period, j requires 0 <= j < lead + period =>
        if j == period - 1 then Some(EmaSeed(vals, period)) else None)
    else
      var prev := EmaSteps(vals, period, i - 1);
      prev + [Some(EmaUpdate(Num(prev[i - 2]), Num(vals[i - 1]), period))]
  }

  /**
   Exponential moving average. On an input shorter than the period every
   entry is `null`; otherwise the result is longer than the input by the
   number of leading `null`s.
   */
  function Ema(vals: seq<Value>, period: nat): (r: seq<Value>)
    requires period >= 1
    ensures |vals| < period ==> |r| == |vals| && forall j :: 0 <= j < |r| ==> r[j].None?
    ensures |vals| >= period ==> |r| == |vals| + LeadingNulls(vals)
  {
    if |vals| < period then seq(|vals|, _ => None) else EmaSteps(vals, period, |vals|)
  }

  /** The padded array is `null` exactly on the skipped and padding slots, except the seed slot. */
  lemma {:induction false} EmaStepsNulls(vals: seq<Value>, period: nat, i: nat)
    requires 1 <= period <= i <= |vals|
    ensures forall j :: 0 <= j < LeadingNulls(vals) + i ==>
              (EmaSteps(vals, period, i)[j].None? <==> j < LeadingNulls(vals) + period && j != period - 1)
    decreases i
  {
    if i > period {
      EmaStepsNulls(vals, period, i - 1);
      var prev := EmaSteps(vals, period, i - 1);
      var r := EmaSteps(vals, period, i);
      assert r == prev + [Some(EmaUpdate(Num(prev[i - 2]), Num(vals[i - 1]), period))];
      forall j | 0 <= j < |r|
        ensures r[j].None? <==> j < LeadingNulls(vals) + period && j != period - 1
      {
        if j < |prev| {
          assert r[j] == prev[j];
          assert prev[j].None? <==> j < LeadingNulls(vals) + period && j != period - 1;
        } else {
          assert j == LeadingNulls(vals) + i - 1;
          assert r[j].Some?;
        }
      }
    }
  }

  lemma {:induction false} EmaStepsPrefix(vals: seq<Value>, period: nat, j: nat, i: nat)
    requires 1 <= period <= j <= i <= |vals|
    ensures EmaSteps(vals, period, j) == EmaSteps(vals, period, i)[..LeadingNulls(vals) + j]
    decreases i
  {
    if j < i {
      EmaStepsPrefix(vals, period, j, i - 1);
      var lead := LeadingNulls(vals);
      assert EmaSteps(vals, period, i)[..lead + i - 1] == EmaSteps(vals, period, i - 1);
    }
  }

  /** One step of the EMA recurrence, read off the full result (no leading nulls). */
  lemma EmaStep(vals: seq<Value>, period: nat, j: nat)
    requires 1 <= period <= j < |vals|
    requires LeadingNulls(vals) == 0
    ensures var r := EmaSteps(vals, period, |vals|);
            r[j] == Some(EmaUpdate(Num(r[j - 1]), Num(vals[j]), period))
  {
    var before := EmaSteps(vals, period, j);
    var after := EmaSteps(vals, period, j + 1);
    EmaStepsPrefix(vals, period, j, |vals|);
    EmaStepsPrefix(vals, period, j + 1, |vals|);
    var r := EmaSteps(vals, period, |vals|);
    assert r[j] == after[j];
    assert r[j - 1] == before[j - 1];
  }

  /**
   On an input without `null`s the EMA is aligned with it: `null` before
   index period-1, the mean of the first `period` entries at period-1, and
   the recurrence EMA[i] = (x[i] - EMA[i-1]) * k + EMA[i-1] afterwards.
   */
  lemma EmaOnNullFreeInput(vals: seq<Value>, period: nat)
    requires period >= 1
    requires forall j :: 0 <= j < |vals| ==> vals[j].Some?
    requires |vals| >= period
    ensures |Ema(vals, period)| == |vals|
    ensures forall j :: 0 <= j < |vals| ==> (Ema(vals, period)[j].None? <==> j < period - 1)
    ensures Ema(vals, period)[period - 1] == Some(Sum(Nums(vals)[..period]) / period as real)
    ensures forall j :: period <= j < |vals| ==>
              Ema(vals, period)[j] == Some(EmaUpdate(Ema(vals, period)[j - 1].value, vals[j].value, period))
  {
    assert vals[0].Some?;
    assert LeadingNulls(vals) == 0;
    var r := EmaSteps(vals, period, |vals|);
    assert r == Ema(vals, period);
    EmaStepsNulls(vals, period, |vals|);
    EmaStepsPrefix(vals, period, period, |vals|);
    var seedArray := EmaSteps(vals, period, period);
    assert r[period - 1] == seedArray[period - 1];
    assert seedArray[period - 1] == Some(EmaSeed(vals, period));
    forall j | period <= j < |vals|
      ensures r[j] == Some(EmaUpdate(r[j - 1].value, vals[j].value, period))
    {
      EmaStep(vals, period, j);
    }
  }
}
