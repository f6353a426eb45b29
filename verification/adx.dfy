/**
 The ADX line of `calculateADX`: a single pass over the DX line that skips
 `null` entries, sums the first `period` non-null DX values, emits their
 mean, and from then on applies Wilder's update to the previous ADX entry.
 A `NaN` DX among the first `period` makes every later ADX `NaN`.
 */
module AverageDirectionalIndex {
  import opened JsValues
  import opened MarketData
  import opened DirectionalMovement
  import opened MovingAverages

  /** `dxSum / period`. */
  function MeanOf(sum: Number, period: nat): (r: Number)
    requires period >= 1
    ensures r.Fin? <==> sum.Fin?
  {
    if sum.Fin? then Fin(sum.v / period as real) else NaN
  }

  /** `((prev * (period - 1)) + dx) / period`. */
  function WilderUpdate(prev: Number, x: Number, period: nat): (r: Number)
    requires period >= 1
    ensures r.Fin? <==> prev.Fin? && x.Fin?
  {
    if prev.Fin? && x.Fin? then Fin(Wilder(prev.v, x.v, period)) else NaN
  }

  /** The loop's state: the ADX entries pushed so far, `dxSum`, `dxCount` and `firstAdxDone`. */
  datatype ScanState = ScanState(adx: seq<Option<Number>>, sum: Number, count: nat, done: bool)

  /** The state after the loop has handled dx[0 .. i-1]. */
  function Scan(dx: seq<Option<Number>>, period: nat, i: nat): (s: ScanState)
    requires period >= 1 && i <= |dx|
    ensures |s.adx| == i
    ensures s.done ==> i >= 1
    decreases i
  {
    if i == 0 then ScanState([], Fin(0.0), 0, false)
    else
      var s := Scan(dx, period, i - 1);
      var k := i - 1;
      if dx[k].None? then s.(adx := s.adx + [None])
      else if !s.done then
        var sum := Plus(s.sum, dx[k].value);
        if s.count + 1 == period then ScanState(s.adx + [Some(MeanOf(sum, period))], sum, s.count + 1, true)
        else ScanState(s.adx + [None], sum, s.count + 1, false)
      else
        // adx[i - 1] of the source; a `null` there reads as 0
        var prev := if s.adx[k - 1].Some? then s.adx[k - 1].value else Fin(0.0);
        s.(adx := s.adx + [Some(WilderUpdate(prev, dx[k].value, period))])
  }

  function AdxLine(dx: seq<Option<Number>>, period: nat): (r: seq<Option<Number>>)
    requires period >= 1
    ensures |r| == |dx|
  {
    Scan(dx, period, |dx|).adx
  }

  /** Each step only appends. */
  lemma {:induction false} ScanPrefix(dx: seq<Option<Number>>, period: nat, i: nat, m: nat)
    requires period >= 1 && i <= m <= |dx|
    ensures Scan(dx, period, i).adx == Scan(dx, period, m).adx[..i]
    decreases m
  {
    if i < m {
      ScanPrefix(dx, period, i, m - 1);
      assert Scan(dx, period, m).adx[..m - 1] == Scan(dx, period, m - 1).adx;
    }
  }

  /** The shape of the DX line: `null` exactly during the first `period` bars. */
  predicate DxShape(dx: seq<Option<Number>>, period: nat)
  {
    forall j :: 0 <= j < |dx| ==> (dx[j].None? <==> j < period)
  }

  /** The running sum dx[lo] + ... + dx[hi-1] as the loop accumulates it. */
  function DxTotal(dx: seq<Option<Number>>, lo: nat, hi: nat): Number
    requires lo <= hi <= |dx|
    requires forall j :: lo <= j < hi ==> dx[j].Some?
    decreases hi
  {
    if hi == lo then Fin(0.0) else Plus(DxTotal(dx, lo, hi - 1), dx[hi - 1].value)
  }

  /** On a DX line of that shape the counters: summing up to bar 2p-1, done from bar 2p on. */
  lemma {:induction false} ScanCounters(dx: seq<Option<Number>>, period: nat, i: nat)
    requires period >= 1 && i <= |dx|
    requires DxShape(dx, period)
    ensures Scan(dx, period, i).done <==> i >= 2 * period
    ensures Scan(dx, period, i).count == if i <= period then 0 else if i <= 2 * period then i - period else period
    ensures i <= period ==> Scan(dx, period, i).sum == Fin(0.0)
    ensures period <= i <= 2 * period ==> Scan(dx, period, i).sum == DxTotal(dx, period, i)
    decreases i
  {
    if i > 0 {
      ScanCounters(dx, period, i - 1);
    }
  }

  /** The ADX entries emitted on a DX line of that shape: `null` before bar 2p-1, a value from there on. */
  lemma {:induction false} ScanEmits(dx: seq<Option<Number>>, period: nat, i: nat)
    requires period >= 1 && i <= |dx|
    requires DxShape(dx, period)
    ensures forall j :: 0 <= j < i ==> (Scan(dx, period, i).adx[j].Some? <==> j >= 2 * period - 1)
    decreases i
  {
    if i > 0 {
      ScanEmits(dx, period, i - 1);
      ScanCounters(dx, period, i - 1);
      var prev := Scan(dx, period, i - 1);
      var s := Scan(dx, period, i);
      assert s.adx[..i - 1] == prev.adx;
      assert forall j :: 0 <= j < i - 1 ==> s.adx[j] == prev.adx[j];
      assert s.adx[i - 1].Some? <==> i - 1 >= 2 * period - 1;
    }
  }

  /**
   On a DX line of that shape the loop is still summing up to bar 2p-1, emits
   its first ADX there, and from then on emits one value per bar.
   */
  lemma ScanShape(dx: seq<Option<Number>>, period: nat, i: nat)
    requires period >= 1 && i <= |dx|
    requires DxShape(dx, period)
    ensures Scan(dx, period, i).done <==> i >= 2 * period
    ensures Scan(dx, period, i).count == if i <= period then 0 else if i <= 2 * period then i - period else period
    ensures i <= period ==> Scan(dx, period, i).sum == Fin(0.0)
    ensures period <= i <= 2 * period ==> Scan(dx, period, i).sum == DxTotal(dx, period, i)
    ensures forall j :: 0 <= j < i ==> (Scan(dx, period, i).adx[j].Some? <==> j >= 2 * period - 1)
  {
    ScanCounters(dx, period, i);
    ScanEmits(dx, period, i);
  }

  /** Before bar 2p-1 every ADX is `null`; from there on every entry is a number or `NaN`. */
  lemma AdxLineWarmup(dx: seq<Option<Number>>, period: nat)
    requires period >= 1
    requires DxShape(dx, period)
    ensures forall i :: 0 <= i < |dx| ==> (AdxLine(dx, period)[i].Some? <==> i >= 2 * period - 1)
  {
    ScanShape(dx, period, |dx|);
  }

  /** The first ADX, at bar 2p-1, is the mean of DX over bars p .. 2p-1. */
  lemma AdxLineSeed(dx: seq<Option<Number>>, period: nat)
    requires period >= 1 && 2 * period <= |dx|
    requires DxShape(dx, period)
    ensures AdxLine(dx, period)[2 * period - 1] == Some(MeanOf(DxTotal(dx, period, 2 * period), period))
  {
    ScanShape(dx, period, 2 * period - 1);
    ScanShape(dx, period, 2 * period);
    ScanPrefix(dx, period, 2 * period, |dx|);
  }

  /** After the seed, ADX follows Wilder's recurrence on the previous ADX and the current DX. */
  lemma AdxLineRecurrence(dx: seq<Option<Number>>, period: nat, i: nat)
    requires period >= 1 && 2 * period <= i < |dx|
    requires DxShape(dx, period)
    ensures AdxLine(dx, period)[i - 1].Some?
    ensures AdxLine(dx, period)[i] ==
            Some(WilderUpdate(AdxLine(dx, period)[i - 1].value, dx[i].value, period))
  {
    ScanShape(dx, period, i);
    ScanShape(dx, period, i + 1);
    ScanPrefix(dx, period, i, |dx|);
    ScanPrefix(dx, period, i + 1, |dx|);
  }

  /** The running sum is a number exactly when every summed DX is, and then lies in [0, 100 * count]. */
  lemma {:induction false} DxTotalBounds(dx: seq<Option<Number>>, lo: nat, hi: nat)
    requires lo <= hi <= |dx|
    requires forall j :: lo <= j < hi ==> dx[j].Some?
    requires forall j :: lo <= j < hi && dx[j].value.Fin? ==> 0.0 <= dx[j].value.v <= 100.0
    ensures DxTotal(dx, lo, hi).Fin? <==> forall j :: lo <= j < hi ==> dx[j].value.Fin?
    ensures DxTotal(dx, lo, hi).Fin? ==> 0.0 <= DxTotal(dx, lo, hi).v <= 100.0 * (hi - lo) as real
    decreases hi
  {
    if hi > lo {
      DxTotalBounds(dx, lo, hi - 1);
    }
  }

  lemma MeanBounded(sum: real, period: nat)
    requires period >= 1
    requires 0.0 <= sum <= 100.0 * period as real
    ensures 0.0 <= sum / period as real <= 100.0
  {
    var p := period as real;
    assert sum / p == 100.0 * (sum / (100.0 * p));
    assert 0.0 <= sum / (100.0 * p) <= 1.0;
  }

  lemma WilderBounded(prev: real, x: real, period: nat)
    requires period >= 1
    requires 0.0 <= prev <= 100.0 && 0.0 <= x <= 100.0
    ensures 0.0 <= Wilder(prev, x, period) <= 100.0
  {
    var q := period as real - 1.0;
    assert (100.0 - prev) * q >= 0.0;
    assert 0.0 <= prev * q <= 100.0 * q;
    assert 100.0 * q + 100.0 == 100.0 * period as real;
    var sum := prev * q + x;
    MeanBounded(sum, period);
    assert Wilder(prev, x, period) == sum / period as real;
  }

  /** The smoothing step keeps a numeric ADX in [0, 100]. */
  lemma WilderUpdateBounded(prev: Number, x: Number, period: nat)
    requires period >= 1
    requires prev.Fin? ==> 0.0 <= prev.v <= 100.0
    requires x.Fin? ==> 0.0 <= x.v <= 100.0
    ensures WilderUpdate(prev, x, period).Fin? ==> 0.0 <= WilderUpdate(prev, x, period).v <= 100.0
  {
    if prev.Fin? && x.Fin? {
      WilderBounded(prev.v, x.v, period);
    }
  }

  /** With every numeric DX in [0, 100], every numeric ADX lies in [0, 100]. */
  lemma {:induction false} AdxLineInRange(dx: seq<Option<Number>>, period: nat, i: nat)
    requires period >= 1 && 2 * period - 1 <= i < |dx|
    requires DxShape(dx, period)
    requires forall j :: 0 <= j < |dx| && dx[j].Some? && dx[j].value.Fin? ==> 0.0 <= dx[j].value.v <= 100.0
    ensures AdxLine(dx, period)[i].Some?
    ensures AdxLine(dx, period)[i].value.Fin? ==> 0.0 <= AdxLine(dx, period)[i].value.v <= 100.0
    decreases i
  {
    if i == 2 * period - 1 {
      AdxLineSeed(dx, period);
      DxTotalBounds(dx, period, 2 * period);
      var total := DxTotal(dx, period, 2 * period);
      if total.Fin? {
        MeanBounded(total.v, period);
      }
    } else {
      AdxLineInRange(dx, period, i - 1);
      AdxLineRecurrence(dx, period, i);
      AdxLineWarmup(dx, period);
      assert dx[i].Some?;
      WilderUpdateBounded(AdxLine(dx, period)[i - 1].value, dx[i].value, period);
    }
  }

  /** Once an ADX entry is `NaN`, every later one is. */
  lemma {:induction false} AdxLineNaNSticky(dx: seq<Option<Number>>, period: nat, i: nat, m: nat)
    requires period >= 1 && 2 * period - 1 <= i <= m < |dx|
    requires DxShape(dx, period)
    requires AdxLine(dx, period)[i] == Some(NaN)
    ensures AdxLine(dx, period)[m] == Some(NaN)
    decreases m
  {
    if m > i {
      AdxLineNaNSticky(dx, period, i, m - 1);
      AdxLineRecurrence(dx, period, m);
    }
  }

  datatype AdxLines = AdxLines(adx: seq<Option<Number>>, diPlus: seq<Option<Number>>, diMinus: seq<Option<Number>>)

  /** `calculateADX`. */
  function Adx(bars: seq<Bar>, period: nat): (r: AdxLines)
    requires period >= 1
    requires ValidBars(bars)
    ensures |r.adx| == |r.diPlus| == |r.diMinus| == |bars|
    ensures r.diPlus == Dmi(bars, period).diPlus && r.diMinus == Dmi(bars, period).diMinus
    ensures forall i :: 0 <= i < |bars| ==> (r.adx[i].Some? <==> i >= 2 * period - 1)
  {
    var lines := Dmi(bars, period);
    AdxLineWarmup(lines.dx, period);
    AdxLines(AdxLine(lines.dx, period), lines.diPlus, lines.diMinus)
  }

  /** On valid bars every numeric ADX entry lies in [0, 100]. */
  lemma AdxInRange(bars: seq<Bar>, period: nat)
    requires period >= 1
    requires ValidBars(bars)
    ensures forall i :: 2 * period - 1 <= i < |bars| && Adx(bars, period).adx[i].value.Fin? ==>
              0.0 <= Adx(bars, period).adx[i].value.v <= 100.0
  {
    var dx := Dmi(bars, period).dx;
    forall j | 0 <= j < |dx| && dx[j].Some? && dx[j].value.Fin?
      ensures 0.0 <= dx[j].value.v <= 100.0
    {
      DmiInRange(bars, period, j);
    }
    forall i | 2 * period - 1 <= i < |bars|
      ensures Adx(bars, period).adx[i].value.Fin? ==> 0.0 <= Adx(bars, period).adx[i].value.v <= 100.0
    {
      AdxLineInRange(dx, period, i);
    }
  }

  /**
   When the first `period` bars show no directional movement, the first DX is
   `NaN`, and with it the seed and every later ADX entry.
   */
  lemma AdxNaNWithoutEarlyMovement(bars: seq<Bar>, period: nat)
    requires 1 <= period && 2 * period <= |bars|
    requires ValidBars(bars)
    requires forall j :: 0 <= j < period ==> PlusDm(bars, j) == 0.0 && MinusDm(bars, j) == 0.0
    ensures forall i :: 2 * period - 1 <= i < |bars| ==> Adx(bars, period).adx[i] == Some(NaN)
  {
    var dx := Dmi(bars, period).dx;
    FirstDxNaNWithoutMovement(bars, period);
    assert dx[period] == Some(NaN);
    AdxLineSeed(dx, period);
    DxTotalBounds(dx, period, 2 * period);
    forall i | 2 * period - 1 <= i < |bars|
      ensures Adx(bars, period).adx[i] == Some(NaN)
    {
      AdxLineNaNSticky(dx, period, 2 * period - 1, i);
    }
  }
}
