/**
 The directional-movement half of `calculateADX`: true range, +DM and -DM
 per bar, their Wilder running sums, the directional indicators DI+ and DI-,
 and the directional index DX. Divisions can meet 0 / 0, which JavaScript
 evaluates to `NaN`; the entries are therefore `Number`s.
 */
module DirectionalMovement {
  import opened JsValues
  import opened MarketData

  /** tr[i]: the largest of high - low and the gaps to the previous close; bar 0 falls back to high - low. */
  function TrueRange(bars: seq<Bar>, i: nat): real
    requires i < |bars|
  {
    if i == 0 then bars[0].high - bars[0].low
    else
      var prevClose := bars[i - 1].close;
      Max(Max(bars[i].high - bars[i].low, Abs(bars[i].high - prevClose)), Abs(bars[i].low - prevClose))
  }

  function UpMove(bars: seq<Bar>, i: nat): real
    requires 1 <= i < |bars|
  {
    bars[i].high - bars[i - 1].high
  }

  function DownMove(bars: seq<Bar>, i: nat): real
    requires 1 <= i < |bars|
  {
    bars[i - 1].low - bars[i].low
  }

  /** +DM: the up-move when it is positive and larger than the down-move, else 0. */
  function PlusDm(bars: seq<Bar>, i: nat): (r: real)
    requires i < |bars|
    ensures 0.0 <= r
  {
    if i == 0 then 0.0
    else if UpMove(bars, i) > DownMove(bars, i) && UpMove(bars, i) > 0.0 then UpMove(bars, i)
    else 0.0
  }

  /** -DM: the down-move when it is positive and larger than the up-move, else 0. */
  function MinusDm(bars: seq<Bar>, i: nat): (r: real)
    requires i < |bars|
    ensures 0.0 <= r
  {
    if i == 0 then 0.0
    else if DownMove(bars, i) > UpMove(bars, i) && DownMove(bars, i) > 0.0 then DownMove(bars, i)
    else 0.0
  }

  /** At most one of +DM and -DM is non-zero on any bar. */
  lemma MovementExclusive(bars: seq<Bar>, i: nat)
    requires i < |bars|
    ensures PlusDm(bars, i) == 0.0 || MinusDm(bars, i) == 0.0
  {
  }

  /** On valid bars the true range is non-negative and bounds the directional movement. */
  lemma MovementWithinRange(bars: seq<Bar>, i: nat)
    requires i < |bars|
    requires ValidBars(bars)
    ensures 0.0 <= TrueRange(bars, i)
    ensures PlusDm(bars, i) + MinusDm(bars, i) <= TrueRange(bars, i)
  {
    assert ValidBar(bars[i]);
    if i > 0 {
      assert ValidBar(bars[i - 1]);
      MovementExclusive(bars, i);
    }
  }

  function TrueRanges(bars: seq<Bar>): (r: seq<real>)
    ensures |r| == |bars|
    ensures forall i :: 0 <= i < |bars| ==> r[i] == TrueRange(bars, i)
  {
    seq(|bars|, i requires 0 <= i < |bars| => TrueRange(bars, i))
  }

  function PlusDms(bars: seq<Bar>): (r: seq<real>)
    ensures |r| == |bars|
    ensures forall i :: 0 <= i < |bars| ==> r[i] == PlusDm(bars, i)
  {
    seq(|bars|, i requires 0 <= i < |bars| => PlusDm(bars, i))
  }

  function MinusDms(bars: seq<Bar>): (r: seq<real>)
    ensures |r| == |bars|
    ensures forall i :: 0 <= i < |bars| ==> r[i] == MinusDm(bars, i)
  {
    seq(|bars|, i requires 0 <= i < |bars| => MinusDm(bars, i))
  }

  /**
   The Wilder running sum at bar i >= period: at i == period the plain sum of
   entries 0 .. period-1 (entry `period` itself never enters), afterwards
   S[i] = S[i-1] - S[i-1] / period + x[i].
   */
  function Smoothed(xs: seq<real>, period: nat, i: nat): real
    requires 1 <= period <= i < |xs|
    decreases i
  {
    if i == period then Sum(xs[..period])
    else
      var prev := Smoothed(xs, period, i - 1);
      prev - prev / period as real + xs[i]
  }

  /** Shrinking by 1/period keeps non-negativity and order. */
  lemma DecayMonotone(a: real, b: real, c: real, period: nat)
    requires period >= 1
    requires 0.0 <= a && 0.0 <= b && a + b <= c
    ensures 0.0 <= a - a / period as real && 0.0 <= b - b / period as real
    ensures (a - a / period as real) + (b - b / period as real) <= c - c / period as real
  {
    var p := period as real;
    assert a - a / p == a * ((p - 1.0) / p);
    assert b - b / p == b * ((p - 1.0) / p);
    assert c - c / p == c * ((p - 1.0) / p);
    assert 0.0 <= (p - 1.0) / p;
  }

  /**
   Wilder sums keep a pointwise bound: when 0 <= a[j], 0 <= b[j] and
   a[j] + b[j] <= c[j] everywhere, the running sums are non-negative and
   S(a) + S(b) <= S(c).
   */
  lemma {:induction false} SmoothedDominated(a: seq<real>, b: seq<real>, c: seq<real>, period: nat, i: nat)
    requires |a| == |b| == |c|
    requires 1 <= period <= i < |a|
    requires forall j :: 0 <= j < |a| ==> 0.0 <= a[j] && 0.0 <= b[j] && a[j] + b[j] <= c[j]
    ensures 0.0 <= Smoothed(a, period, i) && 0.0 <= Smoothed(b, period, i)
    ensures Smoothed(a, period, i) + Smoothed(b, period, i) <= Smoothed(c, period, i)
    decreases i
  {
    if i == period {
      SumNonNegative(a[..period]);
      SumNonNegative(b[..period]);
      SumDominated(a[..period], b[..period], c[..period]);
    } else {
      SmoothedDominated(a, b, c, period, i - 1);
      DecayMonotone(Smoothed(a, period, i - 1), Smoothed(b, period, i - 1), Smoothed(c, period, i - 1), period);
    }
  }

  /** On valid bars the smoothed +DM and -DM are non-negative and together at most the smoothed true range. */
  lemma SmoothedMovementWithinRange(bars: seq<Bar>, period: nat, i: nat)
    requires 1 <= period <= i < |bars|
    requires ValidBars(bars)
    ensures 0.0 <= Smoothed(PlusDms(bars), period, i) && 0.0 <= Smoothed(MinusDms(bars), period, i)
    ensures Smoothed(PlusDms(bars), period, i) + Smoothed(MinusDms(bars), period, i)
            <= Smoothed(TrueRanges(bars), period, i)
  {
    forall j | 0 <= j < |bars|
      ensures PlusDm(bars, j) + MinusDm(bars, j) <= TrueRange(bars, j)
    {
      MovementWithinRange(bars, j);
    }
    SmoothedDominated(PlusDms(bars), MinusDms(bars), TrueRanges(bars), period, i);
  }

  /** `(part / whole) * 100`: `NaN` when both are 0. */
  function Percent(part: real, whole: real): (r: Number)
    requires 0.0 <= part <= whole
    ensures r.NaN? <==> whole == 0.0
    ensures r.Fin? ==> 0.0 <= r.v <= 100.0
  {
    if whole == 0.0 then NaN
    else
      DivUnit(part, whole);
      Fin(part / whole * 100.0)
  }

  /** DI+ at bar i >= period. */
  function DiPlus(bars: seq<Bar>, period: nat, i: nat): Number
    requires 1 <= period <= i < |bars|
    requires ValidBars(bars)
  {
    SmoothedMovementWithinRange(bars, period, i);
    Percent(Smoothed(PlusDms(bars), period, i), Smoothed(TrueRanges(bars), period, i))
  }

  /** DI- at bar i >= period. */
  function DiMinus(bars: seq<Bar>, period: nat, i: nat): Number
    requires 1 <= period <= i < |bars|
    requires ValidBars(bars)
  {
    SmoothedMovementWithinRange(bars, period, i);
    Percent(Smoothed(MinusDms(bars), period, i), Smoothed(TrueRanges(bars), period, i))
  }

  /**
   DX = |DI+ - DI-| / (DI+ + DI-) * 100. The first DX has no zero guard, so
   DI+ == DI- == 0 gives 0 / 0 = `NaN`; later ones are 0 in that case. A
   `NaN` indicator fails the guard's `=== 0` and propagates.
   */
  function DirectionalIndex(dip: Number, dim: Number, first: bool): (r: Number)
    requires dip.Fin? ==> 0.0 <= dip.v
    requires dim.Fin? ==> 0.0 <= dim.v
    ensures r.Fin? ==> 0.0 <= r.v <= 100.0
    ensures r.NaN? <==> dip.NaN? || dim.NaN? || (first && dip.v + dim.v == 0.0)
  {
    if dip.Fin? && dim.Fin? then
      if dip.v + dim.v == 0.0 then (if first then NaN else Fin(0.0))
      else
        DivUnit(Abs(dip.v - dim.v), dip.v + dim.v);
        Fin(Abs(dip.v - dim.v) / (dip.v + dim.v) * 100.0)
    else NaN
  }

  function Dx(bars: seq<Bar>, period: nat, i: nat): Number
    requires 1 <= period <= i < |bars|
    requires ValidBars(bars)
  {
    DirectionalIndex(DiPlus(bars, period, i), DiMinus(bars, period, i), i == period)
  }

  datatype DmiLines = DmiLines(diPlus: seq<Option<Number>>, diMinus: seq<Option<Number>>, dx: seq<Option<Number>>)

  /** The DI+, DI- and DX lines of `calculateADX`, `null` during the first `period` bars. */
  function Dmi(bars: seq<Bar>, period: nat): (r: DmiLines)
    requires period >= 1
    requires ValidBars(bars)
    ensures |r.diPlus| == |r.diMinus| == |r.dx| == |bars|
    ensures forall i :: 0 <= i < |bars| ==> (r.diPlus[i].None? <==> i < period)
    ensures forall i :: 0 <= i < |bars| ==> (r.diMinus[i].None? <==> i < period)
    ensures forall i :: 0 <= i < |bars| ==> (r.dx[i].None? <==> i < period)
  {
    DmiLines(
      seq(|bars|, i requires 0 <= i < |bars| => if i < period then None else Some(DiPlus(bars, period, i))),
      seq(|bars|, i requires 0 <= i < |bars| => if i < period then None else Some(DiMinus(bars, period, i))),
      seq(|bars|, i requires 0 <= i < |bars| => if i < period then None else Some(Dx(bars, period, i))))
  }

  /**
   Every numeric DI lies in [0, 100], DI+ + DI- <= 100, and every numeric DX
   lies in [0, 100].
   */
  lemma DmiInRange(bars: seq<Bar>, period: nat, i: nat)
    requires 1 <= period <= i < |bars|
    requires ValidBars(bars)
    ensures DiPlus(bars, period, i).Fin? ==> 0.0 <= DiPlus(bars, period, i).v <= 100.0
    ensures DiMinus(bars, period, i).Fin? ==> 0.0 <= DiMinus(bars, period, i).v <= 100.0
    ensures DiPlus(bars, period, i).Fin? ==> DiPlus(bars, period, i).v + DiMinus(bars, period, i).v <= 100.0
    ensures Dx(bars, period, i).Fin? ==> 0.0 <= Dx(bars, period, i).v <= 100.0
  {
    SmoothedMovementWithinRange(bars, period, i);
    var p := Smoothed(PlusDms(bars), period, i);
    var m := Smoothed(MinusDms(bars), period, i);
    var t := Smoothed(TrueRanges(bars), period, i);
    if t != 0.0 {
      PercentsAdd(p, m, t);
    }
  }

  lemma PercentsAdd(p: real, m: real, t: real)
    requires 0.0 <= p && 0.0 <= m && p + m <= t && t != 0.0
    ensures p / t * 100.0 + m / t * 100.0 <= 100.0
  {
    DivUnit(p + m, t);
    assert p / t + m / t == (p + m) / t;
  }

  /**
   The indicators are `NaN` exactly when the smoothed true range is 0. For
   the first DX (bar `period`) that smoothed range is the plain sum of the
   first `period` true ranges, which on valid bars is 0 exactly when every
   one of those bars has zero range.
   */
  lemma DiNaNExactlyOnZeroRange(bars: seq<Bar>, period: nat)
    requires 1 <= period < |bars|
    requires ValidBars(bars)
    ensures DiPlus(bars, period, period).NaN? <==> forall j :: 0 <= j < period ==> TrueRange(bars, j) == 0.0
    ensures DiMinus(bars, period, period).NaN? <==> forall j :: 0 <= j < period ==> TrueRange(bars, j) == 0.0
  {
    var tr := TrueRanges(bars)[..period];
    forall j | 0 <= j < period
      ensures 0.0 <= tr[j]
    {
      MovementWithinRange(bars, j);
    }
    SumZeroIffAllZero(tr);
  }

  /** A sum of non-negative terms is 0 exactly when every term is. */
  lemma {:induction false} SumZeroIffAllZero(xs: seq<real>)
    requires forall j :: 0 <= j < |xs| ==> 0.0 <= xs[j]
    ensures Sum(xs) == 0.0 <==> forall j :: 0 <= j < |xs| ==> xs[j] == 0.0
  {
    if |xs| > 0 {
      SumZeroIffAllZero(xs[1..]);
      SumNonNegative(xs[1..]);
      if Sum(xs) == 0.0 {
        forall j | 0 <= j < |xs|
          ensures xs[j] == 0.0
        {
          if j > 0 {
            assert xs[j] == xs[1..][j - 1];
          }
        }
      }
      if forall j :: 0 <= j < |xs| ==> xs[j] == 0.0 {
        assert forall j :: 0 <= j < |xs[1..]| ==> xs[1..][j] == 0.0;
      }
    }
  }

  /** After the first DX, bars whose smoothed DI+ and DI- are both 0 give DX 0 rather than `NaN`. */
  lemma LaterDxGuarded(bars: seq<Bar>, period: nat, i: nat)
    requires 1 <= period < i < |bars|
    requires ValidBars(bars)
    requires DiPlus(bars, period, i) == Fin(0.0) && DiMinus(bars, period, i) == Fin(0.0)
    ensures Dx(bars, period, i) == Fin(0.0)
  {
  }

  /** The first DX is `NaN` whenever the first `period` bars show no directional movement at all. */
  lemma FirstDxNaNWithoutMovement(bars: seq<Bar>, period: nat)
    requires 1 <= period < |bars|
    requires ValidBars(bars)
    requires forall j :: 0 <= j < period ==> PlusDm(bars, j) == 0.0 && MinusDm(bars, j) == 0.0
    ensures Dx(bars, period, period).NaN?
  {
    var pd := PlusDms(bars)[..period];
    var md := MinusDms(bars)[..period];
    assert forall j :: 0 <= j < |pd| ==> pd[j] == 0.0;
    assert forall j :: 0 <= j < |md| ==> md[j] == 0.0;
    SumZeroIffAllZero(pd);
    SumZeroIffAllZero(md);
  }
}
