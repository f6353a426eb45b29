/**
 The JavaScript value semantics the analytics depend on: an indicator series
 holds `null` during its warm-up and a number afterwards, and JavaScript's
 arithmetic and relational operators read `null` as 0.
 */
module JsValues {

  datatype Option<+T> = None | Some(value: T)

  /** One entry of an indicator series: `null` or a number. */
  type Value = Option<real>

  /** ToNumber on a series entry: `null` is 0 in `+`, `-`, `*`, `<`, `Math.max`, ... */
  function Num(v: Value): real
  {
    if v.Some? then v.value else 0.0
  }

  /** The entries of a series as the numbers arithmetic sees. */
  function Nums(vs: seq<Value>): (r: seq<real>)
    ensures |r| == |vs|
    ensures forall i :: 0 <= i < |vs| ==> r[i] == Num(vs[i])
  {
    seq(|vs|, i requires 0 <= i < |vs| => Num(vs[i]))
  }

  function Max(a: real, b: real): real
  {
    if a >= b then a else b
  }

  function Min(a: real, b: real): real
  {
    if a <= b then a else b
  }

  function Abs(a: real): real
  {
    if a < 0.0 then -a else a
  }

  function Sum(xs: seq<real>): real
  {
    if |xs| == 0 then 0.0 else xs[0] + Sum(xs[1..])
  }

  /** Splitting a sum at any point. */
  lemma {:induction false} SumAppend(xs: seq<real>, ys: seq<real>)
    ensures Sum(xs + ys) == Sum(xs) + Sum(ys)
  {
    if |xs| > 0 {
      assert (xs + ys)[1..] == xs[1..] + ys;
      SumAppend(xs[1..], ys);
    } else {
      assert xs + ys == ys;
    }
  }

  /** A sum of terms that all lie in [lo, hi] lies in [|xs|*lo, |xs|*hi]. */
  lemma {:induction false} SumBounds(xs: seq<real>, lo: real, hi: real)
    requires forall i :: 0 <= i < |xs| ==> lo <= xs[i] <= hi
    ensures |xs| as real * lo <= Sum(xs) <= |xs| as real * hi
  {
    if |xs| > 0 {
      SumBounds(xs[1..], lo, hi);
      assert |xs[1..]| as real == |xs| as real - 1.0;
    }
  }

  /** The mean of a non-empty list of terms in [lo, hi] lies in [lo, hi]. */
  lemma MeanWithinBounds(xs: seq<real>, lo: real, hi: real)
    requires |xs| > 0
    requires forall i :: 0 <= i < |xs| ==> lo <= xs[i] <= hi
    ensures lo <= Sum(xs) / |xs| as real <= hi
  {
    SumBounds(xs, lo, hi);
    MeanBounds(Sum(xs), |xs| as real, lo, hi);
  }

  /** A sum of non-negative terms is non-negative. */
  lemma {:induction false} SumNonNegative(xs: seq<real>)
    requires forall i :: 0 <= i < |xs| ==> 0.0 <= xs[i]
    ensures 0.0 <= Sum(xs)
  {
    if |xs| > 0 {
      SumNonNegative(xs[1..]);
    }
  }

  /** A total of `count` terms in [lo, hi] has its mean in [lo, hi]. */
  lemma MeanBounds(s: real, count: real, lo: real, hi: real)
    requires 0.0 < count
    requires count * lo <= s <= count * hi
    ensures lo <= s / count <= hi
  {
  }

  /** x / d lies in [0, 1] when 0 <= x <= d. */
  lemma DivUnit(x: real, d: real)
    requires 0.0 < d && 0.0 <= x <= d
    ensures 0.0 <= x / d <= 1.0
  {
  }

  /** A share strictly below the whole is below 1, and a positive part gives a positive share. */
  lemma DivStrict(x: real, d: real)
    requires 0.0 < d && 0.0 <= x
    ensures x < d ==> x / d < 1.0
    ensures 0.0 < x ==> 0.0 < x / d
    ensures x == d ==> x / d == 1.0
  {
    var q := x / d;
    assert q * d == x;
    if x < d {
      CancelLess(q, 1.0, d);
    }
    if 0.0 < x {
      CancelLess(0.0, q, d);
    }
    if x == d {
      DivSelf(d);
    }
  }

  /** A non-zero number divided by itself is 1. */
  lemma DivSelf(d: real)
    requires d != 0.0
    ensures d / d == 1.0
  {
  }

  /** A positive factor cancels in a strict comparison. */
  lemma CancelLess(x: real, y: real, s: real)
    requires 0.0 < s && x * s < y * s
    ensures x < y
  {
  }

  /** A positive factor cancels. */
  lemma Cancel(x: real, y: real, s: real)
    requires 0.0 < s && x * s == y * s
    ensures x == y
  {
    calc {
      x;
      (x * s) / s;
      (y * s) / s;
      y;
    }
  }

  /**
   A JavaScript number where `NaN` can arise: `0 / 0` is `NaN`, and `NaN`
   propagates through arithmetic. (The computations modelled with it never
   divide a non-zero number by zero, so infinities are not represented.)
   */
  datatype Number = Fin(v: real) | NaN

  function Plus(a: Number, b: Number): (r: Number)
    ensures r.Fin? <==> a.Fin? && b.Fin?
  {
    if a.Fin? && b.Fin? then Fin(a.v + b.v) else NaN
  }

  /** ToNumber of an entry that may be `null`: `null` reads as 0. */
  function NumberOf(v: Option<Number>): Number
  {
    if v.Some? then v.value else Fin(0.0)
  }

  /** `a < b`: false whenever either side is `NaN`. */
  predicate Less(a: Number, b: Number)
  {
    a.Fin? && b.Fin? && a.v < b.v
  }

  /** `a <= b`: false whenever either side is `NaN`. */
  predicate AtMost(a: Number, b: Number)
  {
    a.Fin? && b.Fin? && a.v <= b.v
  }

  /** Sums keep a pointwise bound: xs[i] + ys[i] <= zs[i] everywhere gives Sum(xs) + Sum(ys) <= Sum(zs). */
  lemma {:induction false} SumDominated(xs: seq<real>, ys: seq<real>, zs: seq<real>)
    requires |xs| == |ys| == |zs|
    requires forall i :: 0 <= i < |xs| ==> xs[i] + ys[i] <= zs[i]
    ensures Sum(xs) + Sum(ys) <= Sum(zs)
  {
    if |xs| > 0 {
      SumDominated(xs[1..], ys[1..], zs[1..]);
    }
  }
}
