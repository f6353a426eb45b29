/**
 Turning indicator series into trade signals: the bar indices at which a
 condition holds (`findConditions`) or one series crosses another
 (`findCrossovers`). Both scan forward from a start index and collect
 matching indices in ascending order.
 */
module Signals {
  import opened JsValues

  /** Strictly increasing. */
  predicate Ascending(xs: seq<nat>)
  {
    forall j, k :: 0 <= j < k < |xs| ==> xs[j] < xs[k]
  }

  /** The indices i in [start, |hits|) with hits[i], in ascending order. */
  function Indices(start: nat, hits: seq<bool>): (r: seq<nat>)
    ensures Ascending(r)
    ensures forall k :: 0 <= k < |r| ==> start <= r[k] < |hits| && hits[r[k]]
    ensures forall i :: start <= i < |hits| && hits[i] ==> i in r
    decreases |hits| - start
  {
    if start >= |hits| then []
    else if hits[start] then [start] + Indices(start + 1, hits)
    else Indices(start + 1, hits)
  }

  /** `findConditions`: the indices from `start` on whose entry is a number satisfying `pred`. */
  function FindConditions(series: seq<Value>, pred: real -> bool, start: nat): (r: seq<nat>)
    ensures Ascending(r)
    ensures forall i :: i in r <==> start <= i < |series| && series[i].Some? && pred(series[i].value)
  {
    Indices(start, seq(|series|, i requires 0 <= i < |series| => series[i].Some? && pred(series[i].value)))
  }

  datatype Direction = Up | Down

  /**
   Whether a crosses b at i: at i-1 both are numbers and a is on or below b
   (on or above for `Down`), and at i a is strictly above b (below). A `null`
   at i reads as 0. Index 0 has no predecessor and an index past the end of
   b compares with `undefined`, so neither fires.
   */
  predicate CrossAt(a: seq<Value>, b: seq<Value>, dir: Direction, i: nat)
    requires i < |a|
  {
    1 <= i < |b| && a[i - 1].Some? && b[i - 1].Some? &&
    match dir
    case Up => a[i - 1].value <= b[i - 1].value && Num(a[i]) > Num(b[i])
    case Down => a[i - 1].value >= b[i - 1].value && Num(a[i]) < Num(b[i])
  }

  /** `findCrossovers`: the indices from `start` on, below |a|, at which a crosses b in direction `dir`. */
  function FindCrossovers(a: seq<Value>, b: seq<Value>, dir: Direction, start: nat): (r: seq<nat>)
    ensures Ascending(r)
    ensures forall i :: i in r <==> start <= i < |a| && CrossAt(a, b, dir, i)
  {
    Indices(start, seq(|a|, i requires 0 <= i < |a| => CrossAt(a, b, dir, i)))
  }

  /** No index is both an upward and a downward crossing. */
  lemma CrossingsDisjoint(a: seq<Value>, b: seq<Value>, start: nat)
    ensures forall i :: i in FindCrossovers(a, b, Up, start) ==> i !in FindCrossovers(a, b, Down, start)
  {
  }
}
