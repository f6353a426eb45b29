/**
 List idioms the ranking rules are built from: keeping the first element
 per key with a `seen` set, a stable sort by a score in descending order,
 and the "strictly better than the best so far, starting from 0" scan.
 */
module Lists {
  import opened JsValues
  import opened Signals

  /** xs[i] is the first element of xs with its key. */
  predicate FirstOfKey<T, K(==)>(xs: seq<T>, key: T -> K, i: nat)
    requires i < |xs|
  {
    forall m :: 0 <= m < i ==> key(xs[m]) != key(xs[i])
  }

  function FirstHits<T, K(==)>(xs: seq<T>, key: T -> K): (r: seq<bool>)
    ensures |r| == |xs|
    ensures forall i :: 0 <= i < |xs| ==> (r[i] <==> FirstOfKey(xs, key, i))
  {
    seq(|xs|, i requires 0 <= i < |xs| => FirstOfKey(xs, key, i))
  }

  /** The elements of xs at the given indices. */
  function Pick<T>(xs: seq<T>, idx: seq<nat>): (r: seq<T>)
    requires forall j :: 0 <= j < |idx| ==> idx[j] < |xs|
    ensures |r| == |idx|
    ensures forall j :: 0 <= j < |idx| ==> r[j] == xs[idx[j]]
  {
    seq(|idx|, j requires 0 <= j < |idx| => xs[idx[j]])
  }

  /** The keys of xs[..i]. */
  ghost function SeenKeys<T, K>(xs: seq<T>, key: T -> K, i: nat): set<K>
    requires i <= |xs|
  {
    set m | 0 <= m < i :: key(xs[m])
  }

  /**
   `xs.filter(x => { if (seen.has(key(x))) return false; seen.add(key(x)); return true; })`
   from index i on, with the keys seen so far in `seen`.
   */
  function DedupFrom<T, K(==)>(xs: seq<T>, key: T -> K, i: nat, seen: set<K>): seq<T>
    decreases |xs| - i
  {
    if i >= |xs| then []
    else if key(xs[i]) in seen then DedupFrom(xs, key, i + 1, seen)
    else [xs[i]] + DedupFrom(xs, key, i + 1, seen + {key(xs[i])})
  }

  lemma SeenKeysStep<T, K>(xs: seq<T>, key: T -> K, i: nat)
    requires i < |xs|
    ensures SeenKeys(xs, key, i + 1) == SeenKeys(xs, key, i) + {key(xs[i])}
    ensures key(xs[i]) in SeenKeys(xs, key, i) <==> !FirstOfKey(xs, key, i)
  {
    if key(xs[i]) in SeenKeys(xs, key, i) {
      var m :| 0 <= m < i && key(xs[m]) == key(xs[i]);
    }
  }

  lemma PickCons<T>(xs: seq<T>, i: nat, idx: seq<nat>)
    requires i < |xs|
    requires forall j :: 0 <= j < |idx| ==> idx[j] < |xs|
    ensures Pick(xs, [i] + idx) == [xs[i]] + Pick(xs, idx)
  {
  }

  /** A first occurrence at i: the filter keeps xs[i] and the scan records index i. */
  lemma DedupKeepStep<T, K>(xs: seq<T>, key: T -> K, i: nat, seen: set<K>, hits: seq<bool>)
    requires i < |xs| == |hits| && hits[i] && key(xs[i]) !in seen
    requires DedupFrom(xs, key, i + 1, seen + {key(xs[i])}) == Pick(xs, Indices(i + 1, hits))
    ensures DedupFrom(xs, key, i, seen) == Pick(xs, Indices(i, hits))
  {
    assert Indices(i, hits) == [i] + Indices(i + 1, hits);
    PickCons(xs, i, Indices(i + 1, hits));
  }

  /** A repeated key at i: the filter drops xs[i] and the scan skips index i. */
  lemma DedupDropStep<T, K>(xs: seq<T>, key: T -> K, i: nat, seen: set<K>, hits: seq<bool>)
    requires i < |xs| == |hits| && !hits[i] && key(xs[i]) in seen
    requires DedupFrom(xs, key, i + 1, seen + {key(xs[i])}) == Pick(xs, Indices(i + 1, hits))
    ensures DedupFrom(xs, key, i, seen) == Pick(xs, Indices(i, hits))
  {
    assert seen + {key(xs[i])} == seen;
  }

  /** The seen-set filter picks exactly the first occurrence of every key, in order. */
  lemma {:induction false} DedupFromIsFirstOccurrences<T, K>(xs: seq<T>, key: T -> K, i: nat, seen: set<K>)
    requires i <= |xs|
    requires seen == SeenKeys(xs, key, i)
    ensures DedupFrom(xs, key, i, seen) == Pick(xs, Indices(i, FirstHits(xs, key)))
    decreases |xs| - i
  {
    if i < |xs| {
      var hits := FirstHits(xs, key);
      SeenKeysStep(xs, key, i);
      DedupFromIsFirstOccurrences(xs, key, i + 1, seen + {key(xs[i])});
      if hits[i] {
        DedupKeepStep(xs, key, i, seen, hits);
      } else {
        DedupDropStep(xs, key, i, seen, hits);
      }
    }
  }

  /** Some index at or before i is the first occurrence of xs[i]'s key. */
  lemma {:induction false} FirstOccurrenceExists<T, K>(xs: seq<T>, key: T -> K, i: nat) returns (f: nat)
    requires i < |xs|
    ensures f <= i && key(xs[f]) == key(xs[i]) && FirstOfKey(xs, key, f)
    decreases i
  {
    if FirstOfKey(xs, key, i) {
      f := i;
    } else {
      var m :| 0 <= m < i && key(xs[m]) == key(xs[i]);
      f := FirstOccurrenceExists(xs, key, m);
    }
  }

  /**
   The seen-set filter over the whole list: no key repeats, every element
   kept is the first of its key, and every key of xs is represented.
   */
  function Dedup<T, K(==)>(xs: seq<T>, key: T -> K): (r: seq<T>)
    ensures forall a, b :: 0 <= a < b < |r| ==> key(r[a]) != key(r[b])
    ensures forall j :: 0 <= j < |r| ==> exists i :: 0 <= i < |xs| && r[j] == xs[i] && FirstOfKey(xs, key, i)
    ensures forall i :: 0 <= i < |xs| ==> exists j :: 0 <= j < |r| && key(r[j]) == key(xs[i])
  {
    DedupIsFirstOccurrences(xs, key);
    var idx := Indices(0, FirstHits(xs, key));
    var r := DedupFrom(xs, key, 0, {});
    forall i | 0 <= i < |xs|
      ensures exists j :: 0 <= j < |r| && key(r[j]) == key(xs[i])
    {
      var f := FirstOccurrenceExists(xs, key, i);
      assert f in idx;
      var j :| 0 <= j < |idx| && idx[j] == f;
      assert r[j] == xs[f];
    }
    r
  }

  /** The filter keeps exactly the first occurrences of the keys, in list order. */
  lemma DedupIsFirstOccurrences<T, K>(xs: seq<T>, key: T -> K)
    ensures DedupFrom(xs, key, 0, {}) == Pick(xs, Indices(0, FirstHits(xs, key)))
  {
    assert SeenKeys(xs, key, 0) == {};
    DedupFromIsFirstOccurrences(xs, key, 0, {});
  }

  /** The elements in non-increasing order of score. */
  predicate NonIncreasing<T>(xs: seq<T>, score: T -> real)
  {
    forall a, b :: 0 <= a < b < |xs| ==> score(xs[a]) >= score(xs[b])
  }

  /** Picking at ascending indices keeps a non-increasing order. */
  lemma PickKeepsOrder<T>(xs: seq<T>, idx: seq<nat>, score: T -> real)
    requires forall j :: 0 <= j < |idx| ==> idx[j] < |xs|
    requires Ascending(idx)
    requires NonIncreasing(xs, score)
    ensures NonIncreasing(Pick(xs, idx), score)
  {
  }

  /** On a list sorted by score, deduplication keeps the order. */
  lemma DedupKeepsOrder<T, K>(xs: seq<T>, key: T -> K, score: T -> real)
    requires NonIncreasing(xs, score)
    ensures NonIncreasing(Dedup(xs, key), score)
  {
    var idx := Indices(0, FirstHits(xs, key));
    DedupIsFirstOccurrences(xs, key);
    assert Dedup(xs, key) == Pick(xs, idx);
    PickKeepsOrder(xs, idx, score);
  }

  /** On a list sorted by score, the element kept for a key scores at least as high as every element with that key. */
  lemma DedupKeepsBest<T, K>(xs: seq<T>, key: T -> K, score: T -> real)
    requires NonIncreasing(xs, score)
    ensures forall j, i :: 0 <= j < |Dedup(xs, key)| && 0 <= i < |xs| && key(xs[i]) == key(Dedup(xs, key)[j]) ==>
              score(xs[i]) <= score(Dedup(xs, key)[j])
  {
    var r := Dedup(xs, key);
    forall j, i | 0 <= j < |r| && 0 <= i < |xs| && key(xs[i]) == key(r[j])
      ensures score(xs[i]) <= score(r[j])
    {
      var f :| 0 <= f < |xs| && r[j] == xs[f] && FirstOfKey(xs, key, f);
      assert f <= i;
      if f < i {
        assert score(xs[f]) >= score(xs[i]);
      }
    }
  }

  /**
   On a list sorted by score, deduplication keeps the order, and the element
   kept for a key scores at least as high as every element with that key.
   */
  lemma DedupOfSorted<T, K>(xs: seq<T>, key: T -> K, score: T -> real)
    requires NonIncreasing(xs, score)
    ensures NonIncreasing(Dedup(xs, key), score)
    ensures forall j, i :: 0 <= j < |Dedup(xs, key)| && 0 <= i < |xs| && key(xs[i]) == key(Dedup(xs, key)[j]) ==>
              score(xs[i]) <= score(Dedup(xs, key)[j])
  {
    DedupKeepsOrder(xs, key, score);
    DedupKeepsBest(xs, key, score);
  }

  /** `slice(0, n)`. */
  function Take<T>(xs: seq<T>, n: nat): (r: seq<T>)
    ensures |r| <= n && |r| <= |xs|
    ensures |r| == n || r == xs
    ensures forall k :: 0 <= k < |r| ==> r[k] == xs[k]
  {
    if |xs| <= n then xs else xs[..n]
  }

  /** The elements whose score is v, in order. */
  function WithScore<T>(xs: seq<T>, score: T -> real, v: real): seq<T>
  {
    if |xs| == 0 then []
    else (if score(xs[0]) == v then [xs[0]] else []) + WithScore(xs[1..], score, v)
  }

  /** Insert x before the first element that scores no higher. */
  function Insert<T>(x: T, ys: seq<T>, score: T -> real): (r: seq<T>)
    ensures multiset(r) == multiset(ys) + multiset{x}
  {
    if |ys| == 0 || score(ys[0]) <= score(x) then [x] + ys
    else
      assert ys == [ys[0]] + ys[1..];
      [ys[0]] + Insert(x, ys[1..], score)
  }

  /** Inserting into a non-increasing list keeps it non-increasing. */
  lemma {:induction false} InsertKeepsOrder<T>(x: T, ys: seq<T>, score: T -> real)
    requires NonIncreasing(ys, score)
    ensures NonIncreasing(Insert(x, ys, score), score)
  {
    if |ys| > 0 && score(ys[0]) > score(x) {
      var rest := Insert(x, ys[1..], score);
      InsertKeepsOrder(x, ys[1..], score);
      forall e | e in rest
        ensures score(e) <= score(ys[0])
      {
        assert e in multiset(rest);
        if e != x {
          assert e in ys[1..];
        }
      }
      assert Insert(x, ys, score) == [ys[0]] + rest;
    }
  }

  /** Inserting x only adds x in front of the elements of its own score: the elements it passes all score higher. */
  lemma {:induction false} InsertWithScore<T>(x: T, ys: seq<T>, score: T -> real, v: real)
    ensures WithScore(Insert(x, ys, score), score, v) ==
            (if score(x) == v then [x] else []) + WithScore(ys, score, v)
  {
    var own: seq<T> := if score(x) == v then [x] else [];
    if |ys| == 0 || score(ys[0]) <= score(x) {
      assert Insert(x, ys, score) == [x] + ys;
      assert ([x] + ys)[1..] == ys;
    } else {
      var rest := Insert(x, ys[1..], score);
      assert Insert(x, ys, score) == [ys[0]] + rest;
      InsertWithScore(x, ys[1..], score, v);
      assert ([ys[0]] + rest)[1..] == rest;
      var head: seq<T> := if score(ys[0]) == v then [ys[0]] else [];
      assert WithScore(ys, score, v) == head + WithScore(ys[1..], score, v);
      assert WithScore([ys[0]] + rest, score, v) == head + (own + WithScore(ys[1..], score, v));
      assert head == [] || own == [];
    }
  }

  /** The sort `xs.sort((a, b) => score(b) - score(a))`: a non-increasing permutation of xs. */
  function SortDescending<T>(xs: seq<T>, score: T -> real): (r: seq<T>)
    ensures NonIncreasing(r, score)
    ensures multiset(r) == multiset(xs)
  {
    if |xs| == 0 then []
    else
      assert xs == [xs[0]] + xs[1..];
      var sorted := SortDescending(xs[1..], score);
      InsertKeepsOrder(xs[0], sorted, score);
      Insert(xs[0], sorted, score)
  }

  /** The sort is stable: the elements of any one score keep their input order. */
  lemma {:induction false} SortIsStable<T>(xs: seq<T>, score: T -> real, v: real)
    ensures WithScore(SortDescending(xs, score), score, v) == WithScore(xs, score, v)
  {
    if |xs| > 0 {
      SortIsStable(xs[1..], score, v);
      InsertWithScore(xs[0], SortDescending(xs[1..], score), score, v);
    }
  }

  /**
   Sorting by score and then keeping the first element per key: elements
   of xs with distinct keys, in non-increasing score.
   */
  lemma BestPerKeyOrdered<T, K>(xs: seq<T>, key: T -> K, score: T -> real)
    ensures var u := Dedup(SortDescending(xs, score), key);
            (forall k :: 0 <= k < |u| ==> u[k] in xs) &&
            (forall a, b :: 0 <= a < b < |u| ==> key(u[a]) != key(u[b])) &&
            NonIncreasing(u, score)
  {
    var sorted := SortDescending(xs, score);
    var u := Dedup(sorted, key);
    DedupOfSorted(sorted, key, score);
    forall k | 0 <= k < |u|
      ensures u[k] in xs
    {
      var i :| 0 <= i < |sorted| && u[k] == sorted[i] && FirstOfKey(sorted, key, i);
      assert u[k] in multiset(sorted);
    }
  }

  /** The element kept for a key scores at least as high as every element of xs with that key. */
  lemma BestPerKeyIsBest<T, K>(xs: seq<T>, key: T -> K, score: T -> real)
    ensures var u := Dedup(SortDescending(xs, score), key);
            forall k, x :: 0 <= k < |u| && x in xs && key(x) == key(u[k]) ==> score(x) <= score(u[k])
  {
    var sorted := SortDescending(xs, score);
    var u := Dedup(sorted, key);
    DedupOfSorted(sorted, key, score);
    forall k, x | 0 <= k < |u| && x in xs && key(x) == key(u[k])
      ensures score(x) <= score(u[k])
    {
      assert x in multiset(sorted);
      var i :| 0 <= i < |sorted| && sorted[i] == x;
    }
  }

  /** Every key of xs is kept, by an element scoring at least as high as any element of xs with that key. */
  lemma KeptFor<T, K>(xs: seq<T>, key: T -> K, score: T -> real, x: T) returns (p: nat)
    requires x in xs
    ensures p < |Dedup(SortDescending(xs, score), key)|
    ensures key(Dedup(SortDescending(xs, score), key)[p]) == key(x)
    ensures score(x) <= score(Dedup(SortDescending(xs, score), key)[p])
  {
    var sorted := SortDescending(xs, score);
    var u := Dedup(sorted, key);
    DedupOfSorted(sorted, key, score);
    assert x in multiset(sorted);
    var i :| 0 <= i < |sorted| && sorted[i] == x;
    p :| 0 <= p < |u| && key(u[p]) == key(sorted[i]);
  }

  /**
   The scan `if (s > best) { best = s; pick = i }` over the entries from i on,
   skipping those without a score.
   */
  function BestScan(scores: seq<Option<real>>, i: nat, best: real, pick: Option<nat>): Option<nat>
    decreases |scores| - i
  {
    if i >= |scores| then pick
    else if scores[i].Some? && scores[i].value > best then BestScan(scores, i + 1, scores[i].value, Some(i))
    else BestScan(scores, i + 1, best, pick)
  }

  /** What the scan knows after the entries before i. */
  predicate ScanInvariant(scores: seq<Option<real>>, i: nat, best: real, pick: Option<nat>)
  {
    i <= |scores| &&
    (pick.None? ==> best == 0.0 && forall k :: 0 <= k < i && scores[k].Some? ==> scores[k].value <= 0.0) &&
    (pick.Some? ==>
       pick.value < i && scores[pick.value] == Some(best) && best > 0.0 &&
       (forall k :: 0 <= k < i && scores[k].Some? ==> scores[k].value <= best) &&
       (forall k :: 0 <= k < pick.value && scores[k].Some? ==> scores[k].value < best))
  }

  /** The earliest entry of the highest positive score, if any entry scores above 0. */
  predicate IsFirstBest(scores: seq<Option<real>>, r: Option<nat>)
  {
    (r.None? <==> forall k :: 0 <= k < |scores| && scores[k].Some? ==> scores[k].value <= 0.0) &&
    (r.Some? ==>
       r.value < |scores| && scores[r.value].Some? && scores[r.value].value > 0.0 &&
       (forall k :: 0 <= k < |scores| && scores[k].Some? ==> scores[k].value <= scores[r.value].value) &&
       (forall k :: 0 <= k < r.value && scores[k].Some? ==> scores[k].value < scores[r.value].value))
  }

  lemma {:induction false} BestScanIsFirstBest(scores: seq<Option<real>>, i: nat, best: real, pick: Option<nat>)
    requires ScanInvariant(scores, i, best, pick)
    ensures IsFirstBest(scores, BestScan(scores, i, best, pick))
    decreases |scores| - i
  {
    if i < |scores| {
      if scores[i].Some? && scores[i].value > best {
        BestScanIsFirstBest(scores, i + 1, scores[i].value, Some(i));
      } else {
        BestScanIsFirstBest(scores, i + 1, best, pick);
      }
    }
  }

  /**
   The scan from `best = 0` with nothing picked: the earliest entry holding
   the highest score, and nothing when no score is positive.
   */
  function FirstBest(scores: seq<Option<real>>): (r: Option<nat>)
    ensures r.None? <==> forall k :: 0 <= k < |scores| && scores[k].Some? ==> scores[k].value <= 0.0
    ensures r.Some? ==> r.value < |scores| && scores[r.value].Some? && scores[r.value].value > 0.0
    ensures r.Some? ==> forall k :: 0 <= k < |scores| && scores[k].Some? ==> scores[k].value <= scores[r.value].value
    ensures r.Some? ==> forall k :: 0 <= k < r.value && scores[k].Some? ==> scores[k].value < scores[r.value].value
  {
    BestScanIsFirstBest(scores, 0, 0.0, None);
    BestScan(scores, 0, 0.0, None)
  }
}
