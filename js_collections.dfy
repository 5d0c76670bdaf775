/** The insertion-ordered `Map` and `Set` of JavaScript, as the library fills
    them: a map is its list of entries and a set its list of elements, in
    insertion order, keys compared with SameValueZero. */
module JsCollections {
  import opened JsValues

  datatype Option<T> = None | Some(value: T)

  /** A map's entries (key, value), in insertion order. */
  type Entries = seq<(Value, Value)>

  /** Some element of `s` is SameValueZero to `x`. */
  predicate Has(s: seq<Value>, x: Value)
  {
    exists i | 0 <= i < |s| :: SameValueZero(s[i], x)
  }

  /** No two elements of `s` are SameValueZero. */
  predicate Distinct(s: seq<Value>)
  {
    forall i, j | 0 <= i < j < |s| :: !SameValueZero(s[i], s[j])
  }

  function Keys(m: Entries): (ks: seq<Value>)
    ensures |ks| == |m|
    ensures forall i | 0 <= i < |m| :: ks[i] == m[i].0
  {
    seq(|m|, i requires 0 <= i < |m| => m[i].0)
  }

  /** `Set.prototype.add`: scan the elements for one SameValueZero to `x`; if
      there is none, append `x` (with -0 stored as +0). The elements already
      present keep their places, and at most one is added. */
  function SetAdd(s: seq<Value>, x: Value): (r: seq<Value>)
    ensures |s| <= |r| <= |s| + 1
    ensures r[..|s|] == s
    ensures |r| == |s| + 1 ==> r[|s|] == CanonicalKey(x)
  {
    if s == [] then [CanonicalKey(x)]
    else if SameValueZero(s[0], x) then s
    else [s[0]] + SetAdd(s[1..], x)
  }

  /** `Map.prototype.set`: overwrite the value of the entry whose key is
      SameValueZero to `k`, keeping its place; if there is none, append a new
      entry (with -0 stored as +0). Every existing key keeps its place, at
      most one entry is added. */
  function MapSet(m: Entries, k: Value, v: Value): (r: Entries)
    ensures |m| <= |r| <= |m| + 1
    ensures forall i {:trigger r[i]} | 0 <= i < |m| :: r[i].0 == m[i].0
    ensures |r| == |m| + 1 ==> r[|m|] == (CanonicalKey(k), v)
  {
    if m == [] then [(CanonicalKey(k), v)]
    else if SameValueZero(m[0].0, k) then [(m[0].0, v)] + m[1..]
    else [m[0]] + MapSet(m[1..], k, v)
  }

  /** `Map.prototype.get`, with `undefined` for a missing key as None. */
  function MapGet(m: Entries, y: Value): Option<Value>
  {
    if m == [] then None
    else if SameValueZero(m[0].0, y) then Some(m[0].1)
    else MapGet(m[1..], y)
  }

  /** The elements of `new Set()` after `add(x)` for each `x` of `xs` in order. */
  function SetFromList(xs: seq<Value>): (r: seq<Value>)
    ensures |r| <= |xs|
  {
    if xs == [] then [] else SetAdd(SetFromList(xs[..|xs| - 1]), xs[|xs| - 1])
  }

  /** The entries of `new Map()` after `set(k, v)` for each pair of `ps` in order. */
  function MapFromPairs(ps: Entries): (r: Entries)
    ensures |r| <= |ps|
  {
    if ps == [] then [] else MapSet(MapFromPairs(ps[..|ps| - 1]), ps[|ps| - 1].0, ps[|ps| - 1].1)
  }

  /** Reference definition of deduplication: each element of `xs` that no
      earlier element is SameValueZero to, in order, with -0 read as +0. */
  function FirstOccurrences(xs: seq<Value>): seq<Value>
  {
    if xs == [] then []
    else
      var init, x := xs[..|xs| - 1], xs[|xs| - 1];
      FirstOccurrences(init) + (if Has(init, x) then [] else [CanonicalKey(x)])
  }

  /** Reference definition of last-write-wins: the value of the last pair of
      `ps` whose key is SameValueZero to `y`. */
  function LastValue(ps: Entries, y: Value): Option<Value>
  {
    if ps == [] then None
    else if SameValueZero(ps[|ps| - 1].0, y) then Some(ps[|ps| - 1].1)
    else LastValue(ps[..|ps| - 1], y)
  }

  // ---------------------------------------------------------------------------
  // One step: add and set

  lemma HasFirstOrRest(s: seq<Value>, x: Value)
    requires s != []
    ensures Has(s, x) <==> SameValueZero(s[0], x) || Has(s[1..], x)
  {
    if Has(s[1..], x) {
      var i :| 0 <= i < |s| - 1 && SameValueZero(s[1..][i], x);
      assert s[i + 1] == s[1..][i];
    }
  }

  lemma HasInitOrLast(s: seq<Value>, x: Value, y: Value)
    ensures Has(s + [x], y) <==> Has(s, y) || SameValueZero(x, y)
  {
    var t := s + [x];
    if Has(s, y) {
      var i :| 0 <= i < |s| && SameValueZero(s[i], y);
      assert t[i] == s[i];
    }
    if Has(t, y) && !SameValueZero(x, y) {
      var i :| 0 <= i < |t| && SameValueZero(t[i], y);
      assert i < |s| && t[i] == s[i];
    }
    assert t[|s|] == x;
  }

  /** `add` leaves a set unchanged when it already holds an equal element and
      otherwise appends the element at the end. */
  lemma {:induction false} SetAddAppendsOrKeeps(s: seq<Value>, x: Value)
    ensures Has(s, x) ==> SetAdd(s, x) == s
    ensures !Has(s, x) ==> SetAdd(s, x) == s + [CanonicalKey(x)]
  {
    if s != [] {
      HasFirstOrRest(s, x);
      if !SameValueZero(s[0], x) {
        SetAddAppendsOrKeeps(s[1..], x);
        assert s == [s[0]] + s[1..];
      }
    }
  }

  /** After `add(x)` the set holds exactly what it held before plus `x`. */
  lemma SetAddMembers(s: seq<Value>, x: Value, y: Value)
    ensures Has(SetAdd(s, x), y) <==> Has(s, y) || SameValueZero(x, y)
  {
    SetAddAppendsOrKeeps(s, x);
    HasInitOrLast(s, CanonicalKey(x), y);
    if Has(s, x) && SameValueZero(x, y) {
      var i :| 0 <= i < |s| && SameValueZero(s[i], x);
    }
  }

  /** `add` keeps the elements pairwise different. */
  lemma SetAddDistinct(s: seq<Value>, x: Value)
    requires Distinct(s)
    ensures Distinct(SetAdd(s, x))
  {
    SetAddAppendsOrKeeps(s, x);
    if !Has(s, x) {
      var r := SetAdd(s, x);
      forall i, j | 0 <= i < j < |r| ensures !SameValueZero(r[i], r[j]) {
        assert r[i] == s[i];
      }
    }
  }

  /** `set(k, v)` changes the key list exactly as `add(k)` changes a set. */
  lemma {:induction false} MapSetKeys(m: Entries, k: Value, v: Value)
    ensures Keys(MapSet(m, k, v)) == SetAdd(Keys(m), k)
  {
    if m != [] && !SameValueZero(m[0].0, k) {
      MapSetKeys(m[1..], k, v);
      assert Keys(m)[1..] == Keys(m[1..]);
    }
  }

  lemma MapGetFirstOrRest(e: (Value, Value), m: Entries, y: Value)
    ensures MapGet([e] + m, y) == if SameValueZero(e.0, y) then Some(e.1) else MapGet(m, y)
  {
    assert ([e] + m)[1..] == m;
  }

  lemma MapSetGetOnEmpty(k: Value, v: Value, y: Value)
    ensures MapGet(MapSet([], k, v), y) == if SameValueZero(k, y) then Some(v) else None
  {
    MapGetFirstOrRest((CanonicalKey(k), v), [], y);
  }

  lemma MapSetGetOnHit(m: Entries, k: Value, v: Value, y: Value)
    requires m != [] && SameValueZero(m[0].0, k)
    ensures MapGet(MapSet(m, k, v), y) == if SameValueZero(k, y) then Some(v) else MapGet(m, y)
  {
    MapGetFirstOrRest((m[0].0, v), m[1..], y);
    MapGetFirstOrRest(m[0], m[1..], y);
    assert m == [m[0]] + m[1..];
  }

  lemma MapSetGetOnMiss(m: Entries, k: Value, v: Value, y: Value)
    requires m != [] && !SameValueZero(m[0].0, k)
    requires MapGet(MapSet(m[1..], k, v), y) == if SameValueZero(k, y) then Some(v) else MapGet(m[1..], y)
    ensures MapGet(MapSet(m, k, v), y) == if SameValueZero(k, y) then Some(v) else MapGet(m, y)
  {
    MapGetFirstOrRest(m[0], MapSet(m[1..], k, v), y);
    MapGetFirstOrRest(m[0], m[1..], y);
    assert m == [m[0]] + m[1..];
  }

  /** After `set(k, v)`, `get(k)` gives `v` and every other key keeps its value. */
  lemma {:induction false} MapSetGet(m: Entries, k: Value, v: Value, y: Value)
    ensures MapGet(MapSet(m, k, v), y) == if SameValueZero(k, y) then Some(v) else MapGet(m, y)
  {
    if m == [] {
      MapSetGetOnEmpty(k, v, y);
    } else if SameValueZero(m[0].0, k) {
      MapSetGetOnHit(m, k, v, y);
    } else {
      MapSetGet(m[1..], k, v, y);
      MapSetGetOnMiss(m, k, v, y);
    }
  }

  // ---------------------------------------------------------------------------
  // Whole folds

  /** A set filled element by element holds exactly the input's elements. */
  lemma {:induction false} SetFromListMembers(xs: seq<Value>, y: Value)
    ensures Has(SetFromList(xs), y) <==> Has(xs, y)
  {
    if xs != [] {
      var init, x := xs[..|xs| - 1], xs[|xs| - 1];
      SetFromListMembers(init, y);
      SetAddMembers(SetFromList(init), x, y);
      HasInitOrLast(init, x, y);
      assert xs == init + [x];
    }
  }

  /** A set filled element by element never holds two equal elements. */
  lemma {:induction false} SetFromListDistinct(xs: seq<Value>)
    ensures Distinct(SetFromList(xs))
  {
    if xs != [] {
      SetFromListDistinct(xs[..|xs| - 1]);
      SetAddDistinct(SetFromList(xs[..|xs| - 1]), xs[|xs| - 1]);
    }
  }

  /** Filling a set element by element keeps the first occurrence of each
      element, in input order. */
  lemma {:induction false} SetFromListIsFirstOccurrences(xs: seq<Value>)
    ensures SetFromList(xs) == FirstOccurrences(xs)
  {
    if xs != [] {
      var init, x := xs[..|xs| - 1], xs[|xs| - 1];
      SetFromListIsFirstOccurrences(init);
      SetFromListMembers(init, x);
      SetAddAppendsOrKeeps(SetFromList(init), x);
    }
  }

  /** Elements that are already pairwise different and stored as they are
      (no -0) are kept as they are, in their order. */
  lemma {:induction false} SetFromListOfDistinct(xs: seq<Value>)
    requires Distinct(xs)
    requires forall i | 0 <= i < |xs| :: CanonicalKey(xs[i]) == xs[i]
    ensures SetFromList(xs) == xs
  {
    if xs != [] {
      var init, x := xs[..|xs| - 1], xs[|xs| - 1];
      SetFromListOfDistinct(init);
      SetAddAppendsOrKeeps(init, x);
      assert !Has(init, x) by {
        forall i | 0 <= i < |init| ensures !SameValueZero(init[i], x) {
          assert init[i] == xs[i];
        }
      }
    }
  }

  /** The keys of a map filled pair by pair are the keys of the pairs without
      repetition, in order of first occurrence. */
  lemma {:induction false} MapFromPairsKeys(ps: Entries)
    ensures Keys(MapFromPairs(ps)) == SetFromList(Keys(ps))
  {
    if ps != [] {
      var init := ps[..|ps| - 1];
      MapFromPairsKeys(init);
      MapSetKeys(MapFromPairs(init), ps[|ps| - 1].0, ps[|ps| - 1].1);
      assert Keys(ps)[..|ps| - 1] == Keys(init);
    }
  }

  /** Last write wins: in a map filled pair by pair, each key holds the value
      of the last pair with that key. */
  lemma {:induction false} MapFromPairsGet(ps: Entries, y: Value)
    ensures MapGet(MapFromPairs(ps), y) == LastValue(ps, y)
  {
    if ps != [] {
      var init := ps[..|ps| - 1];
      MapFromPairsGet(init, y);
      MapSetGet(MapFromPairs(init), ps[|ps| - 1].0, ps[|ps| - 1].1, y);
    }
  }

  /** `set` of a key the map does not hold appends a new entry. */
  lemma {:induction false} MapSetAppendsNewKey(m: Entries, k: Value, v: Value)
    requires !Has(Keys(m), k)
    ensures MapSet(m, k, v) == m + [(CanonicalKey(k), v)]
  {
    if m != [] {
      HasFirstOrRest(Keys(m), k);
      assert Keys(m)[1..] == Keys(m[1..]);
      MapSetAppendsNewKey(m[1..], k, v);
      assert m == [m[0]] + m[1..];
    }
  }

  /** Pairs whose keys are already pairwise different (and not -0) fill a map
      with exactly those pairs, in order. */
  lemma {:induction false} MapFromPairsOfDistinct(ps: Entries)
    requires Distinct(Keys(ps))
    requires forall i | 0 <= i < |ps| :: CanonicalKey(ps[i].0) == ps[i].0
    ensures MapFromPairs(ps) == ps
  {
    if ps != [] {
      var init, k := ps[..|ps| - 1], ps[|ps| - 1].0;
      assert Keys(init) == Keys(ps)[..|ps| - 1];
      MapFromPairsOfDistinct(init);
      assert !Has(Keys(init), k) by {
        forall i | 0 <= i < |init| ensures !SameValueZero(Keys(init)[i], k) {
          assert Keys(init)[i] == Keys(ps)[i];
        }
      }
      MapSetAppendsNewKey(init, k, ps[|ps| - 1].1);
    }
  }
}
