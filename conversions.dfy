/** The three container builders of the library: a record's own properties
    turned into a `Map` from key to value or from value to key, and an array's
    elements or a string's code units turned into a `Set`. Each allocates a
    fresh container and fills it one insertion at a time; `id` is the identity
    the allocation gives the new container. */
module Conversions {
  import opened JsValues
  import opened JsCollections
  import opened Guards

  /** The (key, value) pairs `keys.forEach(key => map.set(key, val[key]))`
      hands to `set`, in `Object.keys` order. */
  function KeyValuePairs(v: Value): (ps: Entries)
    requires v.Obj? || v.OtherObj?
    ensures |ps| == |v.props|
  {
    var keys := ObjectKeys(v);
    seq(|keys|, i requires 0 <= i < |keys| => (Str(keys[i]), PropLookup(v.props, keys[i])))
  }

  /** The (value, key) pairs `keys.forEach(key => map.set(val[key], key))`
      hands to `set`, in `Object.keys` order. */
  function ValueKeyPairs(v: Value): (ps: Entries)
    requires v.Obj? || v.OtherObj?
    ensures |ps| == |v.props|
  {
    var keys := ObjectKeys(v);
    seq(|keys|, i requires 0 <= i < |keys| => (PropLookup(v.props, keys[i]), Str(keys[i])))
  }

  /** Each own property as an entry keyed by its name. */
  function OwnEntries(props: seq<(JsString, Value)>): (m: Entries)
  {
    seq(|props|, i requires 0 <= i < |props| => (Str(props[i].0), props[i].1))
  }

  /** The values of the own properties, in key order. */
  function OwnValues(props: seq<(JsString, Value)>): (vs: seq<Value>)
  {
    seq(|props|, i requires 0 <= i < |props| => props[i].1)
  }

  /** Reference definition of the reverse lookup: the name of the last own
      property (in key order) whose value is SameValueZero to `y`. */
  function LastKeyHolding(props: seq<(JsString, Value)>, y: Value): Option<Value>
  {
    if props == [] then None
    else if SameValueZero(props[|props| - 1].1, y) then Some(Str(props[|props| - 1].0))
    else LastKeyHolding(props[..|props| - 1], y)
  }

  // ---------------------------------------------------------------------------
  // The builders

  /** `mapOfOrDefault`: the fallback for anything `isObject` refuses; else a
      new Map holding every own property under its name, in key order, one
      entry per key. */
  method MapOfOrDefault(v: Value, d: Value, id: nat) returns (r: Value)
    ensures !IsObject(v) ==> r == d
    ensures IsObject(v) ==> r == MapObj(id, MapFromPairs(KeyValuePairs(v)))
    ensures IsObject(v) && DistinctKeys(v.props) ==>
      r.entries == OwnEntries(v.props) && |r.entries| == |v.props|
  {
    if !IsObject(v) {
      return d;
    }
    var entries: Entries := [];
    var keys := ObjectKeys(v);
    for i := 0 to |keys|
      invariant entries == MapFromPairs(KeyValuePairs(v)[..i])
    {
      entries := MapSet(entries, Str(keys[i]), PropLookup(v.props, keys[i]));
      assert KeyValuePairs(v)[..i + 1][..i] == KeyValuePairs(v)[..i];
    }
    assert KeyValuePairs(v)[..|keys|] == KeyValuePairs(v);
    if DistinctKeys(v.props) {
      MapOfRecordIsItsEntries(v);
    }
    r := MapObj(id, entries);
  }

  /** `revMapOfOrDefault`: the fallback for anything `isObject` refuses; else a
      new Map whose keys are the distinct property values in order of first
      occurrence, each mapped to the name of the last property holding it. */
  method RevMapOfOrDefault(v: Value, d: Value, id: nat) returns (r: Value)
    ensures !IsObject(v) ==> r == d
    ensures IsObject(v) ==> r == MapObj(id, MapFromPairs(ValueKeyPairs(v)))
    ensures IsObject(v) && DistinctKeys(v.props) ==>
      Keys(r.entries) == FirstOccurrences(OwnValues(v.props)) &&
      |r.entries| <= |v.props| &&
      forall y :: MapGet(r.entries, y) == LastKeyHolding(v.props, y)
  {
    if !IsObject(v) {
      return d;
    }
    var entries: Entries := [];
    var keys := ObjectKeys(v);
    for i := 0 to |keys|
      invariant entries == MapFromPairs(ValueKeyPairs(v)[..i])
    {
      entries := MapSet(entries, PropLookup(v.props, keys[i]), Str(keys[i]));
      assert ValueKeyPairs(v)[..i + 1][..i] == ValueKeyPairs(v)[..i];
    }
    assert ValueKeyPairs(v)[..|keys|] == ValueKeyPairs(v);
    if DistinctKeys(v.props) {
      RevMapKeysAreFirstOccurrences(v);
      forall y ensures MapGet(entries, y) == LastKeyHolding(v.props, y) {
        RevMapLastKeyWins(v, y);
      }
    }
    r := MapObj(id, entries);
  }

  /** `new Set(iterable)`: a new Set to which each item is added in order. */
  method NewSet(items: seq<Value>, id: nat) returns (r: Value)
    ensures r == SetObj(id, SetFromList(items))
  {
    var s: seq<Value> := [];
    for i := 0 to |items|
      invariant s == SetFromList(items[..i])
    {
      s := SetAdd(s, items[i]);
      assert items[..i + 1][..i] == items[..i];
    }
    assert items[..|items|] == items;
    r := SetObj(id, s);
  }

  /** `setOfOrDefault`: for an array the Set of its elements, for a string
      the Set of its single-code-unit strings, for anything else the
      fallback. */
  method SetOfOrDefault(v: Value, d: Value, id: nat) returns (r: Value)
    ensures IsArray(v) ==> r == SetObj(id, SetFromList(v.elems))
    ensures !IsArray(v) && IsString(v) ==> r == SetObj(id, SetFromList(SplitCodeUnits(v.s)))
    ensures !IsArray(v) && !IsString(v) ==> r == d
  {
    if IsArray(v) {
      r := NewSet(v.elems, id);
    } else if IsString(v) {
      r := NewSet(SplitCodeUnits(v.s), id);
    } else {
      r := d;
    }
  }

  // ---------------------------------------------------------------------------
  // What the builders produce

  /** With its own keys pairwise different, as a record's are, `val[key]`
      finds each key's own value, so the pairs handed to `set` are the
      properties themselves. */
  lemma PairsOfRecord(v: Value)
    requires (v.Obj? || v.OtherObj?) && DistinctKeys(v.props)
    ensures KeyValuePairs(v) == OwnEntries(v.props)
    ensures forall i | 0 <= i < |v.props| :: ValueKeyPairs(v)[i] == (v.props[i].1, Str(v.props[i].0))
  {
    forall i | 0 <= i < |v.props| ensures PropLookup(v.props, v.props[i].0) == v.props[i].1 {
      PropLookupOwnKey(v.props, i);
    }
  }

  /** `mapOfOrDefault` of a record: its entries are exactly the own
      properties under their names, in key order. */
  lemma MapOfRecordIsItsEntries(v: Value)
    requires (v.Obj? || v.OtherObj?) && DistinctKeys(v.props)
    ensures MapFromPairs(KeyValuePairs(v)) == OwnEntries(v.props)
  {
    PairsOfRecord(v);
    var ps := OwnEntries(v.props);
    assert Distinct(Keys(ps)) by {
      forall i, j | 0 <= i < j < |ps| ensures !SameValueZero(Keys(ps)[i], Keys(ps)[j]) {
        assert v.props[i].0 != v.props[j].0;
      }
    }
    MapFromPairsOfDistinct(ps);
  }

  /** `revMapOfOrDefault` of a record: its keys are the distinct property
      values, in order of first occurrence. */
  lemma RevMapKeysAreFirstOccurrences(v: Value)
    requires (v.Obj? || v.OtherObj?) && DistinctKeys(v.props)
    ensures Keys(MapFromPairs(ValueKeyPairs(v))) == FirstOccurrences(OwnValues(v.props))
  {
    PairsOfRecord(v);
    MapFromPairsKeys(ValueKeyPairs(v));
    assert Keys(ValueKeyPairs(v)) == OwnValues(v.props);
    SetFromListIsFirstOccurrences(OwnValues(v.props));
  }

  lemma {:induction false} LastValueOfSwapped(props: seq<(JsString, Value)>, ps: Entries, y: Value)
    requires |ps| == |props|
    requires forall i | 0 <= i < |props| :: ps[i] == (props[i].1, Str(props[i].0))
    ensures LastValue(ps, y) == LastKeyHolding(props, y)
  {
    if props != [] {
      LastValueOfSwapped(props[..|props| - 1], ps[..|ps| - 1], y);
    }
  }

  /** `revMapOfOrDefault` of a record: each value maps to the name of the last
      property, in key order, that holds it. */
  lemma RevMapLastKeyWins(v: Value, y: Value)
    requires (v.Obj? || v.OtherObj?) && DistinctKeys(v.props)
    ensures MapGet(MapFromPairs(ValueKeyPairs(v)), y) == LastKeyHolding(v.props, y)
  {
    PairsOfRecord(v);
    MapFromPairsGet(ValueKeyPairs(v), y);
    LastValueOfSwapped(v.props, ValueKeyPairs(v), y);
  }

  /** `setOfOrDefault` of a string: the Set holds exactly the one-code-unit
      strings of the code units the string contains, each once, and no more
      of them than the string is long. */
  lemma SetOfStringHoldsItsCodeUnits(s: JsString)
    ensures Distinct(SetFromList(SplitCodeUnits(s)))
    ensures |SetFromList(SplitCodeUnits(s))| <= |s|
    ensures forall y :: Has(SetFromList(SplitCodeUnits(s)), y) <==> y.Str? && |y.s| == 1 && y.s[0] in s
  {
    var units := SplitCodeUnits(s);
    SetFromListDistinct(units);
    forall y ensures Has(SetFromList(units), y) <==> y.Str? && |y.s| == 1 && y.s[0] in s {
      SetFromListMembers(units, y);
      if y.Str? && |y.s| == 1 && y.s[0] in s {
        var i :| 0 <= i < |s| && s[i] == y.s[0];
        assert SameValueZero(units[i], y);
      }
    }
  }

  /** `setOfOrDefault` of an array: the Set holds each element once, in order
      of first occurrence, and no more elements than the array. */
  lemma SetOfArrayHoldsItsElements(xs: seq<Value>)
    ensures SetFromList(xs) == FirstOccurrences(xs)
    ensures Distinct(SetFromList(xs)) && |SetFromList(xs)| <= |xs|
    ensures forall y :: Has(SetFromList(xs), y) <==> Has(xs, y)
  {
    SetFromListIsFirstOccurrences(xs);
    SetFromListDistinct(xs);
    forall y ensures Has(SetFromList(xs), y) <==> Has(xs, y) {
      SetFromListMembers(xs, y);
    }
  }

  /** Example of `mapOfOrDefault`: `{a: 1, b: 2}` gives the Map
      a -> 1, b -> 2 (0x61 and 0x62 are the letters a and b). */
  lemma MapOfTwoKeyRecord()
    ensures var one, two := Num(Finite(1.0)), Num(Finite(2.0));
      MapFromPairs(KeyValuePairs(Obj(0, [([0x61], one), ([0x62], two)]))) == [(Str([0x61]), one), (Str([0x62]), two)]
  {
    var one, two := Num(Finite(1.0)), Num(Finite(2.0));
    var v := Obj(0, [([0x61], one), ([0x62], two)]);
    MapOfRecordIsItsEntries(v);
    assert OwnEntries(v.props) == [(Str([0x61]), one), (Str([0x62]), two)];
  }

  /** Example of `revMapOfOrDefault`: `{a: 1, b: 1}` gives the
      single entry 1 -> "b", the later key winning. */
  lemma RevMapOfSharedValue()
    ensures var one := Num(Finite(1.0));
      MapFromPairs(ValueKeyPairs(Obj(0, [([0x61], one), ([0x62], one)]))) == [(one, Str([0x62]))]
  {
    var one := Num(Finite(1.0));
    var v := Obj(0, [([0x61], one), ([0x62], one)]);
    var ps := ValueKeyPairs(v);
    PairsOfRecord(v);
    assert ps == [(one, Str([0x61])), (one, Str([0x62]))];
    assert ps[..1] == [(one, Str([0x61]))] && ps[..1][..0] == [];
    assert MapFromPairs(ps[..1]) == [(one, Str([0x61]))];
  }

  /** Examples of `setOfOrDefault`: "aab" gives the Set
      {"a", "b"} and `[1, 1, 2]` the Set {1, 2}. */
  lemma SetOfExamples()
    ensures SetFromList(SplitCodeUnits([0x61, 0x61, 0x62])) == [Str([0x61]), Str([0x62])]
    ensures var one, two := Num(Finite(1.0)), Num(Finite(2.0));
      SetFromList([one, one, two]) == [one, two]
  {
    var a, b := Str([0x61]), Str([0x62]);
    var units := SplitCodeUnits([0x61, 0x61, 0x62]);
    assert units == [a, a, b];
    assert units[..2] == [a, a] && units[..2][..1] == [a] && units[..2][..1][..0] == [];
    assert SetFromList([a]) == [a];
    assert SetFromList([a, a]) == [a];
    assert SetAdd([a], b) == [a] + SetAdd([], b);
    var one, two := Num(Finite(1.0)), Num(Finite(2.0));
    var xs := [one, one, two];
    assert xs[..2] == [one, one] && xs[..2][..1] == [one] && xs[..2][..1][..0] == [];
    assert SetFromList([one]) == [one];
    assert SetFromList([one, one]) == [one];
    assert SetAdd([one], two) == [one] + SetAdd([], two);
  }
}
