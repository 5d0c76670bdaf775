/** The JavaScript runtime values the library classifies, and the few language
    operations its one-line predicates are built from: `typeof`, `===`,
    `Number.isNaN`, the relational comparison of two numbers,
    `String.prototype.trim`, `Object.keys`, property lookup and `split('')`.
 */
module JsValues {

  /** A UTF-16 code unit. JavaScript strings are sequences of these, lone
      surrogates included, so they are not modelled as Dafny `char`s. */
  newtype CodeUnit = x: int | 0 <= x < 0x1_0000

  type JsString = seq<CodeUnit>

  type NonZeroReal = x: real | x != 0.0 witness 1.0

  /** A double as far as the library looks at it: NaN, the two infinities,
      the two zeros and the finite non-zero values. */
  datatype Number =
    | NaN
    | Infinity(negative: bool)
    | Zero(negative: bool)
    | Finite(x: NonZeroReal)

  /** A JavaScript value. Every object carries the identity `id` of the
      object it denotes; two values with the same `id` are the same object.
      `props` are an object's own enumerable string-keyed properties in
      `Object.keys` order. */
  datatype Value =
    | Undefined
    | Null
    | Bool(b: bool)
    | Num(n: Number)
    | BigInt(i: int)
    | Str(s: JsString)
    | Symbol(id: nat)
    | Arr(id: nat, elems: seq<Value>)
    | Obj(id: nat, props: seq<(JsString, Value)>)
    /** Any other non-callable object: a Date, a RegExp, a boxed primitive, ... */
    | OtherObj(id: nat, props: seq<(JsString, Value)>)
    | SetObj(id: nat, elems: seq<Value>)
    | MapObj(id: nat, entries: seq<(Value, Value)>)
    | WeakSetObj(id: nat)
    | WeakMapObj(id: nat)
    | Func(id: nat)

  predicate IsReference(v: Value)
  {
    v.Arr? || v.Obj? || v.OtherObj? || v.SetObj? || v.MapObj? ||
    v.WeakSetObj? || v.WeakMapObj? || v.Func?
  }

  /** The `typeof` operator: "function" for callables only, "object" for
      `null` and for every other object. */
  function TypeOf(v: Value): (r: string)
    ensures r == "function" <==> v.Func?
    ensures r == "object" <==> v.Null? || (IsReference(v) && !v.Func?)
    ensures r == "number" <==> v.Num?
    ensures r == "string" <==> v.Str?
  {
    match v
    case Undefined => "undefined"
    case Bool(_) => "boolean"
    case Num(_) => "number"
    case BigInt(_) => "bigint"
    case Str(_) => "string"
    case Symbol(_) => "symbol"
    case Func(_) => "function"
    case _ => "object"
  }

  /** Equality of two numbers under `===`: NaN equals nothing, the zeros are equal. */
  predicate NumberEquals(x: Number, y: Number)
  {
    !x.NaN? && !y.NaN? && (x == y || (x.Zero? && y.Zero?))
  }

  /** Equality of two numbers under SameValueZero: NaN equals NaN, the zeros are equal. */
  predicate NumberSameValueZero(x: Number, y: Number)
  {
    x == y || (x.Zero? && y.Zero?)
  }

  /** SameValueNonNumber: primitives by content, symbols and objects by identity. */
  predicate SameValueNonNumber(a: Value, b: Value)
  {
    match a
    case Undefined => b.Undefined?
    case Null => b.Null?
    case Bool(x) => b.Bool? && b.b == x
    case Num(_) => false
    case BigInt(i) => b.BigInt? && b.i == i
    case Str(s) => b.Str? && b.s == s
    case Symbol(i) => b.Symbol? && b.id == i
    case _ => IsReference(b) && b.id == a.id
  }

  /** The `===` operator (IsStrictlyEqual). It differs from SameValueZero
      only on NaN, which equals nothing. */
  function StrictEquals(a: Value, b: Value): (r: bool)
    ensures r <==> SameValueZero(a, b) && !(a.Num? && a.n.NaN?)
  {
    if a.Num? && b.Num? then NumberEquals(a.n, b.n)
    else if a.Num? || b.Num? then false
    else SameValueNonNumber(a, b)
  }

  /** What SameValueZero compares: a primitive's content (every NaN alike,
      both zeros alike), a symbol's or an object's identity. */
  datatype Identity =
    | IUndefined
    | INull
    | IBool(b: bool)
    | INumber(n: Number)
    | IBigInt(i: int)
    | IString(s: JsString)
    | ISymbol(id: nat)
    | IObject(id: nat)

  function IdentityOf(v: Value): Identity
  {
    match v
    case Undefined => IUndefined
    case Null => INull
    case Bool(b) => IBool(b)
    case Num(n) => INumber(if n.Zero? then PositiveZero else n)
    case BigInt(i) => IBigInt(i)
    case Str(s) => IString(s)
    case Symbol(id) => ISymbol(id)
    case _ => IObject(v.id)
  }

  /** SameValueZero, the key equality of `Map` and `Set`: equal identities. */
  predicate SameValueZero(a: Value, b: Value)
  {
    IdentityOf(a) == IdentityOf(b)
  }

  /** SameValueZero agrees case by case with its definition in the standard:
      numbers compare as numbers with NaN equal to NaN and +0 equal to -0, a
      number equals no other kind of value, anything else compares by
      SameValueNonNumber. */
  lemma SameValueZeroCases(a: Value, b: Value)
    ensures SameValueZero(a, b) <==>
      if a.Num? && b.Num? then NumberSameValueZero(a.n, b.n)
      else if a.Num? || b.Num? then false
      else SameValueNonNumber(a, b)
  {
  }

  /** Two strings are SameValueZero exactly when they hold the same code units. */
  lemma SameValueZeroOnStrings(s: JsString, t: JsString)
    ensures SameValueZero(Str(s), Str(t)) <==> s == t
  {
  }

  /** The key a `Map` or `Set` stores for `v`: -0 is stored as +0. */
  function CanonicalKey(v: Value): (r: Value)
    ensures SameValueZero(r, v) && SameValueZero(v, r)
    ensures r != Num(Zero(true))
    ensures v != Num(Zero(true)) ==> r == v
  {
    if v == Num(Zero(true)) then Num(Zero(false)) else v
  }

  /** The built-in constructors the library tests with `instanceof`. */
  datatype BuiltinConstructor = SetConstructor | WeakSetConstructor | MapConstructor | WeakMapConstructor

  /** `v instanceof c` for a built-in container constructor: only container
      objects are instances, each of its own constructor alone, so a WeakSet
      is no Set and a WeakMap no Map. */
  function InstanceOf(v: Value, c: BuiltinConstructor): (r: bool)
    ensures r ==> TypeOf(v) == "object" && !v.Null? && !v.Arr?
    ensures v.SetObj? ==> (r <==> c == SetConstructor)
    ensures v.WeakSetObj? ==> (r <==> c == WeakSetConstructor)
    ensures v.MapObj? ==> (r <==> c == MapConstructor)
    ensures v.WeakMapObj? ==> (r <==> c == WeakMapConstructor)
    ensures !(v.SetObj? || v.WeakSetObj? || v.MapObj? || v.WeakMapObj?) ==> !r
  {
    match c
    case SetConstructor => v.SetObj?
    case WeakSetConstructor => v.WeakSetObj?
    case MapConstructor => v.MapObj?
    case WeakMapConstructor => v.WeakMapObj?
  }

  /** `Array.isArray`: true of arrays alone, which `typeof` calls objects. */
  function ArrayIsArray(v: Value): (r: bool)
    ensures r ==> TypeOf(v) == "object"
    ensures r <==> v.Arr?
  {
    v.Arr?
  }

  /** `Number.isNaN`: false for every value that is not a number; NaN is the
      one value that is not `===` to itself. */
  function NumberIsNaN(v: Value): (r: bool)
    ensures r <==> !StrictEquals(v, v)
  {
    v.Num? && v.n.NaN?
  }

  /** Number::lessThan, with its `undefined` outcome (a NaN operand) read as
      false, as the `<` and `>` operators do. */
  function NumberLessThan(x: Number, y: Number): (r: bool)
    ensures x.NaN? || y.NaN? ==> !r
    ensures y.Zero? ==> (r <==> x == Infinity(true) || (x.Finite? && x.x < 0.0))
    ensures x.Zero? ==> (r <==> y == Infinity(false) || (y.Finite? && y.x > 0.0))
  {
    match (x, y)
    case (NaN, _) => false
    case (_, NaN) => false
    case (Infinity(xn), _) => xn && y != Infinity(true)
    case (_, Infinity(yn)) => !yn
    case (Zero(_), Zero(_)) => false
    case (Zero(_), Finite(b)) => 0.0 < b
    case (Finite(a), Zero(_)) => a < 0.0
    case (Finite(a), Finite(b)) => a < b
  }

  /** The `+0` literal. */
  const PositiveZero := Zero(false)

  /** A code unit `String.prototype.trim` removes: one of the WhiteSpace or
      LineTerminator code points of the ECMAScript lexical grammar (tab, vertical
      tab, form feed, the byte order mark, the space separators of Unicode
      category Zs, line feed, carriage return, line and paragraph separator). */
  predicate IsTrimWhitespace(c: CodeUnit)
  {
    c in {0x0009, 0x000A, 0x000B, 0x000C, 0x000D, 0x0020, 0x00A0, 0x1680,
          0x2028, 0x2029, 0x202F, 0x205F, 0x3000, 0xFEFF}
    || 0x2000 <= c <= 0x200A
  }

  predicate AllTrimWhitespace(s: JsString)
  {
    forall i | 0 <= i < |s| :: IsTrimWhitespace(s[i])
  }

  /** Removes the leading whitespace: what is left is a suffix of `s`, what was
      removed is whitespace, and what is left does not start with whitespace. */
  function TrimStart(s: JsString): (r: JsString)
    ensures |r| <= |s| && r == s[|s| - |r|..]
    ensures AllTrimWhitespace(s[..|s| - |r|])
    ensures r != [] ==> !IsTrimWhitespace(r[0])
  {
    if s != [] && IsTrimWhitespace(s[0]) then TrimStart(s[1..]) else s
  }

  /** Removes the trailing whitespace: what is left is a prefix of `s`, what was
      removed is whitespace, and what is left does not end with whitespace. */
  function TrimEnd(s: JsString): (r: JsString)
    ensures |r| <= |s| && r == s[..|r|]
    ensures AllTrimWhitespace(s[|r|..])
    ensures r != [] ==> !IsTrimWhitespace(r[|r| - 1])
  {
    if s != [] && IsTrimWhitespace(s[|s| - 1]) then TrimEnd(s[..|s| - 1]) else s
  }

  /** `String.prototype.trim`: what `TrimStart` leaves, with its trailing
      whitespace removed, so the slice of `s` between its leading and its
      trailing whitespace; nothing is left exactly when every code unit is
      whitespace, and what is left neither starts nor ends with whitespace. */
  function Trim(s: JsString): (r: JsString)
    ensures r == [] <==> AllTrimWhitespace(s)
    ensures r != [] ==> !IsTrimWhitespace(r[0]) && !IsTrimWhitespace(r[|r| - 1])
    ensures |r| <= |TrimStart(s)| && r == TrimStart(s)[..|r|]
    ensures AllTrimWhitespace(TrimStart(s)[|r|..])
  {
    var t := TrimStart(s);
    var r := TrimEnd(t);
    assert r != [] ==> r[0] == t[0];
    assert r == [] ==> s == s[..|s| - |t|] + t;
    r
  }

  /** The own properties of an object have pairwise different keys. */
  predicate DistinctKeys(props: seq<(JsString, Value)>)
  {
    forall i, j | 0 <= i < j < |props| :: props[i].0 != props[j].0
  }

  /** `Object.keys`. */
  function ObjectKeys(v: Value): (keys: seq<JsString>)
    requires v.Obj? || v.OtherObj?
    ensures |keys| == |v.props|
    ensures forall i | 0 <= i < |keys| :: keys[i] == v.props[i].0
  {
    seq(|v.props|, i requires 0 <= i < |v.props| => v.props[i].0)
  }

  /** Property lookup `props[key]` among own properties: the first property
      with that key, or `undefined` when there is none. What it finds is the
      value of a property with that key. */
  function PropLookup(props: seq<(JsString, Value)>, key: JsString): (r: Value)
    ensures r == Undefined || exists i | 0 <= i < |props| :: props[i] == (key, r)
  {
    if props == [] then Undefined
    else if props[0].0 == key then props[0].1
    else PropLookup(props[1..], key)
  }

  /** Looking up an own key of an object gives that property's value. */
  lemma {:induction false} PropLookupOwnKey(props: seq<(JsString, Value)>, i: nat)
    requires DistinctKeys(props) && i < |props|
    ensures PropLookup(props, props[i].0) == props[i].1
  {
    if i > 0 {
      assert props[0].0 != props[i].0;
      assert props[1..][i - 1] == props[i];
      PropLookupOwnKey(props[1..], i - 1);
    }
  }

  /** `s.split('')`: one single-code-unit string per code unit of `s`. */
  function SplitCodeUnits(s: JsString): (r: seq<Value>)
    ensures |r| == |s|
    ensures forall i | 0 <= i < |s| :: r[i] == Str([s[i]])
  {
    seq(|s|, i requires 0 <= i < |s| => Str([s[i]]))
  }
}
