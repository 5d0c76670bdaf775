/** The type, shape and sign predicates of the library, their "or null"
    variants and the value-or-fallback accessors. Each body is written with the
    JavaScript operations the library uses; each contract says which values
    the predicate accepts, in terms of the value universe. */
module Guards {
  import opened JsValues

  // ---------------------------------------------------------------------------
  // `null` and `undefined`

  /** `isNull`: `val === null`. */
  function IsNull(v: Value): (b: bool)
    ensures b <==> v.Null?
  {
    StrictEquals(v, Null)
  }

  /** `isUndefined`: `val === undefined`. */
  function IsUndefined(v: Value): (b: bool)
    ensures b <==> v.Undefined?
  {
    StrictEquals(v, Undefined)
  }

  /** `isNullOrUndefined`: `null` or `undefined`. */
  function IsNullOrUndefined(v: Value): (b: bool)
    ensures b <==> v.Undefined? || v.Null?
  {
    IsUndefined(v) || IsNull(v)
  }

  /** `getNullIfUndefined`: `undefined` becomes `null`, anything else is kept. */
  function GetNullIfUndefined(v: Value): (r: Value)
    ensures v.Undefined? ==> r == Null
    ensures !v.Undefined? ==> r == v
    ensures !r.Undefined?
  {
    if IsUndefined(v) then Null else v
  }

  // ---------------------------------------------------------------------------
  // Kinds of value

  /** `isFunction`: `typeof val === 'function'`. */
  function IsFunction(v: Value): (b: bool)
    ensures b <==> v.Func?
  {
    TypeOf(v) == "function"
  }

  /** `isSet`: `val instanceof Set`; a WeakSet is not a Set. */
  function IsSet(v: Value): (b: bool)
    ensures b <==> v.SetObj?
  {
    InstanceOf(v, SetConstructor)
  }

  /** `isWeakSet`: `val instanceof WeakSet`. */
  function IsWeakSet(v: Value): (b: bool)
    ensures b <==> v.WeakSetObj?
  {
    InstanceOf(v, WeakSetConstructor)
  }

  /** `isMap`: `val instanceof Map`; a WeakMap is not a Map. */
  function IsMap(v: Value): (b: bool)
    ensures b <==> v.MapObj?
  {
    InstanceOf(v, MapConstructor)
  }

  /** `isWeakMap`: `val instanceof WeakMap`. */
  function IsWeakMap(v: Value): (b: bool)
    ensures b <==> v.WeakMapObj?
  {
    InstanceOf(v, WeakMapConstructor)
  }

  /** `isArray`: `Array.isArray(val)`. */
  function IsArray(v: Value): (b: bool)
    ensures b <==> v.Arr?
  {
    ArrayIsArray(v)
  }

  /** `isObject`: not null, not a container, not an array, and of type
      'object'. What is left are the plain records and the other non-callable
      objects (dates, regular expressions, boxed primitives); functions are
      out because their type is 'function'. */
  function IsObject(v: Value): (b: bool)
    ensures b <==> v.Obj? || v.OtherObj?
  {
    !IsNull(v) &&
    !IsSet(v) &&
    !IsMap(v) &&
    !IsWeakMap(v) &&
    !IsWeakSet(v) &&
    !IsArray(v) &&
    TypeOf(v) == "object"
  }

  /** `isString`: `typeof val === 'string'`; a boxed string is not one. */
  function IsString(v: Value): (b: bool)
    ensures b <==> v.Str?
  {
    TypeOf(v) == "string"
  }

  /** `isNumber`: not NaN, not `+Infinity`, and of type 'number'. `-Infinity`
      gets through, boxed numbers and bigints do not. */
  function IsNumber(v: Value): (b: bool)
    ensures b <==> v.Num? && (v.n.Zero? || v.n.Finite? || v.n == Infinity(true))
  {
    !NumberIsNaN(v) && !StrictEquals(v, Num(Infinity(false))) && TypeOf(v) == "number"
  }

  /** `isPositiveNumber`: a number and `val > 0`; only the finite numbers
      above zero. */
  function IsPositiveNumber(v: Value): (b: bool)
    ensures b <==> v.Num? && v.n.Finite? && v.n.x > 0.0
  {
    IsNumber(v) && NumberLessThan(PositiveZero, v.n)
  }

  /** `isNegativeNumber`: a number and `val < 0`; the finite numbers below
      zero and `-Infinity`. */
  function IsNegativeNumber(v: Value): (b: bool)
    ensures b <==> v.Num? && (v.n == Infinity(true) || (v.n.Finite? && v.n.x < 0.0))
  {
    IsNumber(v) && NumberLessThan(v.n, PositiveZero)
  }

  // ---------------------------------------------------------------------------
  // Emptiness

  /** `isEmptyString`: a string whose trimmed length is below one, that is a
      string of whitespace only (the empty string included). */
  function IsEmptyString(v: Value): (b: bool)
    ensures b <==> v.Str? && AllTrimWhitespace(v.s)
  {
    IsString(v) && |Trim(v.s)| < 1
  }

  /** `isNonEmptyString`: the bare negation of `isEmptyString`, so it also
      holds of every value that is not a string. */
  function IsNonEmptyString(v: Value): (b: bool)
    ensures b <==> !v.Str? || !AllTrimWhitespace(v.s)
  {
    !IsEmptyString(v)
  }

  /** `isEmptyArray`: an array of length zero. */
  function IsEmptyArray(v: Value): (b: bool)
    ensures b <==> v.Arr? && v.elems == []
  {
    IsArray(v) && |v.elems| == 0
  }

  /** `isNonEmptyArray`: the bare negation of `isEmptyArray`, so it also
      holds of every value that is not an array. */
  function IsNonEmptyArray(v: Value): (b: bool)
    ensures b <==> !v.Arr? || v.elems != []
  {
    !IsEmptyArray(v)
  }

  // ---------------------------------------------------------------------------
  // "Or null" variants: `null` is accepted, `undefined` is not

  function IsEmptyStringOrNull(v: Value): (b: bool)
    ensures b <==> v.Null? || (v.Str? && AllTrimWhitespace(v.s))
  {
    IsNull(v) || IsEmptyString(v)
  }

  function IsEmptyArrayOrNull(v: Value): (b: bool)
    ensures b <==> v.Null? || (v.Arr? && v.elems == [])
  {
    IsNull(v) || IsEmptyArray(v)
  }

  function IsArrayOrNull(v: Value): (b: bool)
    ensures b <==> v.Null? || v.Arr?
  {
    IsNull(v) || IsArray(v)
  }

  function IsStringOrNull(v: Value): (b: bool)
    ensures b <==> v.Null? || v.Str?
  {
    IsNull(v) || IsString(v)
  }

  function IsNumberOrNull(v: Value): (b: bool)
    ensures b <==> v.Null? || (v.Num? && !v.n.NaN? && v.n != Infinity(false))
  {
    IsNull(v) || IsNumber(v)
  }

  function IsPositiveNumberOrNull(v: Value): (b: bool)
    ensures b <==> v.Null? || (v.Num? && v.n.Finite? && v.n.x > 0.0)
  {
    IsNull(v) || IsPositiveNumber(v)
  }

  function IsNegativeNumberOrNull(v: Value): (b: bool)
    ensures b <==> v.Null? || (v.Num? && (v.n == Infinity(true) || (v.n.Finite? && v.n.x < 0.0)))
  {
    IsNull(v) || IsNegativeNumber(v)
  }

  // ---------------------------------------------------------------------------
  // Value-or-fallback accessors: the input when it passes, else exactly the
  // fallback, which is never looked at

  function GetObjectOrDefault(v: Value, d: Value): (r: Value)
    ensures v.Obj? || v.OtherObj? ==> r == v
    ensures !(v.Obj? || v.OtherObj?) ==> r == d
  {
    if IsObject(v) then v else d
  }

  function GetArrayOrDefault(v: Value, d: Value): (r: Value)
    ensures v.Arr? ==> r == v
    ensures !v.Arr? ==> r == d
  {
    if IsArray(v) then v else d
  }

  function GetStringOrDefault(v: Value, d: Value): (r: Value)
    ensures v.Str? ==> r == v
    ensures !v.Str? ==> r == d
  {
    if IsString(v) then v else d
  }

  function GetNumberOrDefault(v: Value, d: Value): (r: Value)
    ensures v.Num? && !v.n.NaN? && v.n != Infinity(false) ==> r == v
    ensures !(v.Num? && !v.n.NaN? && v.n != Infinity(false)) ==> r == d
  {
    if IsNumber(v) then v else d
  }

  function GetPositiveNumberOrDefault(v: Value, d: Value): (r: Value)
    ensures v.Num? && v.n.Finite? && v.n.x > 0.0 ==> r == v
    ensures !(v.Num? && v.n.Finite? && v.n.x > 0.0) ==> r == d
  {
    if IsPositiveNumber(v) then v else d
  }

  function GetNegativeNumberOrDefault(v: Value, d: Value): (r: Value)
    ensures v.Num? && (v.n == Infinity(true) || (v.n.Finite? && v.n.x < 0.0)) ==> r == v
    ensures !(v.Num? && (v.n == Infinity(true) || (v.n.Finite? && v.n.x < 0.0))) ==> r == d
  {
    if IsNegativeNumber(v) then v else d
  }

  // ---------------------------------------------------------------------------
  // Properties relating the predicates

  /** The number cases: NaN and `+Infinity` are refused but `-Infinity`,
      both zeros and -5 are accepted; bigints, strings (numeric ones
      included) and boxed numbers are not numbers; -1 is not positive. */
  lemma IsNumberCases(id: nat, i: int, s: JsString)
    ensures !IsNumber(Num(NaN)) && !IsNumber(Num(Infinity(false)))
    ensures IsNumber(Num(Infinity(true))) && IsNumber(Num(Finite(-5.0)))
    ensures IsNumber(Num(Zero(false))) && IsNumber(Num(Zero(true)))
    ensures !IsNumber(BigInt(i)) && !IsNumber(Str(s)) && !IsNumber(OtherObj(id, []))
    ensures !IsPositiveNumber(Num(Finite(-1.0)))
  {
  }

  /** Positive and negative numbers are numbers, never both, never a zero,
      and `-Infinity` is negative. */
  lemma SignPredicates(v: Value)
    ensures IsPositiveNumber(v) ==> IsNumber(v) && !IsNegativeNumber(v)
    ensures IsNegativeNumber(v) ==> IsNumber(v) && !IsPositiveNumber(v)
    ensures v.Num? && v.n.Zero? ==> !IsPositiveNumber(v) && !IsNegativeNumber(v)
    ensures IsNegativeNumber(Num(Infinity(true)))
  {
  }

  /** Every "or null" variant is its base predicate widened by `null` alone:
      it accepts `null` and refuses `undefined`, although `isNullOrUndefined`
      accepts both. */
  lemma OrNullVariantsRefuseUndefined()
    ensures IsNumberOrNull(Null) && IsPositiveNumberOrNull(Null) && IsNegativeNumberOrNull(Null)
    ensures IsStringOrNull(Null) && IsArrayOrNull(Null) && IsEmptyStringOrNull(Null) && IsEmptyArrayOrNull(Null)
    ensures !IsNumberOrNull(Undefined) && !IsPositiveNumberOrNull(Undefined) && !IsNegativeNumberOrNull(Undefined)
    ensures !IsStringOrNull(Undefined) && !IsArrayOrNull(Undefined)
    ensures !IsEmptyStringOrNull(Undefined) && !IsEmptyArrayOrNull(Undefined)
    ensures IsNullOrUndefined(Undefined)
  {
  }

  /** The "non-empty" predicates are bare negations: they hold of numbers,
      `null`, `undefined` and every other value of the wrong kind. */
  lemma NonEmptyHoldsOfOtherKinds(v: Value)
    ensures !v.Str? ==> IsNonEmptyString(v)
    ensures !v.Arr? ==> IsNonEmptyArray(v)
    ensures IsNonEmptyString(Null) && IsNonEmptyString(Undefined) && IsNonEmptyString(Num(Finite(5.0)))
  {
  }

  /** `isObject` refuses every value another predicate of the library claims. */
  lemma ObjectExcludesOtherKinds(v: Value)
    requires IsObject(v)
    ensures !IsNullOrUndefined(v) && !IsFunction(v) && !IsArray(v)
    ensures !IsSet(v) && !IsMap(v) && !IsWeakSet(v) && !IsWeakMap(v)
    ensures !IsString(v) && !IsNumber(v)
  {
  }

  /** An accessor's result passes the predicate or is the fallback, and
      applying the accessor again with the same fallback changes nothing. */
  lemma AccessorsPassOrFallBack(v: Value, d: Value)
    ensures IsObject(GetObjectOrDefault(v, d)) || GetObjectOrDefault(v, d) == d
    ensures IsArray(GetArrayOrDefault(v, d)) || GetArrayOrDefault(v, d) == d
    ensures IsString(GetStringOrDefault(v, d)) || GetStringOrDefault(v, d) == d
    ensures IsNumber(GetNumberOrDefault(v, d)) || GetNumberOrDefault(v, d) == d
    ensures IsPositiveNumber(GetPositiveNumberOrDefault(v, d)) || GetPositiveNumberOrDefault(v, d) == d
    ensures IsNegativeNumber(GetNegativeNumberOrDefault(v, d)) || GetNegativeNumberOrDefault(v, d) == d
    ensures GetNumberOrDefault(GetNumberOrDefault(v, d), d) == GetNumberOrDefault(v, d)
    ensures GetObjectOrDefault(GetObjectOrDefault(v, d), d) == GetObjectOrDefault(v, d)
    ensures GetArrayOrDefault(GetArrayOrDefault(v, d), d) == GetArrayOrDefault(v, d)
    ensures GetStringOrDefault(GetStringOrDefault(v, d), d) == GetStringOrDefault(v, d)
    ensures GetPositiveNumberOrDefault(GetPositiveNumberOrDefault(v, d), d) == GetPositiveNumberOrDefault(v, d)
    ensures GetNegativeNumberOrDefault(GetNegativeNumberOrDefault(v, d), d) == GetNegativeNumberOrDefault(v, d)
    ensures GetNullIfUndefined(GetNullIfUndefined(v)) == GetNullIfUndefined(v)
  {
  }

  /** Examples of `isEmptyString`: whitespace-only strings are empty, other
      strings and non-strings are not. (0x20 is a space, 0x61 the letter a.) */
  lemma EmptyStringExamples()
    ensures IsEmptyString(Str([])) && IsEmptyString(Str([0x20, 0x20]))
    ensures !IsEmptyString(Str([0x61])) && !IsEmptyString(Num(Finite(5.0)))
  {
    var a: JsString := [0x61];
    assert !IsTrimWhitespace(a[0]);
  }

  /** Examples of `isObject`: neither a Map, an array nor `null` is an
      object; an empty record is. */
  lemma ObjectExamples()
    ensures !IsObject(MapObj(0, [])) && !IsObject(Arr(0, [])) && !IsObject(Null) && IsObject(Obj(0, []))
  {
  }
}
