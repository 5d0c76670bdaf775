# libvalidatorjs helpers in Dafny

A model of the helper functions of `index.js` in libvalidatorjs. The library
adds three kinds of helper on top of the `validator` package:

- type, emptiness and sign predicates over any JavaScript value (`isString`,
  `isNumber`, `isObject`, `isEmptyString`, `isPositiveNumber`, ...);
- their "or null" variants and the value-or-fallback accessors
  (`getNumberOrDefault`, `getNullIfUndefined`, ...);
- three container builders: `mapOfOrDefault`, `revMapOfOrDefault` and
  `setOfOrDefault`.

The project has four modules:

- `JsValues` (`js_values.dfy`) defines the value universe. It covers
  `undefined`, `null`, booleans, numbers, bigints, strings, symbols, arrays,
  records, Set, Map, WeakSet, WeakMap, functions and other objects such as
  dates or boxed primitives.
  - Strings are sequences of UTF-16 code units, lone surrogates included.
  - A number is NaN, an infinity, a signed zero or a finite non-zero real.
  - Every object carries an identity `id`, so SameValueZero and `===` compare
    objects by reference.
  - The module also holds the language operations the helpers use: `typeof`,
    `===`, SameValueZero, `instanceof`, `Array.isArray`, `Number.isNaN`, `<`
    on numbers, `String.prototype.trim`, `Object.keys`, property lookup and
    `split('')`.
- `JsCollections` (`js_collections.dfy`) models an insertion-ordered `Map` as
  its list of entries and a `Set` as its list of elements.
  - `SetAdd` and `MapSet` follow `Set.prototype.add` and `Map.prototype.set`:
    keys are compared with SameValueZero, a key that is already present keeps
    its position, and -0 is stored as +0.
  - `SetFromList` and `MapFromPairs` are the left folds of these operations.
    Lemmas relate them to independent reference definitions:
    `FirstOccurrences` (deduplication) and `LastValue` (last write wins).
- `Guards` (`guards.dfy`) holds every predicate and accessor of `index.js`.
  Each body is written with the JavaScript operations the source uses. Each
  contract says which values it accepts, in terms of the value universe.
- `Conversions` (`conversions.dfy`) holds the three builders. Each is a method
  with a loop that inserts one item at a time, as `forEach` and the `Set`
  constructor do. Each is proved equal to the fold, and the lemmas say what
  the fold produces.

The fresh Map or Set has an identity the runtime assigns, so the builders take
that identity as the parameter `id`.

Two behaviours of the code are easy to miss, and the model keeps both:

- `isNumber` (index.js:173) refuses only NaN and `+Infinity`. It accepts
  `-Infinity`, so `isNegativeNumber(-Infinity)` is true.
- `getNullIfUndefined` (index.js:137) turns `undefined` into `null` and
  returns every other value unchanged.

## Model

| member | source | states |
|---|---|---|
| Guards.IsNonEmptyString | index.js:44-46 | true for every value that is not a whitespace-only string, so also true for numbers, `null` and `undefined` |
| Guards.IsNonEmptyArray | index.js:48-50 | true for every value that is not an empty array, so also true for non-arrays |
| Guards.IsEmptyStringOrNull | index.js:52-54 | true exactly for `null` and for whitespace-only strings; `undefined` is refused |
| Guards.IsEmptyString | index.js:56-58 | true exactly for strings whose every code unit is trim whitespace (the empty string included) |
| JsValues.Trim | index.js:57 | `trim` removes the leading whitespace and then the trailing whitespace, so it returns the slice of the input between them; it is empty exactly when every code unit is whitespace, and otherwise starts and ends with non-whitespace |
| JsValues.TrimStart | index.js:57 | the leading whitespace is removed: a suffix of the input remains, and it does not start with whitespace |
| JsValues.TrimEnd | index.js:57 | the trailing whitespace is removed: a prefix of the input remains, and it does not end with whitespace |
| JsValues.PropLookup | index.js:70 | `val[key]` among own properties gives `undefined` or the value of a property named `key` |
| Guards.IsFunction | index.js:60-62 | true exactly for callable values |
| JsValues.TypeOf | index.js:61 | `typeof` gives "function" for callables alone, "object" for `null` and every other object, "number" for numbers alone and "string" for strings alone |
| Conversions.RevMapOfOrDefault | index.js:64-72 | returns the fallback for anything `isObject` refuses; otherwise returns a fresh Map equal to the fold of `set(val[key], key)` over `Object.keys`, whose keys are the distinct property values in first-occurrence order, whose size is at most the key count, and where each value maps to the last key that holds it |
| Conversions.ValueKeyPairs | index.js:69-70 | exactly one pair is handed to `set` per own key |
| Conversions.RevMapKeysAreFirstOccurrences | index.js:64-72 | the reversed map's keys are the property values without repetition, in order of first occurrence |
| Conversions.RevMapLastKeyWins | index.js:64-72 | looking a value up in the reversed map gives the name of the last property, in key order, that holds it, and nothing for a value no property holds |
| Conversions.RevMapOfSharedValue | index.js:64-72 | `{a: 1, b: 1}` reversed is the single entry 1 -> "b" |
| Conversions.MapOfOrDefault | index.js:74-82 | returns the fallback for anything `isObject` refuses; otherwise returns a fresh Map equal to the fold of `set(key, val[key])` over `Object.keys`, whose entries are exactly the own properties under their names, in key order, with size equal to the key count |
| Conversions.KeyValuePairs | index.js:79-80 | exactly one pair is handed to `set` per own key |
| Conversions.PairsOfRecord | index.js:79-80 | for a record, `val[key]` finds each own key's value, so the pairs are the properties themselves (swapped for the reverse map) |
| Conversions.MapOfRecordIsItsEntries | index.js:74-82 | a record's map is its list of own properties, unchanged, in key order |
| Conversions.MapOfTwoKeyRecord | index.js:74-82 | `{a: 1, b: 2}` gives the Map a -> 1, b -> 2 |
| Conversions.SetOfOrDefault | index.js:90-92 | returns a fresh Set of the elements for an array, a fresh Set of the one-code-unit strings for a string, and the fallback for anything else; an array is tested first |
| Conversions.NewSet | index.js:91 | `new Set(items)` equals adding the items one by one, in order |
| Conversions.SetOfArrayHoldsItsElements | index.js:91 | an array's Set holds each element once, in first-occurrence order, holds exactly the elements of the array under SameValueZero, and is no longer than the array |
| Conversions.SetOfStringHoldsItsCodeUnits | index.js:91 | a string's Set holds exactly the one-code-unit strings of its code units, each once, and has at most one element per code unit |
| Conversions.SetOfExamples | index.js:90-92 | "aab" gives the Set {"a", "b"}; `[1, 1, 2]` gives the Set {1, 2} |
| JsCollections.SetAdd | index.js:91 | `add` keeps every element already present in its place and adds at most one element, at the end, with -0 stored as +0 |
| JsCollections.SetFromList | index.js:91 | a set filled from n elements has at most n |
| JsCollections.SetAddAppendsOrKeeps | index.js:91 | `add` leaves the set unchanged when it holds an equal element; otherwise it appends the element at the end, with -0 stored as +0 |
| JsCollections.SetAddMembers | index.js:91 | after `add(x)` the set holds what it held before plus `x`, and nothing else |
| JsCollections.SetAddDistinct | index.js:91 | `add` never creates two equal elements |
| JsCollections.SetFromListMembers | index.js:91 | a set filled element by element holds exactly the input's elements |
| JsCollections.SetFromListDistinct | index.js:91 | a set filled element by element has no two equal elements |
| JsCollections.SetFromListIsFirstOccurrences | index.js:91 | filling a set keeps the first occurrence of each element, in input order |
| JsCollections.SetFromListOfDistinct | index.js:91 | elements that are already pairwise different, none of them -0, are kept as they are, in their order |
| JsCollections.MapSetKeys | index.js:70 | `set(k, v)` changes the key list exactly as `add(k)` changes a set: an existing key keeps its position |
| JsCollections.MapSet | index.js:70 | `set` keeps every existing key in its place and adds at most one entry, at the end, holding the new key (-0 stored as +0) and the value |
| JsCollections.MapSetGet | index.js:80 | after `set(k, v)`, looking up `k` gives `v`, and every other key keeps its value |
| JsCollections.MapSetAppendsNewKey | index.js:80 | `set` of a key the map does not hold appends one new entry |
| JsCollections.MapFromPairs | index.js:68-70 | a map filled from n pairs has at most n entries |
| JsCollections.MapFromPairsKeys | index.js:68-70 | a map filled pair by pair has the pairs' keys without repetition, in first-occurrence order |
| JsCollections.MapFromPairsGet | index.js:68-70 | last write wins: each key holds the value of the last pair with that key |
| JsCollections.MapFromPairsOfDistinct | index.js:78-80 | pairs whose keys are pairwise different, none of them -0, fill the map with exactly those pairs, in order |
| JsValues.PropLookupOwnKey | index.js:70 | when own keys are pairwise different, `val[key]` for an own key gives that property's value |
| JsValues.ObjectKeys | index.js:69 | `Object.keys` lists one key per own property, in property order |
| JsValues.StrictEquals | index.js:99 | `===` holds exactly when the two values are SameValueZero and the first is not NaN |
| JsValues.NumberIsNaN | index.js:173 | `Number.isNaN` holds exactly of the values that are not `===` to themselves |
| JsValues.NumberLessThan | index.js:185 | comparing with NaN is false; a number is below zero exactly when it is `-Infinity` or a finite negative, and above zero exactly when it is `+Infinity` or a finite positive |
| JsValues.InstanceOf | index.js:107-119 | only container objects are instances of the container constructors, each of its own constructor alone, so a WeakSet is not a Set and a WeakMap is not a Map; `typeof` calls every instance an object |
| JsValues.ArrayIsArray | index.js:149 | `Array.isArray` holds of arrays alone, which `typeof` calls objects |
| JsValues.SplitCodeUnits | index.js:91 | `split('')` gives one one-code-unit string per code unit, in order |
| JsValues.SameValueZeroCases | index.js:70 | the key equality of Map and Set: NaN equals NaN, +0 equals -0, a number equals no non-number, and everything else compares by SameValueNonNumber (objects by identity) |
| JsValues.CanonicalKey | index.js:70 | the key stored for `k` is SameValueZero to `k`, is never -0, and is `k` itself unless `k` is -0 |
| JsValues.SameValueZeroOnStrings | index.js:91 | two strings are the same Set element exactly when they hold the same code units |
| Guards.IsNullOrUndefined | index.js:94-96 | true exactly for `undefined` and `null` |
| Guards.IsNull | index.js:98-100 | true exactly for `null` |
| Guards.IsUndefined | index.js:102-104 | true exactly for `undefined` |
| Guards.IsSet | index.js:106-108 | true exactly for Set objects; a WeakSet is not one |
| Guards.IsWeakSet | index.js:110-112 | true exactly for WeakSet objects |
| Guards.IsMap | index.js:114-116 | true exactly for Map objects; a WeakMap is not one |
| Guards.IsWeakMap | index.js:118-120 | true exactly for WeakMap objects |
| Guards.IsObject | index.js:122-130 | true exactly for records and other non-callable objects (dates, boxed primitives); false for `null`, `undefined`, primitives, functions, arrays, Set, Map, WeakSet and WeakMap |
| Guards.ObjectExcludesOtherKinds | index.js:122-130 | no value that `isObject` accepts is accepted by the `null`-or-`undefined`, function, array, container, string or number predicates |
| Guards.ObjectExamples | index.js:122-130 | `new Map()`, `[]` and `null` are not objects; `{}` is |
| Guards.GetObjectOrDefault | index.js:132-134 | the input when it is a record or other object, otherwise exactly the fallback |
| Guards.GetNullIfUndefined | index.js:136-138 | `undefined` becomes `null`; every other value is returned unchanged; the result is never `undefined` |
| Guards.IsEmptyArray | index.js:140-142 | true exactly for arrays of length zero |
| Guards.IsEmptyArrayOrNull | index.js:144-146 | true exactly for `null` and empty arrays |
| Guards.IsArray | index.js:148-150 | true exactly for arrays |
| Guards.IsArrayOrNull | index.js:152-154 | true exactly for `null` and arrays |
| Guards.GetArrayOrDefault | index.js:156-158 | the input when it is an array, otherwise exactly the fallback |
| Guards.IsString | index.js:160-162 | true exactly for primitive strings |
| Guards.IsStringOrNull | index.js:164-166 | true exactly for `null` and strings |
| Guards.GetStringOrDefault | index.js:168-170 | the input when it is a string, otherwise exactly the fallback |
| Guards.EmptyStringExamples | index.js:56-58 | `""` and `"  "` are empty strings; `"a"` and `5` are not |
| Guards.IsNumber | index.js:172-174 | true exactly for finite numbers, both zeros and `-Infinity`; false for NaN, `+Infinity` and every non-number |
| Guards.IsNumberCases | index.js:172-186 | NaN and `+Infinity` are refused; `-Infinity`, +0, -0 and -5 are accepted; bigints, strings (numeric ones included) and boxed numbers are refused; -1 is not positive |
| Guards.IsNumberOrNull | index.js:176-178 | true exactly for `null` and for what `isNumber` accepts |
| Guards.GetNumberOrDefault | index.js:180-182 | the input when `isNumber` accepts it, otherwise exactly the fallback |
| Guards.IsPositiveNumber | index.js:184-186 | true exactly for finite numbers above zero |
| Guards.IsPositiveNumberOrNull | index.js:188-190 | true exactly for `null` and finite numbers above zero |
| Guards.GetPositiveNumberOrDefault | index.js:192-194 | the input when it is a finite number above zero, otherwise exactly the fallback |
| Guards.IsNegativeNumber | index.js:196-198 | true exactly for finite numbers below zero and `-Infinity` |
| Guards.SignPredicates | index.js:184-198 | positive and negative numbers are numbers, no number is both, neither zero is either, and `-Infinity` is negative |
| Guards.IsNegativeNumberOrNull | index.js:200-202 | true exactly for `null`, finite numbers below zero and `-Infinity` |
| Guards.GetNegativeNumberOrDefault | index.js:204-206 | the input when it is a finite number below zero or `-Infinity`, otherwise exactly the fallback |
| Guards.OrNullVariantsRefuseUndefined | index.js:52-54 | every "or null" variant accepts `null` and refuses `undefined`, although `isNullOrUndefined` accepts `undefined` |
| Guards.NonEmptyHoldsOfOtherKinds | index.js:44-50 | the "non-empty" predicates hold of every non-string or non-array, `null` and `undefined` included |
| Guards.AccessorsPassOrFallBack | index.js:132-206 | each accessor's result passes its predicate or is the fallback, and applying an accessor twice gives the same result as applying it once |

## Left out

- The re-export of the `validator` package and the spread merge in which local names take precedence (index.js:3-42). That package is not part of this model, and the merge is module plumbing.
- Weak-reference and garbage-collection behaviour of WeakSet and WeakMap. They are only tags that `isWeakSet`, `isWeakMap` and `isObject` test.
- IEEE-754 arithmetic. The model only classifies numbers, and a finite non-zero number is any non-zero real, not only a representable double.
- `instanceof` and `Array.isArray` corner cases: subclasses, other realms, `Symbol.hasInstance` and proxies. Each container predicate is a tag test.
- Property enumeration details: symbol keys, non-enumerable and inherited properties, and getters. A record's `props` are its own enumerable string-keyed data properties, in the order `Object.keys` lists them. The model takes that order as given and does not rebuild the rule that integer-like keys come first.
- The prototype chain. `JsValues.PropLookup` looks only at own properties, so a key such as "toString" that an object inherits is not found. The builders read only keys that `Object.keys` returned, so this never changes their results.
- Sparse arrays. Holes are not modelled: an array's elements are a dense sequence.
- The exact Unicode version behind `trim`. Its whitespace is the fixed list in `JsValues.IsTrimWhitespace`, with the space separators of Unicode category Zs.
- Consistency of object identities. Two values with the same `id` are taken to be the same object, and the value universe does not check that their contents agree.
- In-place filling of the fresh Map or Set. Each builder keeps the container's entry list in a local variable and reassigns it after each insertion. No other code can reach the container until it is returned, so no aliasing is lost.
- Conversions.MapOfOrDefault: the entry-by-entry statement, and the size equal to the key count, are stated only for records whose own keys are pairwise different. Every JavaScript object has distinct keys, but the value universe does not enforce it. For any record, the result is still stated as the fold of `set`.
- Conversions.RevMapOfOrDefault: first-occurrence order, last key wins and the size bound are stated only for records whose own keys are pairwise different, for the same reason.
