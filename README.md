# simplecheck in Dafny

A model of the matching engine of `lib/simplecheck.js`, a runtime
structural-validation library for JavaScript. A *pattern* describes the shape
a value is expected to have:

- a scalar descriptor (`String`, `Number`, `Boolean`);
- a native constructor (`Date`, `RegExp`, `Object`, `Array`, `Function`);
- a class or a user predicate;
- one of the combinators `optional`, `anything`, `oneOf`, `Integer`;
- an array literal, a regular expression, an object literal, or a primitive.

`checkType(value, pattern, strict)` walks the value against the pattern. It
returns, throws a `MatchError` naming the first mismatch, or throws some other
error (a `TypeError` raised along the way). `ensure` exposes that outcome.
`matches` turns every error into `false`.

The project has six files:

- `values.dfy` (module `JsValues`) holds the JavaScript values the engine
  looks at. It also defines the language operations the engine uses: `typeof`,
  `===`, `instanceof` by class name, `value[k]`, `for..in` keys, and the
  `value | 0` test of `Integer`.
- `patterns.dfy` (module `Patterns`) holds the patterns, the failure reasons
  (one per throw site) and the outcome `Ok | MatchErr(reason) | OtherErr`.
- `matcher.dfy` (module `Matcher`) defines the engine as recursive functions.
  This is the specification: `CheckType`, `Call`, `ValidateClassPattern`,
  `OptionalCall`, `OneOfCall`, `IntegerCall`, `CheckArray`, `CheckObject`,
  `Ensure`, `Matches`.
- `engine.dfy` (module `Engine`) runs the engine step by step, as the source
  does. `checkType` reassigns `valid`, `checkArray` loops over the elements,
  `checkObject` runs its two `for..in` loops, and the `oneOf` closure tries
  its alternatives in an indexed loop. Each method is proved to compute exactly
  the outcome of its `Matcher` function.
- `properties.dfy` (module `MatcherProperties`) proves what each kind of
  pattern accepts and which error it raises otherwise. It covers
  strict/non-strict object matching, the first-failure propagation of arrays
  and objects, and the combinators.
- `test_table.dfy` (module `SimplecheckTests`) restates every case of the
  repository's own test table. Most cases are derived from the general
  properties; a few follow from the definitions directly.

Two behaviours of the code depart from its documentation; the model follows
the code. The closures returned by `optional` and `oneOf` are anonymous
function expressions, so their `name` is empty. When calling such a closure
throws something other than a `MatchError`, `checkType` falls back to class
matching. For a function value, class matching compares `name`s. Two
consequences follow:

- An anonymous function value matches `optional(null)`. The inner
  `value instanceof null` throws a `TypeError`, and `"" === ""` then holds.
- `oneOf(...)` with `undefined` among its alternatives, or inside an
  array-pattern alternative at any depth (such as `[undefined]`), throws a `TypeError`
  when no alternative passes. The error comes from `typesInArray`, while the
  closure builds its message. As a result, an anonymous function value passes
  such a `oneOf` without matching any alternative.

So "`oneOf(P1, P2)` matches iff one of them does" is proved under the
condition that the alternatives' names can be rendered
(`MatcherProperties.OneOfOfTwo`). The two departures are
`MatcherProperties.AnonymousFunctionMatchesOptionalNull` and
`MatcherProperties.OneOfWithoutPassingAlternative`.

## Model

| member | source | states |
|---|---|---|
| Engine.CheckType | lib/simplecheck.js:204-266 | the branch-by-branch `checkType` (scalar, function, array, regex, object, `===`/`instanceof` fallback, final validity check) returns, throws a MatchError with the same reason, or throws another error exactly as the recursive definition does |
| Engine.Call | lib/simplecheck.js:213-216 | calling a non-native function pattern: a class throws, a user function's call is taken as given, and each combinator runs its closure |
| Engine.OptionalCall | lib/simplecheck.js:82-89 | the `optional` closure accepts undefined and null, and otherwise returns or throws what `checkType(value, pattern)` does |
| Engine.OneOfCall | lib/simplecheck.js:116-127 | the `oneOf` loop returns true at the first alternative that passes; otherwise it throws "one of", or the error of `typesInArray` |
| Engine.CheckArray | lib/simplecheck.js:268-280 | a non-array throws "to be an array"; an array passes when every element passes, and the first failing element's error propagates unchanged |
| Engine.CheckItem | lib/simplecheck.js:275-277 | one element is checked strictly against the first entry of the array pattern, or against undefined when there is none |
| Engine.CheckObject | lib/simplecheck.js:282-310 | a non-object throws; the first failing field throws with its key prefix; strict mode then requires equal constructor names and a truthy pattern entry for every key of the value |
| Engine.Ensure | lib/simplecheck.js:153-158 | `ensure` returns true exactly when `checkType` returns, and throws what it throws |
| Engine.Matches | lib/simplecheck.js:167-176 | `matches` is true exactly when `ensure` returns |
| JsValues.Int32TestIff | lib/simplecheck.js:137 | the `Integer` test (ToInt32 of the value equals the value) holds exactly for the integers in [-2^31, 2^31); NaN, the infinities, fractions and larger magnitudes fail |
| MatcherProperties.ScalarPatternIff | lib/simplecheck.js:208-212 | `String`, `Number` and `Boolean` accept exactly the strings, numbers and booleans, whatever `strict` is, and otherwise throw the scalar-type MatchError |
| MatcherProperties.FunctionMatchErrorPropagates | lib/simplecheck.js:217-220 | a MatchError thrown by a function pattern is rethrown unchanged |
| MatcherProperties.FunctionFallsBackToClassMatching | lib/simplecheck.js:221-231 | when a function pattern throws another error or returns undefined, class matching decides: it throws a TypeError for an array or object value when the pattern has no `prototype`; otherwise the value matches iff class matching accepts it, else "Invalid match" |
| MatcherProperties.PrototypeLessFunctionThrows | lib/simplecheck.js:184-185 | a user function without a `prototype` that returns undefined or throws a plain error makes `checkType` throw a TypeError (not a MatchError) for every array or object value |
| MatcherProperties.FalsyVerdictIsInvalidMatch | lib/simplecheck.js:255-264 | a falsy result of a function pattern (other than undefined) throws "Invalid match" |
| MatcherProperties.ClassPatternIff | lib/simplecheck.js:178-191 | a class pattern accepts exactly its instances (subclasses included) and the class itself; undefined and null get "Invalid match" |
| MatcherProperties.SubclassAsymmetry | lib/simplecheck.js:184-188 | an instance of a subclass matches the parent class, but the subclass itself does not |
| MatcherProperties.NativeCtorIff | lib/simplecheck.js:240-253 | a native constructor accepts itself and its instances; `Object` accepts every array, object and function; anything else throws the MatchError `NotInstance(c)` ("to be a function" for `Function`, "to be an instance of" for the others) |
| MatcherProperties.LiteralIff | lib/simplecheck.js:240-244 | a primitive pattern accepts exactly a strictly equal value (so NaN accepts nothing), and otherwise fails with a non-MatchError |
| MatcherProperties.RegexPatternIff | lib/simplecheck.js:234-237 | a regular expression accepts exactly the values its `test` accepts, whatever `strict` is, and otherwise throws "to match pattern" |
| MatcherProperties.EntryPoints | lib/simplecheck.js:153-176 | `matches` is true iff `ensure` returns; either kind of error makes it false |
| MatcherProperties.ElementsIff | lib/simplecheck.js:275-277 | the element loop passes iff every element passes |
| MatcherProperties.FirstFailingElement | lib/simplecheck.js:275-277 | the element loop fails with exactly the error of the first failing element |
| MatcherProperties.ArrayPatternIff | lib/simplecheck.js:232-233 | an array pattern accepts exactly the arrays whose elements all match its first entry strictly; later entries are ignored; a non-array gets "to be an array" |
| MatcherProperties.ElementsAgree | lib/simplecheck.js:233 | two array patterns with the same first entry check elements identically |
| MatcherProperties.ArrayFirstFailure | lib/simplecheck.js:268-280 | an array pattern fails with the unwrapped error of the first element that does not match |
| MatcherProperties.EmptyArrayPasses | lib/simplecheck.js:275-279 | the empty array matches every array pattern |
| MatcherProperties.EmptyArrayPatternIff | lib/simplecheck.js:232-233 | the pattern `[]` accepts exactly the arrays of undefined |
| MatcherProperties.ObjectPatternNeedsObject | lib/simplecheck.js:285-287 | an object pattern throws "to be an object" for every value whose `typeof` is not "object" |
| MatcherProperties.FieldsIff | lib/simplecheck.js:288-294 | the field loop passes iff every pattern key's check passes |
| MatcherProperties.FirstFailingField | lib/simplecheck.js:288-294 | the field loop fails with a MatchError that wraps the first failing key's error with that key |
| MatcherProperties.AbsentKeyIsUndefined | lib/simplecheck.js:290 | a pattern key missing from the value is checked as undefined |
| MatcherProperties.NonStrictObjectIff | lib/simplecheck.js:282-294 | without strict, an object pattern accepts exactly the values whose `typeof` is "object" (null and arrays included) and whose pattern keys all pass |
| MatcherProperties.FirstUndeclaredIff | lib/simplecheck.js:303-307 | the unknown-key loop finds nothing iff every key has a truthy pattern entry, and what it finds is an undeclared key of the value |
| MatcherProperties.FirstUndeclaredAt | lib/simplecheck.js:303-307 | the unknown-key loop reports the first key, in enumeration order, that has no truthy pattern entry |
| MatcherProperties.FailingFieldsAreKeyed | lib/simplecheck.js:288-294 | whatever kind of error a field raises, a failing field loop throws a MatchError carrying the key prefix |
| MatcherProperties.StrictObjectIff | lib/simplecheck.js:282-308 | strictly, an object pattern accepts exactly the arrays and non-null objects whose fields pass, whose constructor name equals the pattern's, and whose every key is declared truthily |
| MatcherProperties.StrictObjectFailures | lib/simplecheck.js:288-305 | the strict failure reasons in the source's order: a field error wrapped with its key first (in either mode), then a TypeError for null, then "Expected instance of" for differing constructor names, then "Unknown key" for an undeclared key of the value |
| MatcherProperties.StrictFirstUnknownKey | lib/simplecheck.js:303-306 | once fields and constructor names pass, the error names the first undeclared key in enumeration order |
| MatcherProperties.NullAgainstObjectPattern | lib/simplecheck.js:285-300 | null passes the `typeof` test; with keys it fails on the first key with the wrapped TypeError of `null[k]`; with none it passes non-strictly and throws a TypeError (`null.constructor`) strictly |
| MatcherProperties.ArrayAgainstObjectPattern | lib/simplecheck.js:299-300 | an array never matches strictly an object pattern whose constructor is not `Array`; once its fields pass, the error is the constructor mismatch `Array` |
| MatcherProperties.FalsyEntryIsUnknown | lib/simplecheck.js:303-306 | a key of the value whose pattern entry is a falsy literal makes strict matching fail; once the fields pass and the constructor names agree, the error is "Unknown key" |
| MatcherProperties.StrictImpliesNonStrict | lib/simplecheck.js:296 | whatever matches strictly also matches non-strictly |
| MatcherProperties.StrictOnlyAtTop | lib/simplecheck.js:238-239 | `strict` affects only an object pattern at the top level |
| MatcherProperties.NestedFieldsStayStrict | lib/simplecheck.js:290 | nested object patterns are checked strictly even under a non-strict call |
| MatcherProperties.OptionalAcceptsNullish | lib/simplecheck.js:84-86 | `optional(P)` accepts undefined and null for every `P` |
| MatcherProperties.OptionalOtherwise | lib/simplecheck.js:87 | on any other value `optional(P)` matches iff `P` matches strictly, or `P` throws another error and the value is an anonymous function; a MatchError of `P` propagates |
| MatcherProperties.AnythingAcceptsAll | lib/simplecheck.js:95-97 | `anything` accepts every value |
| MatcherProperties.OneOfIff | lib/simplecheck.js:116-127 | `oneOf` matches iff some alternative matches strictly, or the names fail to render and the value is an anonymous function; when nothing matches it throws "one of" if every name renders, and "Invalid match" otherwise |
| MatcherProperties.OneOfNoAlternatives | lib/simplecheck.js:119-125 | `oneOf()` with no alternatives rejects every value with "one of" |
| MatcherProperties.OneOfOfTwo | lib/simplecheck.js:116-127 | `oneOf(P1, P2)` matches iff `P1` or `P2` matches, when neither is undefined nor an array pattern holding undefined at any depth |
| MatcherProperties.IntegerPatternIff | lib/simplecheck.js:134-146 | `Integer` accepts exactly the integral numbers of the signed 32-bit range; undefined, null and arrays holding undefined at any depth make `Integer` throw a TypeError, which class matching turns into "Invalid match"; every other rejected value gets "Expected Integer" |
| MatcherProperties.AnonymousFunctionMatchesOptionalNull | lib/simplecheck.js:82-89 | an anonymous function value does not match `null` but does match `optional(null)` |
| MatcherProperties.OneOfWithoutPassingAlternative | lib/simplecheck.js:99-110 | an anonymous function value matches `oneOf(undefined, 'x')` though it matches neither alternative |
| SimplecheckTests.ScalarAndNativeRows | lib/simplecheck_test.js:26-40 | the scalar-descriptor and native-constructor cases of the test table |
| SimplecheckTests.CombinatorRows | lib/simplecheck_test.js:41-45 | the `optional` and `oneOf` cases over scalars |
| SimplecheckTests.IntegerNumberRows | lib/simplecheck_test.js:46-53 | `Integer` accepts -1, 0, 1, INT_MIN and INT_MAX, and rejects 123.33, .33 and 1.348192308491824e+23 |
| SimplecheckTests.IntegerOtherRows | lib/simplecheck_test.js:54-62 | `Integer` rejects NaN, the infinities, a class, instances, `{}`, `[]`, a function and a Date |
| SimplecheckTests.ClassRows | lib/simplecheck_test.js:63-71 | the class, subclass, instance-as-pattern and undefined cases |
| SimplecheckTests.ClassFieldRows | lib/simplecheck_test.js:72-85 | a class-valued field matches its class, plain or optional |
| SimplecheckTests.UnknownKeyRows | lib/simplecheck_test.js:86-96 | a string field passes, and an extra key `baz` is rejected with "Unknown key baz" |
| SimplecheckTests.OptionalFieldRows | lib/simplecheck_test.js:97-116 | an optional field passes when absent or of the right type and fails otherwise |
| SimplecheckTests.DateRows | lib/simplecheck_test.js:117-118 | `Date` accepts a Date and rejects a plain object |
| SimplecheckTests.ArrayRows | lib/simplecheck_test.js:119-136 | `[String]`, `[Number]` and `[oneOf(String, Number)]` on arrays of scalars |
| SimplecheckTests.ObjectArrayRows | lib/simplecheck_test.js:121-135 | arrays of objects, including a failing second element |
| SimplecheckTests.LiteralAndRegexRows | lib/simplecheck_test.js:137-142 | literals and regular expressions inside `oneOf` |
| SimplecheckTests.RegexFieldRow | lib/simplecheck_test.js:143-147 | a regular expression as a field pattern |
| SimplecheckTests.AnythingFieldRow | lib/simplecheck_test.js:148-155 | `anything` as an optional, required and `oneOf` field, with an absent key |
| SimplecheckTests.OptionalNullRow | lib/simplecheck_test.js:156-160 | an array does not match `optional(null)` |
| SimplecheckTests.EnsureRows | lib/simplecheck_test.js:170-182 | `ensure` throws a MatchError for a scalar mismatch and for a non-array under an array pattern |

## Left out

- Message text: MatchError messages, `getExpectedType` and `JSON.stringify` rendering are not modelled. A failure carries a structured reason (one constructor per throw site, with the key-prefix chain as nested `KeyFailed`) instead of a string.
- `typesInArray` is modelled only as whether it throws (an `undefined` choice, looking through nested arrays), not as the list of names it renders.
- Regular expressions: the pattern's `test` is an uninterpreted predicate over the value, which stands for `String(value)` followed by the RegExp engine. The state the `g` flag keeps in `lastIndex` between calls is not modelled.
- User predicates and classes: what calling a user function does is an uninterpreted `run` function. A class is identified by its name; distinct classes are assumed to have distinct names.
- Prototype chains are reduced to a constructor name plus the names of its ancestors. Inherited and non-enumerable properties, getters, `Object.create(null)` and objects without a `constructor` are not modelled. One visible consequence: a value key named after an `Object.prototype` member (`toString`, `hasOwnProperty`) passes the source's strict loop, because `pattern[k]` finds the inherited method (lib/simplecheck.js:304). The model reports it as an unknown key instead. Likewise `value[k]` (lib/simplecheck.js:290) would read an inherited method where the model reads undefined.
- Values and patterns are assumed to have no own key named `constructor`. `JsValues.ConstructorName` and `Matcher.StrictClosure` read the constructor name only from the value's class, while the source reads `value.constructor` and `pattern.constructor` (lib/simplecheck.js:184, :298-300, :101 and :141), so an own `constructor` key would override it. For example, `matches({constructor: 'x'}, {constructor: String})` throws "Expected instance of undefined to be instance of String" in the source, because `'x'.name` is undefined. The model accepts that value. For `{constructor: 'x', a: 1}` against `{a: Number}`, the source throws the class-name mismatch at :300, where the model reports `UnknownKey("constructor")`.
- A user function that throws `null` or `undefined`: reading `e.name` (lib/simplecheck.js:219) then throws a TypeError out of the `catch`, and class matching never runs. The model's `ThrewOther` always goes on to class matching. Symbol and BigInt values are not modelled either.
- Key order: the fields of an object value or pattern are listed in enumeration order. The rule that integer-like keys come first is not modelled.
- Numbers are mathematical reals plus NaN and the two infinities; floating-point rounding and -0 are not modelled.
- Cyclic values, stack exhaustion and `JSON.stringify` throwing on cyclic or BigInt values are not modelled.
- Lines 221-226: when the call of a function pattern throws, `pattern.constructor` is always truthy, so the `else` branch that calls the pattern again is unreachable and has no counterpart in the model.
- Async and generator functions, whose constructor name is not `Function`, are not modelled as patterns or values. Of a user function pattern the model keeps only its name, whether it has a `prototype` object, and what calling it does.
- The `strict` argument is a `bool`. In the source an omitted or `undefined` argument means `true` (lines 154, 168 and 205), and any other value is used for its truthiness (line 296). A caller's argument therefore maps to `true` when it is undefined or truthy, and to `false` otherwise.
- Keys are assumed distinct within an object value and within an object pattern, as in any JavaScript object; the datatypes do not enforce this. With a repeated key, the model's field loop would check each entry, and a lookup would find the first.
- The `strict` parameter of `checkArray` is always left at its default (true), so the model has no such parameter.
- The module glue (`exports`, Babel helpers), the `MatchError` class body and `dist/simplecheck.js` (a compiled copy of the same code) are not part of this model.
