# wildcard-expect, modelled in Dafny

This project models the wildcard engine of the `wildcard-expect` test library.
A test author writes an "expected" tree. Some of its fields are wildcard markers,
made by the factory (`any()`, `string()`, `uuid()`, ...). The library then checks
that tree against an "actual" value in three steps:

1. **Substitution** (`replaceWildcards`). Each marker that is the value of a mapping
   key is replaced by the actual value under that key.
2. **Delegation.** The rewritten tree goes to the underlying assertion library (chai).
3. **Validation** (`validateWildcards`). The original tree is walked again. Each
   marker's kind is checked against the actual value, and the first violation
   throws an error that names its dotted or bracketed path.

The trace-id format test (`isValidTraceId`) is modelled exactly.

Modules, one per component:

- `JsValues` (values.dfy): JavaScript values, truthiness, `typeof`, and property reads.
  A property read is either `v?.[key]` or `v[key]`. Index keys (`String(i)`) round-trip.
- `TraceIds` (traceid.dfy): the regular expression `/^[0-9a-f]{32}$/i`. It is decided
  the way a regex engine decides it. The lemmas prove its closed form and properties.
- `Markers` (markers.dfy): the ten constructors and the marker test `v && v.__wildcard`.
  They also cover the `switch` on the tag.
- `Substitution` (substitution.dfy): `Substituted` is the specification. `ReplaceWildcards`
  is the procedure, written with the source's loops (`map` and `for...in`) and proved
  equal to `Substituted`.
- `Validation` (validation.dfy): a recursive function returning `Pass` or
  `Fail(error)`. The error is a kind violation, an unknown tag, or a TypeError from
  reading a property of `undefined`/`null`.
- `Adapter` (adapter.dfy): builds the `to` and `to.deep` method tables with loops.
  Each call does substitute, then delegate, then validate. The assertion library,
  the UUID and URL validators, and `Date.parse` are parameters.

A marker is the plain object `{ __wildcard: tag }`, the same object the source builds.
`Kind` is the closed set of tags. So a hand-built marker with another tag reaches the
`default:` case, as it does in the source.

One might expect a marker to stand for "any value of this kind" wherever it appears, and a tree without markers to be passed through unchanged. The code does less than that, and the model follows the code:

- A marker is recognised only as the value of a mapping key (src/wildcard.ts:18, :40).
  A marker that is an array element, the top-level expected value, or the value given
  to `property(name, value)` is walked as the mapping `{ __wildcard: tag }`. It is handed
  to the library unchanged, and its kind is never checked (`MarkerInArrayUnchanged`,
  `MarkerItselfNotChecked`, `PropertyMarkerNotSubstituted`).
  Take the expected value `{ user: { id: uuid(), name: "Ann" }, tags: ["a", any()] }`
  checked against `{ user: { id: "550e8400-e29b-41d4-a716-446655440000", name: "Ann" }, tags: ["a", 42] }`.
  The library is handed `tags: ["a", {__wildcard: "any"}]`, not `["a", 42]`
  (`NestedExampleSubstitution`), so an exact-equality method rejects it;
  validation alone passes when the UUID validator accepts the id (`NestedExampleValidation`).
- A Date object inside the expected tree has type "object" and no own keys.
  Substitution turns it into `{}` (`SubstituteDate`), so "no markers means no change"
  holds only for trees that also contain no Date (`SubstituteMarkerFree`).
- Validation reads `actual[key]` without optional chaining (src/wildcard.ts:45-95).
  If the actual value at a mapping is `undefined` or `null`, every key throws a
  TypeError (`NullRead`), including non-marker keys. The exceptions are `any` markers
  and unknown tags.

## Model

| member | source | states |
|---|---|---|
| `JsValues.Get` | src/wildcard.ts:19 | definition of `v?.[key]` (and of `v[key]` on a non-nullish value): own properties of objects, index keys and `length` of arrays and strings, undefined otherwise; properties in `JsValues.At` and `JsValues.ParseIndexKey` |
| `TraceIds.IsValidTraceId` | src/is-valid-traceid.ts:1-4 | definition: the anchored counted repetition of the class atom, decided as a regex engine does; properties in `TraceIds.TraceIdCharacterization` and the lemmas after it |
| `Markers.IsWildcard` | src/wildcard.ts:18 | definition of the marker test `v && v.__wildcard`; properties in `Markers.Make` and `Markers.WildcardIsObject` |
| `Substitution.Substituted` | src/wildcard.ts:7-26 | definition (the specification of `replaceWildcards`); properties in `Substitution.SubstituteScalar`, `SubstituteArray`, `SubstituteMapping`, `SubstituteDate` and `SubstituteMarkerFree`, and `Substitution.ReplaceWildcards` is proved equal to it |
| `Substitution.SubstitutedValue` | src/wildcard.ts:18-22 | definition of one entry of the result: a marker takes `actual?.[key]`, any other value recurses; properties in `Substitution.SubstituteMapping` |
| `Validation.Validate` | src/wildcard.ts:28-99 | definition of `validateWildcards` at a given path; properties in `Validation.ValidateScalar`, `ValidateArray`, `ValidateMapping`, `ErrorPathExtends` and `MarkerFreeOnlyNullReads` |
| `Validation.EntryOutcome` | src/wildcard.ts:38-96 | definition of the loop body for one own key; properties in `Validation.AnyNeverFails`, `KnownKindOutcome` and `UnknownTagFails` |
| `Validation.ValidateWildcards` | src/wildcard.ts:28 | definition: the walk started at the default empty path; properties through `Validation.Validate` |
| `Validation.KindAccepts` | src/wildcard.ts:44-90 | definition of the test each case of the switch applies; properties in `Validation.KindSemantics` |
| `Validation.TraceIdAccepts` | src/wildcard.ts:75 | definition of `isValidTraceId(actual[key])` on a value that is not necessarily a string, after string conversion; properties in `Validation.KindSemantics` |
| `Adapter.KeyOf` | src/wildcard.ts:110 | definition of the key `actual[expected]` reads; used by `Adapter.PropertyWithValue` |
| `Adapter.Delegate` | src/wildcard.ts:105-122 | definition of what a closure hands to the library, or the error it throws first; properties in `Adapter.GenericDelegation`, `DeepIgnoresExtraArgs`, `PropertyWithValue` and `PropertyMarkerNotSubstituted` |
| `Adapter.Invoke` | src/wildcard.ts:107-121 | definition of one call of a closure; properties in `Adapter.InvokeSucceedsIff` and `InvokeFailureOrder` |
| `Adapter.CallTo` | src/wildcard.ts:124-128 | definition of `w.to[name](...)`; properties in `Adapter.CallDispatch` |
| `Adapter.CallDeep` | src/wildcard.ts:130-133 | definition of `w.to.deep[name](...)`; properties in `Adapter.CallDispatch` |
| `JsValues.At` | src/wildcard.ts:12 | `actual?.[i]` is element i of an array (undefined past the end), a one-character string of a string, the own property `String(i)` of an object, and undefined for every other value |
| `JsValues.ParseIndexKey` | src/wildcard.ts:12 | the key `String(i)` used to index an array reads back as index i |
| `TraceIds.TraceIdCharacterization` | src/is-valid-traceid.ts:1-4 | the regex test accepts exactly the strings of length 32 whose every character is 0-9, a-f or A-F |
| `TraceIds.RepetitionClosedForm` | src/is-valid-traceid.ts:2 | an anchored `[0-9a-f]{n}` under the `i` flag matches exactly the strings of n hex digits |
| `TraceIds.TraceIdLength` | src/is-valid-traceid.ts:2 | a string whose length is not 32 is rejected |
| `TraceIds.TraceIdRejectsNonHex` | src/is-valid-traceid.ts:2 | one character outside 0-9, a-f, A-F anywhere makes the string invalid |
| `TraceIds.TraceIdCaseInsensitive` | src/is-valid-traceid.ts:2 | ASCII upper-casing of any single character (a-z to A-Z) does not change the verdict |
| `TraceIds.TraceIdUpperCase` | src/is-valid-traceid.ts:2 | ASCII upper-casing of the whole string does not change the verdict |
| `TraceIds.TraceIdAnchored` | src/is-valid-traceid.ts:2 | a valid id with any character added before or after it is rejected |
| `TraceIds.TraceIdRejectsEmpty` | src/is-valid-traceid.ts:2-3 | the empty string is rejected |
| `TraceIds.TraceIdAcceptsLowerExample` | src/is-valid-traceid.ts:2-3 | a 32-digit lower-case id is accepted |
| `TraceIds.TraceIdAcceptsUpperExample` | src/is-valid-traceid.ts:2-3 | the same id in upper case is accepted |
| `TraceIds.TraceIdRejectsExamples` | src/is-valid-traceid.ts:2-3 | the 33-character id and an id ending in `g` are rejected |
| `Markers.Make` | src/wildcard.ts:138-147 | each constructor returns an object whose only key is `__wildcard`; it passes the marker test and its tag is the kind's name ("function" for `fn`) |
| `Markers.KindOfTag` | src/wildcard.ts:41-92 | a tag selects a case of the switch only if it is the string naming that kind |
| `Markers.KindOfTagRoundTrip` | src/wildcard.ts:41-92 | every constructor's tag selects the case of its own kind |
| `Markers.MakeInjective` | src/wildcard.ts:138-147 | distinct constructors build distinct markers |
| `Markers.WildcardIsObject` | src/wildcard.ts:18 | a value passes `v && v.__wildcard` exactly when it is an object whose own `__wildcard` property is truthy |
| `Substitution.ReplaceWildcards` | src/wildcard.ts:7-26 | dispatches on the expected value; the result equals the specification `Substituted` |
| `Substitution.MapElements` | src/wildcard.ts:11-13 | the `map` over an expected array equals `Substituted` |
| `Substitution.FillResult` | src/wildcard.ts:15-25 | the `for...in` loop filling a fresh object equals `Substituted` |
| `Substitution.FillEntry` | src/wildcard.ts:18-22 | the loop body's value for one entry equals `SubstitutedValue`: the actual value under a marker key, otherwise the recursive substitution |
| `Substitution.SubstituteScalar` | src/wildcard.ts:8-10 | a non-object or null expected value comes back unchanged, whatever the actual value |
| `Substitution.SubstituteArray` | src/wildcard.ts:11-13 | an array gives an array of the same length whose element i is element i substituted against `actual[i]`, or against undefined when the actual value has no such element or cannot be indexed |
| `Substitution.SubstituteMapping` | src/wildcard.ts:15-25 | a mapping gives a mapping with exactly the same keys in the same order; a marker key takes `actual?.[key]` unchecked, and any other key is substituted recursively against `actual?.[key]` |
| `Substitution.SubstituteDate` | src/wildcard.ts:8-25 | a Date object in the expected tree becomes an empty object |
| `Substitution.MarkerItselfUnchanged` | src/wildcard.ts:15-25 | a marker walked as a value in its own right (not as a key's value) comes back unchanged |
| `Substitution.MarkerInArrayUnchanged` | src/wildcard.ts:11-13 | a marker placed directly in an array is never replaced |
| `Substitution.SubstituteMarkerFree` | src/wildcard.ts:7-26 | with no marker in key position and no Date object, substitution is the identity for every actual value |
| `Substitution.IdentityIsMarkerFree` | src/wildcard.ts:7-26 | conversely, a tree that substitution against `undefined` leaves unchanged has no marker in key position and no Date object |
| `Validation.ChildPath` | src/wildcard.ts:39 | a key's path starts with its parent's path and ends with the key. At the root it is the key alone; below the root a single '.' joins the two |
| `Validation.IndexPath` | src/wildcard.ts:33 | the path of an array element strictly extends the array's path |
| `Validation.FirstFailure` | src/wildcard.ts:33-98 | a walk passes exactly when every step passes; otherwise it reports the first failing step, and every step before it passed |
| `Validation.ValidateScalar` | src/wildcard.ts:29-31 | scalars, null, functions and Date objects in the expected tree never fail |
| `Validation.AnyNeverFails` | src/wildcard.ts:42-43 | a marker tagged "any", from the factory or built by hand with other keys, never fails, even when the actual parent is undefined or null |
| `Validation.KnownKindOutcome` | src/wildcard.ts:44-90 | a key holding a marker of any other kind fails exactly when the parent is nullish (the engine's TypeError, which the model tags with the key's path for reference only) or the kind check rejects `actual[key]` (the thrown error names the key's path) |
| `Validation.KindSemantics` | src/wildcard.ts:44-90 | `string`, `number`, `array` and `function` test the type; `object` accepts arrays and Date objects but rejects null and functions; `traceid` on a string is `isValidTraceId`, and on anything but a string or an array it fails; `date` accepts a Date object or a string that parses as a date; `uuid` and `url` are the validators |
| `Validation.UnknownTagFails` | src/wildcard.ts:91-92 | a truthy tag that names no kind always fails with an unknown-wildcard error at the key's path, whatever the actual value |
| `Validation.UnknownTagExample` | src/wildcard.ts:91-92 | a hand-built `{ __wildcard: "email" }` under key `to` at path `mail` fails as unknown at `mail.to` |
| `Validation.ValidateMapping` | src/wildcard.ts:37-98 | a mapping passes exactly when all its keys pass, and reports the error of the first failing key in enumeration order |
| `Validation.ValidateArray` | src/wildcard.ts:32-34 | an array is checked element by element, element i against `actual?.[i]` under `path[i]`, and reports the first failing element |
| `Validation.ErrorPathExtends` | src/wildcard.ts:33-39 | every error's path extends the path at which the walk started. For a kind or unknown-tag error this is the path in the thrown message; for a nullish read it is the model's record of where the read happened |
| `Validation.MarkerItselfNotChecked` | src/wildcard.ts:37-95 | a marker walked as a value in its own right is never kind-checked; it fails only when the actual value there is nullish |
| `Validation.MarkerFreeOnlyNullReads` | src/wildcard.ts:28-99 | a tree with no marker in key position can only fail by reading a property of undefined or null |
| `Adapter.CreateExpectWithWildCard` | src/wildcard.ts:124-135 | `to` holds exactly the six plain methods, each bound to its own plain handler; `to.deep` holds exactly the three deep methods, each bound to its deep handler; the actual value is bound |
| `Adapter.CallDispatch` | src/wildcard.ts:124-135 | calling one of the six plain or three deep names through its table runs the handler attached under that name; deep handlers get no extra arguments; in the model any other name is not a function (see Left out for inherited names) |
| `Adapter.InvokeSucceedsIff` | src/wildcard.ts:105-122 | a call succeeds exactly when the library accepts the delegated call and validation of the original expected value passes |
| `Adapter.InvokeFailureOrder` | src/wildcard.ts:107-116 | a library failure is reported unchanged and first; a validation failure is reported even when the library accepted |
| `Adapter.GenericDelegation` | src/wildcard.ts:112-120 | generic methods hand the library the substituted expected value followed by the extra arguments verbatim; deep methods hand it only the substituted expected value, on the deep chain |
| `Adapter.DeepIgnoresExtraArgs` | src/wildcard.ts:118-122 | a deep method's outcome does not depend on arguments after `expected` |
| `Adapter.PropertyWithValue` | src/wildcard.ts:109-115 | `property(name, value, ...)` substitutes only `value`, against `actual[name]`; it drops the later arguments and throws on a nullish actual before delegating; with a string name it succeeds exactly when the library accepts |
| `Adapter.PropertyMarkerNotSubstituted` | src/wildcard.ts:109-111 | a marker given as the property value reaches the library unchanged |
| `Adapter.PropertyWithoutValue` | src/wildcard.ts:108-115 | `property(name)` with no value does no wildcard work; the outcome is the library's verdict alone |
| `Adapter.MarkerChecksSubstitutedValue` | src/wildcard.ts:18-19 | under a marker key, the value the validator checks is the value substitution hands the library |
| `Adapter.MarkerFreeHasNoKeyMarkers` | src/wildcard.ts:18 | a tree with no marker in key position and no Date object has no key marker in the sense validation uses; this links substitution's identity condition at :18 to validation's |
| `Adapter.MarkerFreeReducesToLibrary` | src/wildcard.ts:105-116 | with no marker in key position and no Date object, the library gets the expected value unchanged, and validation can add at most a TypeError from a nullish read; a Date would reach the library as `{}` |
| `Adapter.NestedExampleSubstitution` | src/wildcard.ts:7-26 | in the nested user/tags example the uuid under `user.id` is replaced, the `any()` inside `tags` is not, and the result differs from the actual value |
| `Adapter.NestedExampleValidation` | src/wildcard.ts:28-99 | validation of the nested example passes when the id is a valid UUID |

## Left out

- The assertion library (chai, src/wildcard.ts:1, :111, :113, :120) is the `chai` parameter of `Host`. It maps a delegated call to a verdict. Its equality semantics, its error messages and the `.have` language chain are not modelled.
- `isValidUuid` (src/is-valid-uuid.ts is not part of this model) and `isValidUrl` (src/is-valid-url.ts, which wraps the WHATWG URL constructor) are parameters of `Env`.
- `Date.parse` is the `parsesAsDate` parameter. `instanceof Date` is the `DateObj` value. Invalid Date objects are not told apart.
- JavaScript's conversion of a non-string property name (`actual[expected]` in `property`) is the `propertyKey` parameter.
- Numbers are integers: NaN, -0, infinities and fractions are not modelled.
- Property reads see own properties of objects, plus the elements and `length` of arrays and strings. Nothing inherited from prototypes is modelled, nor properties of functions and Date objects.
- Strings are sequences of Unicode scalar values, not UTF-16 code units.
- Validation.TraceIdAccepts: treats every object as converting to "[object Object]". An object with its own `toString` or `valueOf` is not modelled.
- Values are compared structurally; object identity is not modelled. A marker's freshness, and the `===` comparison behind chai's `equal`, are therefore outside the model.
- Objects are sequences of (key, value) pairs in enumeration order. JavaScript keys are unique; a repeated key is read at its first occurrence.
- The exact wording of error messages is left out. Errors keep only the path, the kind or tag, and the error class.
- The reflective attachment loops are modelled as tables keyed by name. The TypeScript return type `ReturnType<typeof expect>` is not.
- Adapter.CallDispatch, Adapter.CallTo, Adapter.CallDeep: `to` and `to.deep` are modelled as maps holding only the attached closures. In the source they are plain objects, so names inherited from `Object.prototype` (`toString`, `hasOwnProperty`, ...) are functions there, while the model yields `NotAFunction`. `to.deep` is a separate field of the model's record, not a key of `to` (src/wildcard.ts:130).
- Nullish reads: the TypeError thrown by reading `actual[key]` of `undefined` or `null` in validation (src/wildcard.ts:45-95), or `actual[expected]` in `property` (src/wildcard.ts:110), carries no path. The string in `NullRead` records where the read happened, and it is not part of the thrown error. In validation it is the key's path. In `Adapter.Delegate` and `Adapter.PropertyWithValue` it is the property key. `Validation.ErrorPathExtends` and `Validation.KnownKindOutcome` speak of that recorded path.
- Cyclic expected trees: `replaceWildcards` and `validateWildcards` recurse until the engine throws a RangeError. Dafny datatype values are finite trees, so no cycle can be expressed.
- Arrays with holes: `map` keeps holes and `forEach` skips them (src/wildcard.ts:12, :33). The model's arrays are dense.
- test/setup.ts (test bootstrap) and tsup.config.ts (build configuration) are plumbing and are not part of this model.
