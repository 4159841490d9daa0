# A verified model of the `Assert` runtime shape checker

`Assert` checks a runtime JavaScript value against a *descriptor* and throws
when the two disagree. The descriptor decides the check, and the cases are tried in
the source's order:

- A one-element array `[d]` needs an array whose every element matches `d`.
- A built-in constructor (`Boolean`, `Function`, `Number`, `Object`, `String`,
  `Symbol`) needs a value of the kind `typeof C()` names.
- `undefined` needs `undefined`.
- `Assert.or(v1, ..., vn)` needs at least one alternative to match.
- A plain object needs an object-kind value, and each declared key checked in
  order.
- A function or symbol literal needs any function or any symbol.
- Any other literal needs a strictly equal value.

A failure message reads `Expected <path> to be <label>; Actual: <act>`. The path
starts at `root` and grows by `[i]` and `.key`. A truthy custom message replaces
every such message. An alternation that fails throws `None of the types
matched:` followed by the messages of all its alternatives, joined with newlines.
`Assert.model(descriptor, message)` binds a descriptor and a message, and
`validate(actual)` checks against them from `root`.

The project has six modules:

- `JsValues` (`js_values.dfy`) holds the slice of JavaScript the matcher observes:
  values, `typeof`, how template literals and `String(...)` print values, and
  property reads. An array's `length` and index keys are included.
- `Matcher` (`matcher.dfy`) holds `Assert.or`, the `fail` closure and `check` as
  mutually recursive functions. The alternation loop is also a method with a
  `while` loop proved equal to the function.
- `MatcherProperties` (`properties.dfy`) holds the general properties of each
  dispatch case.
- `Facade` (`facade.dfy`) holds the `Assert` class with its two fields, the
  private constructor, `model` and `validate`.
- `Fixtures` (`fixtures.dfy`) holds the descriptors the tests use.
- `Scenarios` (`scenarios.dfy`) holds the repository's test cases, stated as
  lemmas. Most are also generalised to every value of the relevant kind.

A thrown error is an `Outcome`:

- `Err(message)` is an error the matcher throws itself.
- `HostError(fault)` is a TypeError the JavaScript engine raises on the way. Its
  cases are `'__assert' in null`, `null[key]`, `forEach` on a non-array, and a
  symbol in a template literal.

A composite message is kept as a tree. `Render` flattens it into the string
`e.message` would hold. The engine's wording of a TypeError is a parameter
there.

Two test cases expect behaviour the code does not have. The model follows the
code:

- `check(null, null)` (`src/__tests__/assert.test.ts:24`) is expected to succeed.
  The code evaluates `'__assert' in null` at `src/index.ts:76`, which raises a
  TypeError (`Scenarios.NullAgainstNull`).
- `check([null], [{a: 1}])` (`src/__tests__/assert.test.ts:53`) is expected to
  fail with `Expected root[0] to be object; Actual: null`. `null` passes
  `typeof actual !== 'object'`, and the code then reads `null['a']`, which
  raises a TypeError (`Scenarios.NullElementAgainstStructure`).

## Model

| member | source | states |
|---|---|---|
| Matcher.Or | src/index.ts:8-13 | the result is an object whose `__assert` is `'or'` and whose `values` is the array of the alternatives |
| Matcher.Fail | src/index.ts:21-32 | never succeeds; a truthy custom message is thrown verbatim; otherwise the message is `Expected path to be label; Actual: act`, where `act` is `typeof actual` when the kinds differ and the actual value's template text when they agree (a TypeError when that text cannot be formed); the message names `path` |
| Matcher.Check | src/index.ts:15-131 | without a custom message every message names the path it was called with or a path below it, or is an `Invalid operation:` report, or is a caught host TypeError; with a truthy custom message every message is that message, an `Invalid operation:` report or a caught host TypeError, alone or as the lines of a composite |
| Matcher.CheckElements | src/index.ts:39-46 | the element loop's error names the array's path (under `[i]`) or is the custom message, or is an `Invalid operation:` report or a caught host TypeError |
| Matcher.CheckFields | src/index.ts:105-112 | the key loop's error names the object's path (under `.key`) or is the custom message, or is an `Invalid operation:` report or a caught host TypeError |
| Matcher.TryAlternatives | src/index.ts:81-88 | every collected message names the alternation's own path or is the custom message, or is an `Invalid operation:` report or a caught host TypeError |
| Matcher.TryAlternativesSnoc | src/index.ts:81-88 | running one more alternative is one loop step: a success sets `valid`, a failure appends its `e.message` to `errors` and leaves `valid` alone |
| Matcher.CheckOr | src/index.ts:76-93 | `check` on `or(values)` succeeds iff some run of the loop set `valid`; otherwise it throws the composite of the collected messages |
| Matcher.TallyAlternatives | src/index.ts:79-88 | the imperative loop leaves `valid` and `errors` exactly as the fold over the alternatives defines them |
| Matcher.RunAlternation | src/index.ts:78-93 | the loop followed by the `if (!valid) throw` computes what `check` does on `or(values)` |
| MatcherProperties.ClassMarkerIsConstructorOrUndefined | src/index.ts:60-71 | a class marker is of kind `function` iff it is a constructor, and otherwise is `undefined`, so the "Invalid expected function" throw cannot be reached |
| MatcherProperties.BuiltinMarker | src/index.ts:61-64 | a constructor marker passes iff `typeof actual` equals `typeof C()`; otherwise it is `fail(typeof C())`, which with no custom message shows `typeof actual` for a non-function actual (an actual function shows its own text, since `typeof` of every constructor is `function`) |
| MatcherProperties.ObjectMarkerAcceptsNullAndArrays | src/index.ts:61-64 | `Object` accepts `null` and every array, since both are of kind `object` |
| MatcherProperties.UndefinedMarker | src/index.ts:65-68 | `undefined` passes iff the actual value is `undefined`; otherwise it fails with label `undefined` |
| MatcherProperties.SequenceRejectsNonArray | src/index.ts:35-38 | a non-array fails a sequence descriptor with label `array` |
| MatcherProperties.ElementsPass | src/index.ts:39-46 | the element loop succeeds when every element from `from` on passes at its indexed path |
| MatcherProperties.ElementsFail | src/index.ts:39-46 | the element loop fails when some element from `from` on fails |
| MatcherProperties.ElementsOk | src/index.ts:39-46 | the element loop succeeds iff every element passes at its indexed path |
| MatcherProperties.ElementsFirstFailure | src/index.ts:39-46 | the element loop's outcome is the outcome of the first failing element, at path `path[j]` |
| MatcherProperties.SequenceAll | src/index.ts:35-47 | an array passes `[d]` iff every element passes `d` at `path[i]` |
| MatcherProperties.SequenceFirstFailure | src/index.ts:35-47 | an array fails `[d]` with exactly the first failing element's error |
| MatcherProperties.SequenceFails | src/index.ts:35-47 | one element failing `d` at `path[j]` makes the array fail `[d]` |
| MatcherProperties.EmptyArrayPasses | src/index.ts:39-47 | an empty array passes every sequence descriptor |
| MatcherProperties.SequenceUsesFirstElementOnly | src/index.ts:42 | only the first element of a sequence descriptor is used, and `[]` behaves as `[undefined]` |
| MatcherProperties.StructureRejectsNonObject | src/index.ts:101-104 | a value not of kind `object` fails a structure descriptor with label `object`, or with the custom message |
| MatcherProperties.FieldsOk | src/index.ts:105-112 | the key loop succeeds iff the value read under every declared key passes that key's descriptor at `path.key` |
| MatcherProperties.FieldsFirstFailure | src/index.ts:105-112 | the key loop's outcome is that of the first declared key whose value fails |
| MatcherProperties.StructureIsFields | src/index.ts:100-113 | on an object or array, an untagged structure descriptor is decided by the key loop alone |
| MatcherProperties.StructureAll | src/index.ts:100-113 | an object passes a structure descriptor iff every declared key's value passes at `path.key` |
| MatcherProperties.StructureFirstFailure | src/index.ts:100-113 | an object fails a structure descriptor with exactly the first failing key's error |
| MatcherProperties.FieldsSeeOnlyDeclaredKeys | src/index.ts:105-112 | two objects that agree on the declared keys get the same key-loop outcome |
| MatcherProperties.ExtraKeysIgnored | src/index.ts:100-113 | keys of the actual object that the descriptor does not declare never affect the outcome |
| MatcherProperties.MissingKeyIsUndefined | src/index.ts:105-112 | for any declared key `j` that the plain object lacks, `actual[key]` reads `undefined`; the structure passes only if that key's descriptor accepts `undefined` at `path.key`; when every earlier declared key passes and this one does not, the structure's outcome is that key's outcome for `undefined` |
| MatcherProperties.TallyValid | src/index.ts:79-88 | the loop sets `valid` iff some alternative passes |
| MatcherProperties.TallyErrors | src/index.ts:79-88 | when `valid` stays false, every alternative failed and `errors` holds one message per alternative, in declaration order |
| MatcherProperties.TallyOfAlternatives | src/index.ts:79-88 | both of the above together |
| MatcherProperties.AllAlternativesFail | src/index.ts:79-93 | when every alternative throws `m_i`, the alternation throws the composite of exactly `m_1..m_n` |
| MatcherProperties.Alternation | src/index.ts:76-93 | `or(v1..vn)` passes iff some alternative passes; otherwise it throws a composite of exactly n messages, the i-th being alternative i's message, whatever the custom message |
| MatcherProperties.UnknownOperation | src/index.ts:94-95 | a tagged descriptor whose op is not `'or'` throws `Invalid operation: op` (a TypeError for a symbol op) |
| MatcherProperties.AlternativesNotAnArray | src/index.ts:81 | an `or` tag whose `values` is not an array raises the engine's TypeError from `forEach` |
| MatcherProperties.FunctionLiteral | src/index.ts:116-128 | a function literal passes iff the actual value is a function; otherwise it fails with the function's source text as the label |
| MatcherProperties.SymbolLiteral | src/index.ts:116-128 | a symbol literal passes iff the actual value is a symbol, whatever its identity; otherwise it fails with label `Symbol(description)` |
| MatcherProperties.PrimitiveLiteral | src/index.ts:125-128 | a boolean, number or string literal passes iff the actual value is strictly equal; otherwise the label is `String(expected)`, and the actual is the value itself when the kinds agree and `typeof actual` when they differ |
| MatcherProperties.NullDescriptor | src/index.ts:76 | a `null` descriptor always raises the TypeError of `'__assert' in null` |
| MatcherProperties.NullAgainstStructure | src/index.ts:101-112 | `null` against a non-empty structure raises the TypeError of reading the first key from `null`; against `{}` it passes |
| MatcherProperties.SequenceVerdict | src/index.ts:35-47 | a sequence descriptor passes iff the actual value is an array and the element loop succeeds |
| MatcherProperties.OrVerdict | src/index.ts:76-93 | an `or` descriptor passes iff the loop sets `valid` |
| MatcherProperties.MalformedTagVerdict | src/index.ts:76-96 | a tagged descriptor with an unknown op, or with `values` that is not an array, never passes |
| MatcherProperties.StructureVerdict | src/index.ts:100-113 | a structure descriptor passes iff the actual value is of kind `object` and the key loop succeeds |
| MatcherProperties.VerdictIndependent | src/index.ts:15-131 | whether `check` passes depends on neither the custom message nor the path |
| MatcherProperties.ElementsVerdictIndependent | src/index.ts:39-46 | the same for the element loop |
| MatcherProperties.FieldsVerdictIndependent | src/index.ts:105-112 | the same for the key loop |
| MatcherProperties.TallyVerdictIndependent | src/index.ts:79-88 | the same for the alternation's `valid` flag |
| MatcherProperties.CustomMessageEverywhere | src/index.ts:21-24 | under a non-empty custom message every message `fail` writes, at any depth, is that message; the other messages are `Invalid operation:` reports or caught host TypeErrors, and a composite keeps its header; the verdict is that of the check without a custom message |
| Facade.Assert.constructor | src/index.ts:136-139 | the new object holds the given descriptor and custom message |
| Facade.Assert.Model | src/index.ts:4-6 | returns a fresh `Assert` holding the descriptor and custom message |
| Facade.Assert.Validate | src/index.ts:141-143 | validating is `check` against the stored descriptor and message from `root` |
| Facade.ModelThenValidate | src/index.ts:4-6 | `Assert.model(e, m).validate(a)` equals `check(a, e, m)` at `root` |
| Scenarios.OneAlternativePasses | src/index.ts:79-93 | one passing alternative makes the alternation pass |
| Scenarios.NoAlternativePasses | src/index.ts:79-93 | when no alternative passes, the alternation throws a composite with one collected message per alternative, the i-th caught from alternative i |
| Scenarios.TwoAlternativesFail | src/index.ts:79-93 | two failing alternatives give the composite of their two messages in order |
| Scenarios.TwoAlternativesFailCaught | src/index.ts:79-93 | two alternatives that fail, by a message or a host TypeError, give the composite of what each throws, in order |
| Scenarios.ThreeAlternativesFail | src/index.ts:79-93 | three failing alternatives give the composite of their three messages in order |
| MatcherProperties.JoinLinesSnoc | src/index.ts:91 | `errors.join('\n')` with one more message is the earlier join, a newline and that message's text |
| MatcherProperties.RenderComposite | src/index.ts:90-92 | the thrown string of a composite starts with `None of the types matched:` and a newline; it is that header and the single message's text for one message, and each further message adds a newline and its text |
| Scenarios.RenderTwo | src/index.ts:90-92 | a composite of two messages prints as the header followed by the two lines joined with a newline |
| Scenarios.MarkerSuccesses | src/__tests__/assert.test.ts:11-23 | the constructor-marker and `undefined` success cases pass |
| Scenarios.LiteralSuccesses | src/__tests__/assert.test.ts:12-22 | the literal success cases pass, including two distinct arrow functions and two distinct symbols |
| Scenarios.StringOrNumberPasses | src/__tests__/assert.test.ts:25-26 | every string and every number passes `or(String, Number)` |
| Scenarios.StringNumberSuccesses | src/__tests__/assert.test.ts:25-26 | `'hello'` and `1` pass `or(String, Number)` |
| Scenarios.StringOrArraySuccesses | src/__tests__/assert.test.ts:27-29 | `'hello'`, `[]` and `['hello']` pass `or(String, [String])` |
| Scenarios.BooleanOrArrayOrSimpleSuccesses | src/__tests__/assert.test.ts:30-31 | `true` and `[]` pass `or(Boolean, [or(String, Number)])` |
| Scenarios.ElementsStringOrNumber | src/__tests__/assert.test.ts:32-34 | every array of strings and numbers passes `or(Boolean, [or(String, Number)])` |
| Scenarios.BooleanOrArrayOrElementSuccesses | src/__tests__/assert.test.ts:32-34 | `['hello']`, `[1]` and `[2, 'goodbye']` pass it |
| Scenarios.BooleansOrObjects | src/__tests__/assert.test.ts:40 | every array of booleans and objects passes `[or(Boolean, Object)]` |
| Scenarios.DictionaryShape | src/__tests__/assert.test.ts:35-42 | every `{a, b, c}` with a number, a string and an array of booleans and objects passes the dictionary descriptor |
| Scenarios.DictionarySuccess | src/__tests__/assert.test.ts:35-42 | `{a: 1, b: 'string', c: [true, {}]}` passes it |
| Scenarios.ExactOrSuccesses | src/__tests__/assert.test.ts:43-46 | `true`, `false`, `'hello'` and `55` pass `or(Boolean, 'hello', 55)` |
| Scenarios.MessageWording | src/__tests__/assert.test.ts:79 | the message template spelled out for `root`, `string`, `number` |
| Scenarios.NumberAgainstString | src/__tests__/assert.test.ts:52 | `1` against `String` throws `Expected root to be string; Actual: number` |
| Scenarios.CustomError | src/__tests__/assert.test.ts:88-92 | with `'chicken nuggets'` that failure throws `chicken nuggets` |
| Scenarios.PrintedNumbers | src/index.ts:127 | `String(55)` is `55` and `String(56)` is `56` |
| Scenarios.NumberAgainstOtherNumber | src/__tests__/assert.test.ts:60 | `56` against `55` reports the actual number itself, since the kinds agree |
| Scenarios.StringNumberFailure | src/__tests__/assert.test.ts:54 | `true` against `or(String, Number)` throws the composite of the `string` and `number` messages |
| Scenarios.StringOrArrayRejectsBoolean | src/__tests__/assert.test.ts:55 | `true` against `or(String, [String])` throws the composite of the `string` and `array` messages |
| Scenarios.StringOrArrayRejectsArrayOf | src/__tests__/assert.test.ts:56 | at any path, `[x]` with `x` neither a string nor a function fails `or(String, [String])` with `Actual: object`, then with `x`'s kind at `path[0]` |
| Scenarios.StringOrArrayRejectsNumberArray | src/__tests__/assert.test.ts:56 | `[1]` gives exactly those two messages |
| Scenarios.BooleanOrArrayOrRejectsString | src/__tests__/assert.test.ts:57 | `'hello'` against `or(Boolean, [...])` throws the `boolean` and `array` messages |
| Scenarios.NeitherStringNorNumber | src/__tests__/assert.test.ts:58 | any value that is neither a string nor a number fails `or(String, Number)` with a composite of two messages; when it is not a function, these are the `string` and `number` messages with its kind |
| Scenarios.BooleanRejectsArray | src/index.ts:61-64 | every array fails the `Boolean` marker with `Actual: object` |
| Scenarios.ElementNeitherStringNorNumber | src/__tests__/assert.test.ts:58 | at any path, an array with one such element fails `or(Boolean, [or(String, Number)])` with the composite of the `boolean` message and the sequence alternative's message |
| Scenarios.RootIndexPaths | src/index.ts:44 | the element paths `root[0]` and `root[1]` |
| Scenarios.MixedArrayElementFails | src/__tests__/assert.test.ts:58 | at any path, `['hello', false, 2]` fails `[or(String, Number)]` at `path[1]` with the `string` and `number` messages for a boolean |
| Scenarios.BooleanOrArrayOrRejectsMixedArray | src/__tests__/assert.test.ts:58 | `['hello', false, 2]` throws exactly the composite of the `boolean` message at `root` and the nested composite of the two messages at `root[1]` |
| Scenarios.ExactOrFailureOnString | src/__tests__/assert.test.ts:59 | `'goodbye'` against `or(Boolean, 'hello', 55)` throws the three messages of the alternatives in order |
| Scenarios.ExactOrFailureOnNumber | src/__tests__/assert.test.ts:60 | `56` throws the three messages, the last with `Actual: 56` |
| Scenarios.ExactOrFailureOnObject | src/__tests__/assert.test.ts:61 | `{}` throws the three messages with `Actual: object` |
| Scenarios.NestedRejectsNonObject | src/__tests__/assert.test.ts:105-107 | a non-object fails the nested descriptor at `root` with label `object` |
| Scenarios.NestedRejectsNumber | src/__tests__/assert.test.ts:105-107 | `1` gives `Expected root to be object; Actual: number` |
| Scenarios.NestedMissingKey | src/__tests__/assert.test.ts:108-110 | an object without `key1` fails at `root.key1` with `Actual: undefined` |
| Scenarios.NestedEmptyObject | src/__tests__/assert.test.ts:108-110 | `{}` gives that message |
| Scenarios.NestedKeyNotArray | src/__tests__/assert.test.ts:111-113 | a non-object `key1` fails at `root.key1` with label `array` and its kind |
| Scenarios.NestedKeyNumber | src/__tests__/assert.test.ts:111-113 | `{key1: 1}` gives `Actual: number` |
| Scenarios.NestedElementNotArray | src/__tests__/assert.test.ts:114-116 | a non-object second element fails at `root.key1[1]` |
| Scenarios.NestedElementString | src/__tests__/assert.test.ts:114-116 | `{key1: [[], '1']}` gives `Actual: string` |
| Scenarios.ThroughKey1At2At0 | src/__tests__/assert.test.ts:117-129 | for `{key1: [[], [], [o]]}` the failure of `o` against the inner descriptor at `root.key1[2][0]` is the failure of the whole |
| Scenarios.NestedInnerNotObject | src/__tests__/assert.test.ts:117-119 | a non-object innermost element fails at `root.key1[2][0]` with label `object` |
| Scenarios.NestedInnerNumber | src/__tests__/assert.test.ts:117-119 | `[1]` there gives `Actual: number` |
| Scenarios.NestedKey2Mismatch | src/__tests__/assert.test.ts:120-124 | a `key2` that is neither a number nor a function fails at `root.key1[2][0].key2` with label `number` and its kind |
| Scenarios.NestedKey2Boolean | src/__tests__/assert.test.ts:120-124 | `key2: true` gives `Actual: boolean` |
| Scenarios.UndefinedOrStringFails | src/__tests__/assert.test.ts:100 | a value that is neither `undefined`, a string nor a function fails both alternatives of `or(undefined, String)` |
| Scenarios.NestedKey3NoneMatched | src/__tests__/assert.test.ts:125-129 | a number `key2` and a `key3` that is neither `undefined`, a string nor a function give the composite of two messages at `root.key1[2][0].key3` |
| Scenarios.NestedKey3Number | src/__tests__/assert.test.ts:125-129 | `key3: 1` gives the two `Actual: number` messages |
| Scenarios.NestedKey3Message | src/__tests__/assert.test.ts:128 | that composite prints as the three-line string the test expects |
| Scenarios.NullAgainstNull | src/index.ts:76 | `check(null, null)` raises the TypeError of `'__assert' in null` |
| Scenarios.NullElementAgainstStructure | src/index.ts:101-112 | `check([null], [{a: 1}])` raises the TypeError of `null['a']` |
| Scenarios.AndTag | src/index.ts:94-95 | a descriptor tagged `'and'` throws `Invalid operation: and` |
| Scenarios.UnknownTagInsideAlternation | src/index.ts:82-95 | inside an alternation that error becomes one of the collected messages |
| Scenarios.CustomMessageInsideAlternation | src/index.ts:82-92 | with a custom message each collected message is that message, and the composite header stays |
| Scenarios.EmptySequenceDescriptor | src/index.ts:39-46 | descriptor `[]` checks each element against `undefined` |
| JsValues.IndexKeyReadsElement | src/index.ts:107 | `actual[key]` on an array, with `key` the decimal text of an in-bounds index `i`, reads element `i` |
| Scenarios.ArrayAsStructure | src/index.ts:101-112 | an array passes a structure descriptor through its `length` and index keys |
| JsValues.PastTheEndReadsUndefined | src/index.ts:107 | `actual[key]` on an array, with `key` the decimal text of an index at or past its end, reads `undefined` |
| Scenarios.ArrayPastTheEnd | src/index.ts:101-112 | for every array and every index at or past its end, a structure declaring that index key as `String` fails at `path.key` with `Actual: undefined` |
| Scenarios.OnePastTheEnd | src/index.ts:101-112 | key `"1"` of a one-element array gives that message |

## Left out

- JavaScript numbers are unbounded integers here, printed in plain decimal. Floating point, `NaN !== NaN` and `-0` are not modelled. Neither is printing: of non-integral numbers, of integers of magnitude 2^53 or more (which JavaScript cannot hold exactly), or of numbers of 1e21 or more (which JavaScript prints in exponent form, such as `1e+21`). Neither are `bigint` and the other value kinds the tests never use.
- Property reads see an object's own keys only: prototype-chain lookup for `in` and `[]`, getters, and objects with their own `toString` or `forEach` are not modelled.
- A plain object's keys are an ordered list in declaration order. JavaScript's own `Object.keys` ordering rules (integer-like keys first) are not modelled. Neither is the rule that an object has no duplicate keys.
- Objects and arrays carry no identity, so strict equality is only ever used between values that are not objects.
- Descriptors are finite values. A self-referential descriptor (an object that contains itself), on which `check` recurses without end until the engine throws a RangeError, is not modelled. Neither is the stack overflow of a finite descriptor nested deeply enough: the model always reaches a verdict, and it never produces the RangeError message that an alternation would catch and collect.
- Arrays are dense. `forEach` skipping the holes of a sparse array (`src/index.ts:39`) is not modelled.
- The engine's wording of a TypeError is not modelled. A `HostError` names the operation that failed, and `Render` takes the wording as a parameter.
- Exceptions are outcome values. Only `Error` and TypeError objects thrown along the matcher's own paths appear: the message of a `HostError` caught inside an alternation is kept as an opaque fault.
- `Matcher.Check` leaves out the throw at `src/index.ts:69-70`, which cannot be reached. `MatcherProperties.ClassMarkerIsConstructorOrUndefined` proves that.
- The test cases at `src/__tests__/assert.test.ts:24` and `src/__tests__/assert.test.ts:53` are stated as the TypeErrors the code raises, not as the outcomes the tests expect.
- The test runner's configuration (`jest.config.js`) and the loop that runs the test tables (`src/__tests__/assert.test.ts:64-86`) are not part of this model.
