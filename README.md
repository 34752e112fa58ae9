# Closed-vocabulary validator (enums module)

This project models the validator in `src/learnings/enums.ts`, and the
verbatim copy of it at `src/learnings/string-literals.test.ts:54-85`. The
module has two fixed vocabularies:

- `Skills`, a string enum whose members `Typescript` and `Java` have the
  same names as values;
- `STATUS`, an object literal `{ LOADED: "loading", ERROR: "error", SUCCESS: "success" }`.

`isSkill` / `isStatus` test whether an untyped value is one of the object's
keys (`Object.keys(...).includes(value)`). `parseSkill` / `parseStatus`
return the value when it passes and `undefined` otherwise. `printSkills` /
`printStatus` log the value when the parse gives something truthy.

Module layout:

- `js_values.dfy`, module `JsValues`: the JavaScript runtime pieces the
  module uses. These are the `unknown` value (`Value`), truthiness,
  `Object.keys`, property access,
  `Array.prototype.includes` and `console.log` (class `Console`, an
  append-only log of logged values).
- `enums.dfy`, module `Enums`: the vocabularies, the validator and its
  properties.
- `enums_tests.dfy`, module `EnumsTests`: the scenarios the test files run.

Every operation is total: no function has a `requires`, so every input is
handled. Numbers, `null`, `undefined`, booleans and objects all give
`undefined` from the parse functions and nothing from the print functions.

Status membership is decided on the keys of `STATUS`, as the code does
(`src/learnings/enums.ts:21-22`, matching the type `keyof typeof STATUS` at
line 11). So `parseStatus("LOADED")` is `"LOADED"`, while `parseStatus("loading")`
is `undefined`.

## Model

| member | source | states |
|---|---|---|
| `JsValues.Truthy` | src/learnings/enums.ts:14 | `""`, `0`, `false`, `null` and `undefined` are falsy; non-empty strings, non-zero numbers, `true` and objects are truthy |
| `JsValues.Console.constructor` | src/learnings/enums.test.ts:4 | the console starts with nothing logged |
| `JsValues.Console.Log` | src/learnings/enums.ts:14 | `console.log(x)` appends exactly `x` to the log and changes nothing else |
| `JsValues.ObjectKeys` | src/learnings/enums.ts:22 | `Object.keys` returns one name per property, in declaration order (correct for objects with distinct, non-integer-like names, which both vocabularies have) |
| `JsValues.Get` | src/learnings/enums.test.ts:7 | property access gives `undefined` exactly when the name is not a key; otherwise it gives a string that the object pairs with that name |
| `JsValues.Includes` | src/learnings/enums.ts:25 | `keys.includes(v)` holds iff `v` is a string and one of `keys`; a non-string never matches |
| `JsValues.GetUnique` | src/learnings/enums.test.ts:19 | on an object with distinct names, property access returns exactly the value paired with the name |
| `Enums.IsSkill` | src/learnings/enums.ts:24-25 | holds iff the value is exactly the string `"Typescript"` or `"Java"`, the keys of `Skills` |
| `Enums.IsStatus` | src/learnings/enums.ts:21-22 | holds iff the value is exactly `"LOADED"`, `"ERROR"` or `"SUCCESS"`, the keys of `STATUS` |
| `Enums.ParseSkill` | src/learnings/enums.ts:30-32 | not `undefined` iff the value is `"Typescript"` or `"Java"`, and then it is the input unchanged; `undefined` for every other value, numbers and `null` included |
| `Enums.ParseStatus` | src/learnings/enums.ts:27-29 | not `undefined` iff the value is one of the three keys, and then it is the input unchanged; `undefined` otherwise |
| `Enums.PrintSkills` | src/learnings/enums.ts:13-15 | logs the value exactly once if `parseSkill` accepts it, and leaves the log unchanged otherwise; a log holding only vocabulary values keeps that property |
| `Enums.PrintStatus` | src/learnings/enums.ts:17-19 | logs the value exactly once if `parseStatus` accepts it, and leaves the log unchanged otherwise; a log holding only vocabulary values keeps that property |
| `Enums.VocabulariesHaveOrdinaryNames` | src/learnings/enums.ts:1-10 | the names of `Skills` and `STATUS` are distinct and none is integer-like, so `Object.keys` lists them in declaration order and, by `GetUnique`, property access finds the one property of each name |
| `Enums.SkillKeysAreValues` | src/learnings/enums.ts:1-4 | every key of the `Skills` enum equals its value |
| `Enums.StatusValuesRejected` | src/learnings/enums.ts:6-11 | looking up any key of `STATUS` gives `"loading"`, `"error"` or `"success"`, and `parseStatus` rejects each of these |
| `Enums.ParseIdempotent` | src/learnings/enums.ts:27-32 | parsing a parse result again gives the same result, for both vocabularies |
| `Enums.GateIsParse` | src/learnings/enums.ts:14-18 | the truthiness test in the print functions holds exactly when the parse succeeded, because every accepted value is a non-empty string |
| `Enums.ExactMatch` | src/learnings/string-literals.test.ts:74-85 | matching is exact and case-sensitive (`"typescript"`, `"loaded"` and the empty string are rejected), and no value is both a skill and a status |
| `EnumsTests.ShouldAcceptOnlyEnumValues` | src/learnings/string-literals.test.ts:89-92 | `printSkills(Skills.Typescript)` appends exactly `"Typescript"` to the log |
| `EnumsTests.ShouldBeCallableByString` | src/learnings/string-literals.test.ts:100-103 | `printStatus("loading")` followed by `printStatus(STATUS.LOADED)` leaves the log unchanged and raises no error |

The scenarios in `src/learnings/enums.test.ts:6-9` and `17-20` are the same
as those at `src/learnings/string-literals.test.ts:89-92` and `100-103`.
The same two methods model both. The middle test
(`src/learnings/enums.test.ts:11-15`, `src/learnings/string-literals.test.ts:94-98`)
calls `printSkills(Skills.Typescript)` again with no expectation; the
contract of `ShouldAcceptOnlyEnumValues` covers that call. The
commented-out `printSkills("Typescript")` there is rejected only by the
static parameter type, which is the omission recorded on the `PrintSkills`
line below.

The constants `Enums.Skills` (`src/learnings/enums.ts:1-4`) and
`Enums.STATUS` (`src/learnings/enums.ts:6-10`) model the enum and the
object literal; their contents are stated by `IsSkill`, `IsStatus`,
`SkillKeysAreValues` and `StatusValuesRejected`.

## Left out

- `console.log` output and the `vi.spyOn` spy are I/O and test plumbing. The log is modelled as a sequence of values.
- `Object.keys` reflection is modelled on a constant list of the object's properties in declaration order. Prototype and inherited properties are not modelled. `ObjectKeys` and `Get` do not model JavaScript's handling of duplicate names (the last one wins) or of integer-like names (listed first); `OrdinaryNames` excludes both, and both vocabularies satisfy it.
- `PrintSkills` takes any runtime value. The static parameter type `Skills` is not modelled; the code checks the value again at run time anyway.
- `Value` models numbers as integers and has no `symbol` or `bigint` case. NaN, fractions, `-0`, symbols and bigints are not modelled; none of them can equal a string key, so no parse or print result depends on them.
- Objects are modelled without contents, since no key can equal an object.
- The type-only constructs in `src/learnings/string-literals.test.ts` are not modelled: the template-literal types (5-8) and the numeric, string and const enum examples (20-49). None of them runs.
- `src/learnings/imutability.test.ts` is not modelled. It shows JavaScript aliasing and what `Readonly`/`DeepReadonly` do in the type checker.
