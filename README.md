# Soft-assertion collector (OeaAssertion), modelled in Dafny

`OeaAssertion` is a soft-assertion helper for test code. A failing check
does not stop the test. Instead it appends a formatted record
(`{ message }`) to one module-level array, `assertionErrors`, which every
`OeaAssertion` instance shares. `assertAll` then surfaces all collected
records at once. When the array is empty it does nothing. Otherwise it
calls `printResults`, which numbers the records from 1 in insertion order,
joins them into one report and throws an `Error` carrying that report.

The model has five modules:

- `JsValues` (js_values.dfy): the run-time values a check receives (string,
  number, boolean, null, undefined). It defines `===` by type and content,
  and proves that this is exactly identity of values, so there is no
  coercion. It renders values as `String(v)` does, with numbers in
  decimal, and proves a parse round trip for the number rendering.
- `JsBuiltins` (js_builtins.dfy): `String.prototype.includes`, `Array.prototype.map` with an index and
  `Array.prototype.join`. `includes` is proved equal to an offset-based
  definition. There are lemmas about joining.
- `OeaAssertion` (oea_assertion.dfy): the failure condition and the record
  template of each of the eight checks, and the report text. The class
  `AssertionErrors` stands for the shared module-level array. The class
  `OeaAssertion` holds a reference to it and has the eight check methods
  and `AssertAll`.
- `CheckLaws` (check_laws.dfy): how the failure conditions relate to each
  other, plus concrete calls and what they record.
- `Sessions` (sessions.dfy): a series of checks followed by `assertAll`.
  There are lemmas over any series. There are also client methods that
  drive the class through typical scenarios.

A thrown `Error(msg)` is modelled as the returned value `Thrown(msg)`.
Returning normally is modelled as `Returned`.

### Behaviour of the code that a reader might not expect

- A reader might expect the reset on line 157 to run after a report.
  It does not. `printResults` always throws (line 174). The throw leaves
  `assertAll` before line 157, so the reset never runs when the buffer is
  non-empty. When the buffer is empty, the branch holding the reset is not
  taken. So `assertAll` never changes the buffer. The model's `AssertAll`
  has no `modifies` clause, which makes "the buffer is the same afterwards"
  a fact Dafny checks. `Sessions.NoResetAfterThrow` shows what follows: a
  second `assertAll` reports the earlier failure again.
- `assert(1, 2, { errorMsg: "B" })` does not record "B". `assert` takes a
  message object `{ page?, errorMsg }` and interpolates the whole object
  (line 35). A plain object renders as "[object Object]", so the caller's
  `errorMsg` never reaches the record. The model does the same
  (`CheckLaws.AssertRecordIgnoresMessage`).

## Model

| member | source | states |
|---|---|---|
| `JsValues.StrictEquals` | src/OeaAssertion.ts:33 | `x === y` compares type first, then content; this holds exactly when the two values are identical, so 5 and "5" differ |
| `JsValues.Render` | src/OeaAssertion.ts:35-145 | `String(v)` / `${v}` of a primitive: the string itself, the number's decimal text, "true"/"false", "null" or "undefined"; every non-string renders as non-empty text, and a boolean renders as "true" exactly when it is true |
| `JsValues.BoolToString` | src/OeaAssertion.ts:72-86 | `${value}` of a boolean is "true" exactly when the value is true, and "false" otherwise |
| `JsValues.NumberToString` | src/OeaAssertion.ts:116 | a number renders as a non-empty text that starts with '-' exactly when the number is negative |
| `JsValues.NatToDecimal` | src/OeaAssertion.ts:171 | a natural number renders as one or more decimal digits with no leading zero, and as a single digit exactly when it is below 10 |
| `JsValues.DecimalRoundTrip` | src/OeaAssertion.ts:171 | reading the digits of a natural number back gives the same number |
| `JsValues.NumberRoundTrip` | src/OeaAssertion.ts:116 | reading the rendering of any integer back gives the same integer |
| `JsValues.NumberToStringInjective` | src/OeaAssertion.ts:171 | distinct numbers render as distinct texts |
| `JsValues.RenderForgetsType` | src/OeaAssertion.ts:33-35 | 5 and "5" render as the same text, yet are not strictly equal |
| `JsBuiltins.Includes` | src/OeaAssertion.ts:56 | `hay.includes(needle)`: the empty text is included in every text, and an included text is never longer than the text including it; `IncludesIff` fixes its meaning |
| `JsBuiltins.IncludesIff` | src/OeaAssertion.ts:56 | `hay.includes(needle)` holds exactly when `needle` occurs in `hay` at some offset (both directions) |
| `JsBuiltins.IncludesExtendRight` | src/OeaAssertion.ts:56 | text that a string includes is still included after more text is appended |
| `JsBuiltins.IncludesExtendLeft` | src/OeaAssertion.ts:56 | text that a string includes is still included after more text is prepended |
| `JsBuiltins.MapIndexed` | src/OeaAssertion.ts:168-172 | `items.map((item, index) => ...)` gives one image per item, built from the item and its index; `MapIndexedSnoc` fixes the order |
| `JsBuiltins.MapIndexedSnoc` | src/OeaAssertion.ts:168-172 | mapping one more record adds exactly one entry at the end, built with the next index |
| `JsBuiltins.Join` | src/OeaAssertion.ts:173 | `parts.join(sep)`: empty for no parts, the part itself for one part, and in general it starts with the first part; `JoinSnoc` gives the text for each further part, and `JoinIncludesPart` shows every part occurs in it |
| `JsBuiltins.JoinSnoc` | src/OeaAssertion.ts:173 | joining one more part appends the separator and that part, leaving the earlier text as it was |
| `JsBuiltins.JoinIncludesPart` | src/OeaAssertion.ts:173 | every part is included in the joined text |
| `OeaAssertion.AssertFails` | src/OeaAssertion.ts:33 | `assert` fails exactly when actual and expected are different values |
| `OeaAssertion.ContainsFails` | src/OeaAssertion.ts:56 | `contains` fails exactly when the expected text occurs at no offset of the actual text; an empty expected text never fails |
| `OeaAssertion.IsTrueFails` | src/OeaAssertion.ts:70 | `isTrue` fails exactly when the value is not true |
| `OeaAssertion.IsFalseFails` | src/OeaAssertion.ts:84 | `isFalse` fails exactly when the value is not false |
| `OeaAssertion.IsNotEqualFails` | src/OeaAssertion.ts:99 | `isNotEqual` fails exactly when `assert` on the same pair passes |
| `OeaAssertion.IsGreaterThanFails` | src/OeaAssertion.ts:114 | `isGreaterThan` fails exactly when actual is not greater than expected |
| `OeaAssertion.IsLessThanFails` | src/OeaAssertion.ts:129 | `isLessThan` fails exactly when actual is not less than expected |
| `OeaAssertion.IsNotNullFails` | src/OeaAssertion.ts:143 | `isNotNull` fails exactly for null and undefined |
| `OeaAssertion.RecordOf` | src/OeaAssertion.ts:34-147 | every check's record except `assert`'s starts with the caller's message; `assert`'s starts with the knife emoji and "[object Object]" |
| `OeaAssertion.RecordShowsValues` | src/OeaAssertion.ts:34-147 | every record includes the rendered values its check printed: actual and expected for `assert` and `contains`, actual for `isNotEqual`, the flag for `isTrue`/`isFalse`, both numbers for `isGreaterThan`/`isLessThan`, the value for `isNotNull` |
| `OeaAssertion.AssertRecordShowsValues` | src/OeaAssertion.ts:35-36 | the record of `assert` includes the rendered actual and the rendered expected value |
| `OeaAssertion.ContainsRecordShowsValues` | src/OeaAssertion.ts:57-58 | the record of `contains` includes the rendered actual and the rendered expected value |
| `OeaAssertion.BooleanRecordShowsValue` | src/OeaAssertion.ts:71-87 | the records of `isTrue` and `isFalse` include the flag they were given, as "true" or "false" |
| `OeaAssertion.OrderingRecordShowsValues` | src/OeaAssertion.ts:115-132 | the records of `isGreaterThan` and `isLessThan` include the text of both numbers |
| `OeaAssertion.Recorded` | src/OeaAssertion.ts:33-147 | a check adds at most one record; it adds one exactly when it fails, and that record is the check's formatted message |
| `OeaAssertion.EntryText` | src/OeaAssertion.ts:171 | the entry for the record at index i: "❌ [Assertion i+1]: " on its own line, then the record's message, ending in a newline; it always includes the message |
| `OeaAssertion.Entries` | src/OeaAssertion.ts:168-172 | `assertionErrors.map(({ message }, index) => ...)`: one entry per record; `MapIndexedSnoc` makes entry i the `EntryText` of record i |
| `OeaAssertion.ReportText` | src/OeaAssertion.ts:174-176 | the message of the thrown Error: it starts with the report header and is just the header for no records; the entries follow, joined by "\n" (see `ReportSnoc`, `ReportPrefix`, `ReportListsEveryRecord`) |
| `OeaAssertion.PrintResults` | src/OeaAssertion.ts:167-177 | printResults always throws, and the message starts with the report header |
| `OeaAssertion.ReportOfOne` | src/OeaAssertion.ts:168-176 | the report of one record is the header followed by entry "[Assertion 1]" holding that record |
| `OeaAssertion.ReportSnoc` | src/OeaAssertion.ts:168-176 | one more record extends the report by "\n" and an entry numbered one past the existing ones |
| `OeaAssertion.ReportPrefix` | src/OeaAssertion.ts:168-173 | for every k from 0 to the number of records, the report of the first k records is a prefix of the report of all records, so entries appear in insertion order |
| `OeaAssertion.ReportListsEveryRecord` | src/OeaAssertion.ts:168-176 | record i appears in the report inside its own entry, labelled i + 1 |
| `OeaAssertion.EntryLabelsDistinct` | src/OeaAssertion.ts:171 | entries at different positions get different "[Assertion n]" labels |
| `OeaAssertion.AssertionErrors.constructor` | src/OeaAssertion.ts:7 | the shared buffer starts empty |
| `OeaAssertion.OeaAssertion.constructor` | src/OeaAssertion.ts:16 | an instance appends to the shared buffer it is given |
| `OeaAssertion.OeaAssertion.Assert` | src/OeaAssertion.ts:28-38 | appends `assert`'s record to the end of the buffer exactly when actual !== expected; otherwise the buffer is unchanged |
| `OeaAssertion.OeaAssertion.Contains` | src/OeaAssertion.ts:51-61 | appends `contains`'s record exactly when the expected text is not included in the actual text; otherwise the buffer is unchanged |
| `OeaAssertion.OeaAssertion.IsTrue` | src/OeaAssertion.ts:69-75 | appends `isTrue`'s record exactly when the value is false |
| `OeaAssertion.OeaAssertion.IsFalse` | src/OeaAssertion.ts:83-89 | appends `isFalse`'s record exactly when the value is true |
| `OeaAssertion.OeaAssertion.IsNotEqual` | src/OeaAssertion.ts:98-104 | appends `isNotEqual`'s record exactly when actual === expected |
| `OeaAssertion.OeaAssertion.IsGreaterThan` | src/OeaAssertion.ts:113-119 | appends `isGreaterThan`'s record exactly when actual <= expected |
| `OeaAssertion.OeaAssertion.IsLessThan` | src/OeaAssertion.ts:128-134 | appends `isLessThan`'s record exactly when actual >= expected |
| `OeaAssertion.OeaAssertion.IsNotNull` | src/OeaAssertion.ts:142-148 | appends `isNotNull`'s record exactly when the value is null or undefined |
| `OeaAssertion.OeaAssertion.AssertAll` | src/OeaAssertion.ts:153-159 | on an empty buffer it returns normally; on a non-empty buffer it throws the report of every record in insertion order; either way the buffer is unchanged |
| `CheckLaws.AssertAndIsNotEqualComplementary` | src/OeaAssertion.ts:98-100 | for any pair of values, exactly one of `assert` and `isNotEqual` records a failure |
| `CheckLaws.AssertIsStrict` | src/OeaAssertion.ts:33 | assert(5, 5) passes; assert(5, "5") and assert(null, undefined) fail |
| `CheckLaws.OrderingChecks` | src/OeaAssertion.ts:113-134 | equal numbers fail both `isGreaterThan` and `isLessThan`; distinct numbers fail exactly one |
| `CheckLaws.BooleanChecks` | src/OeaAssertion.ts:69-89 | `isTrue` fails exactly on false, `isFalse` exactly on true, so exactly one of the two fails for any flag |
| `CheckLaws.IsNotNullPassesFalsyValues` | src/OeaAssertion.ts:143 | 0, false and "" pass `isNotNull`; null and undefined fail |
| `CheckLaws.ContainsPasses` | src/OeaAssertion.ts:56 | contains("hello world", "world") passes |
| `CheckLaws.ContainsFailsOnDifferentWord` | src/OeaAssertion.ts:56 | contains("hello", "world") fails |
| `CheckLaws.ContainsRecordNamesBoth` | src/OeaAssertion.ts:58 | the record of contains("hello", "world") includes `"hello" does not contain "world"` |
| `CheckLaws.AssertOfNumberAndNumeral` | src/OeaAssertion.ts:33-35 | assert(5, "5") records a failure whose text does not show which side was the string |
| `CheckLaws.AssertRecordIgnoresMessage` | src/OeaAssertion.ts:31-35 | the record of `assert` is the same whatever message object is passed |
| `CheckLaws.SamplePassingChecks` | src/OeaAssertion.ts:33-143 | assert(5, 5), contains("hello world", "world"), isGreaterThan(5, 3) and isNotNull(0) record nothing |
| `Sessions.RunAppend` | src/OeaAssertion.ts:34-147 | two series of checks run one after the other collect the first series' records, then the second's |
| `Sessions.NoFailureCollectsNothing` | src/OeaAssertion.ts:33-147 | a series of checks none of which fails leaves the buffer empty |
| `Sessions.RunEmptyIff` | src/OeaAssertion.ts:155 | a series of checks collects nothing exactly when none of its checks fails |
| `Sessions.RunLength` | src/OeaAssertion.ts:33-147 | a series of checks leaves exactly one record per failing check |
| `Sessions.RunOnlyFailures` | src/OeaAssertion.ts:33-147 | every record in the buffer is the record of some failing check, and record k belongs to the failing check with exactly k failing checks before it |
| `Sessions.FailingCheckIsReported` | src/OeaAssertion.ts:168-176 | the failing check at position i is record number 1 + (failing checks before it, counted by `FailureCount`), and appears in the report under that number |
| `Sessions.Perform` | src/OeaAssertion.ts:28-148 | calling the check method a `Check` names appends exactly that check's records to the buffer |
| `Sessions.RunSession` | src/OeaAssertion.ts:153-159 | any series of checks through one instance appends exactly `Run(checks)`; the following assertAll returns on an empty buffer and otherwise throws the report of the whole buffer; on a fresh buffer it throws exactly when some check failed |
| `Sessions.ReportOfThree` | src/OeaAssertion.ts:168-176 | the report of three records is the header, then entries 1, 2 and 3 separated by "\n" |
| `Sessions.ThreeFailures` | src/OeaAssertion.ts:153-176 | isTrue(false, "A"), assert(1, 2, ...), isNotNull(null, "C"), then assertAll: throws one report with entries 1, 2, 3 in call order |
| `Sessions.AllPass` | src/OeaAssertion.ts:155 | passing checks leave the buffer empty, and assertAll then returns normally |
| `Sessions.SharedBuffer` | src/OeaAssertion.ts:7 | a failure recorded through one instance is thrown by assertAll on another instance |
| `Sessions.NoResetAfterThrow` | src/OeaAssertion.ts:156-157 | after a throwing assertAll the buffer still holds its records, so the next assertAll reports them again ahead of new ones |

## Left out

- The `console.log` diagnostic in `assertAll` (line 154): output only, with no effect on state.
- JavaScript's general `String(x)` on arbitrary values. Only the five primitive kinds are modelled, plus the plain-object rendering "[object Object]" that `assert`'s message object produces.
- IEEE-754 numbers (NaN, -0, infinities, fractions, exponent notation from 1e21 up). Numbers are mathematical integers, rendered in plain decimal.
- The exception mechanism itself. A throw is the returned value `Thrown(message)`, and the `Error` object is reduced to its message.
- The `ContainsValue` enum (lines 1-4): a type annotation only. `Contains` accepts any value, as the compiled code does.
- `IsTrue`, `IsFalse`: take a `bool` as their TypeScript type says. The truthiness of non-boolean arguments is not modelled.
- `IsGreaterThan`, `IsLessThan`: take integers as their TypeScript type says. JavaScript's comparison of mixed or non-numeric arguments is not modelled.
- The shared module-level array is passed to each instance's constructor instead of being implicit. The TypeScript constructor takes no argument.
- Strings are sequences of Unicode scalar values, not UTF-16 code units as in JavaScript. `includes` agrees with JavaScript on well-formed strings. A string holding a lone surrogate cannot be represented.
