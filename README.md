# GalacticUI form inputs: validation and state, in Dafny

This project models the validation and state layer of the GalacticUI form
toolkit (a React component library) and proves properties of it. Rendering,
React hooks and rxjs are not modelled. What remains is:

- **The result type** (`src/util.ts`). `Either` holds diagnostics (Left) or a
  value (Right). The file also has `assert` and the `isChildOf` walk up an
  element's parent chain.
- **The diagnostic pipeline** (`src/components/RawInput.tsx`). A handler is a
  generator. It yields diagnostics, then returns a value or `undefined`. Here
  it is a function returning the errors and an optional value (`Generated`).
  `composeHandlers` runs a list of handlers from the last to the first.
  RawInput's `regex` step runs before the input's handler. `onInput` turns the
  outcome into a Left or a Right. `getCorners` computes a bit mask.
- **The validators.** `validateDate` follows the rollover rules of the `Date`
  constructor. `handleTime` has no range check. The phone pattern is
  recognised by hand. `DateTimeInput.update` merges the date and time halves.
- **The form store** (`src/components/form.tsx`, `src/components/Field.tsx`).
  A `FormManager` maps each field name to a value cell, created on first
  access. `submit` hands a snapshot of the cells to the submit handler. A field
  writes its cell only on a Right.
- **The autocomplete state machine** (`src/components/AutoCompleteInput.tsx`).
  It has the arrow-key index, `select`, `clear` and the `selected` lookup, the
  focus, blur and query events, `getter` and `fill`.

Some things a component reads from its surroundings are passed in as
parameters:

- the clock (`now`, or the current hour and minute);
- the outcome of the async query;
- whether a caller's `onFocus` or `onBlur` called `preventDefault`;
- the document's parent relation.

JavaScript's `undefined` and `null` are `Option.None`.

Each source file is one module: `util.dfy`, `raw_input.dfy`, `form.dfy`,
`field.dfy`, `date_input.dfy`, `time_input.dfy`, `date_time_input.dfy`,
`phone_input.dfy` and `auto_complete_input.dfy`. `numerals.dfy` holds the digit
handling that `\d`, `Number()` and template strings share.

Code that changes state is written as classes and methods:

- `FormManager` and its cells;
- the field wrapper;
- `DateTimeInput` with its two refs;
- the autocomplete input.

The loops of `composeHandlers`, the generator drain, `submit`, `isChildOf` and
`fill` are `while` loops. Each is proved against a specification function or
an explicit postcondition.

## Model

| member | source | states |
|---|---|---|
| `Util.MakeLeft` | src/util.ts:67-69 | `left(v)` satisfies `isLeft`, fails `isRight` and holds `v`; any payload, the empty list included, is allowed |
| `Util.MakeRight` | src/util.ts:71-73 | `right(v)` satisfies `isRight`, fails `isLeft`, and `unwrap()` returns `v` |
| `Util.Unwrap` | src/util.ts:43-59 | `unwrap` returns normally exactly on a Right, and then gives its value; on a Left it throws, naming the value |
| `Util.ExactlyOneVariant` | src/util.ts:65-81 | every `Either` satisfies exactly one of `isLeft` and `isRight` |
| `Util.Assert` | src/util.ts:2-6 | `assert(test)` returns normally exactly when `test` holds, and otherwise throws the fixed message |
| `Util.IsChildOf` | src/util.ts:11-23 | the loop answers true exactly when `ancestor` is on the parent chain of `child`; `isChildOf(c, c)` is true |
| `Util.ParentChainShape` | src/util.ts:11-23 | the parent chain starts at the element, each next element is the previous one's parent, and it ends at a root |
| `Util.ParentChainTransitive` | src/util.ts:11-23 | being a child of (on the parent chain of) is transitive |
| `Util.ParentChainAntisymmetric` | src/util.ts:11-23 | two elements that are each other's child are the same element |
| `Numerals.NumberOf` | src/components/DateInput.tsx:34-41 | `Number()` of a digit string is below 10 to the power of its length |
| `Numerals.NumberOfLeadingZero` | src/components/DateInput.tsx:34-35 | leading zeros do not change the number read (`03` is 3) |
| `Numerals.DecimalString` | src/components/DateInput.tsx:46 | `${n}` is digits only, at least one, without a leading zero |
| `Numerals.NumberOfDecimalString` | src/components/DateInput.tsx:46 | reading back the rendering of `n` gives `n` |
| `Form.Cell.constructor` | src/components/form.tsx:136 | a new cell holds `undefined` |
| `Form.Cell.Write` | src/components/Field.tsx:50 | `setValue(v)` makes the cell hold `v` |
| `Form.FormManager.constructor` | src/components/form.tsx:14-19 | a new manager has no cells and no submit handler |
| `Form.FormManager.SetOnSubmit` | src/components/form.tsx:152-154 | installing or removing the handler leaves the cells alone |
| `Form.FormManager.FieldValue` | src/components/form.tsx:132-140 | get-or-create: the first access adds one fresh cell holding `undefined` and touches no other name; later accesses return the same cell and change nothing |
| `Form.FormManager.Submit` | src/components/form.tsx:35-44 | without a handler nothing happens; with one, exactly one call whose snapshot has the store's names except `__proto__` (an assignment under that name on a plain object sets the prototype instead), each with its cell's current value, `undefined` included; nothing is modified |
| `Form.UseFormManager` | src/components/form.tsx:79-89 | outside a form it throws the not-inside-form error, inside one it returns the form's manager |
| `RawInput.Steps` | src/components/RawInput.tsx:31-48 | the composite runs one step per handler |
| `RawInput.StepsChain` | src/components/RawInput.tsx:33-41 | the last-declared handler sees the raw input; each earlier one gets the previous return value, `undefined` included |
| `RawInput.ComposedIsSteps` | src/components/RawInput.tsx:37-47 | the composite's diagnostics are every step's, concatenated in execution order, and its value is the first-declared handler's return (the input when the list is empty) |
| `RawInput.EveryHandlerRunsOnce` | src/components/RawInput.tsx:34-46 | every handler runs exactly once, in reverse order, whatever diagnostics came before |
| `RawInput.ComposedAppend` | src/components/RawInput.tsx:31-48 | composing `a + b` runs all of `b` first and then `a` on `b`'s value, diagnostics in that order |
| `RawInput.IdentityIsNeutral` | src/components/RawInput.tsx:25-27 | `identity` anywhere in the list changes neither the diagnostics nor the value |
| `RawInput.ComposeTwoIsComposed` | src/components/RawInput.tsx:29 | the typed two-handler overload agrees with the variadic composite |
| `RawInput.Drain` | src/components/RawInput.tsx:37-45 | draining a generator appends all its diagnostics in order and keeps its return value |
| `RawInput.ComposeHandlers` | src/components/RawInput.tsx:31-48 | the nested loops compute exactly the specified composite |
| `RawInput.PatternRunsFirst` | src/components/RawInput.tsx:66-76 | with a `regex`, exactly one fixed diagnostic comes first exactly when the text does not match, and the handler still runs on the text unchanged; without one the handler runs alone |
| `RawInput.OnInput` | src/components/RawInput.tsx:123-145 | `hasErrors` is whether anything was yielded; `onChange` gets Left of the errors, or Right of the value; no errors and `undefined` is an assertion failure; without `onChange` nothing is reported |
| `RawInput.GetCorners` | src/components/RawInput.tsx:152-181 | each corner bit is set exactly when neither adjacent side is; every bit above the four corners stays set |
| `Field.SimpleField.constructor` | src/components/Field.tsx:37-38 | a field starts with no errors and holds the store's cell for its name, fetched or created |
| `Field.SimpleField.OnChange` | src/components/Field.tsx:43-52 | the caller's `onChange` gets the result first and unchanged; the shown errors become a Left's diagnostics or nothing; only a Right is written, into this field's cell alone |
| `DateInput.ExecDateRegex` | src/components/DateInput.tsx:12 | a match gives groups of 1-2, 1-2 and 1-4 digits that spell the text |
| `DateInput.ExecDateRegexComplete` | src/components/DateInput.tsx:12 | every text of that form matches, with its own groups |
| `DateInput.MonthLength` | src/components/DateInput.tsx:14-16 | month lengths are 28-31, and February has 29 days exactly in a leap year |
| `DateInput.GetDaysInMonth` | src/components/DateInput.tsx:14-16 | `getDaysInMonth` is always between 28 and 31 |
| `DateInput.DaysInMonthOfRolledMonth` | src/components/DateInput.tsx:14-16 | it is the length of the month itself; out-of-range months roll into the adjacent year, and years 0-99 are read as 1900-1999 |
| `DateInput.YearLength` | src/components/DateInput.tsx:48 | the day count behind `new Date(year, month, day)` gives a year 366 days exactly when it is a leap year |
| `DateInput.MonthErrors` | src/components/DateInput.tsx:36-40 | one month diagnostic exactly when the month is outside 0-11 |
| `DateInput.DayErrors` | src/components/DateInput.tsx:43-47 | one day diagnostic exactly when the day is below 1 or past the month's length |
| `DateInput.MalformedDate` | src/components/DateInput.tsx:29-33 | a text not of the pattern's form gives exactly one diagnostic and no value |
| `DateInput.UndefinedIsNotADate` | src/components/DateInput.tsx:29-33 | `undefined`, read as the text "undefined", is not a date |
| `DateInput.WellFormedDate` | src/components/DateInput.tsx:34-41 | day is the first number, month the second minus one, year the third |
| `DateInput.FieldChecks` | src/components/DateInput.tsx:36-57 | month and day diagnostics each appear exactly when their check fails and do not stop the parse; a violated `past` adds its diagnostic and drops the value, otherwise a violated `future` does |
| `DateInput.FieldErrorCount` | src/components/DateInput.tsx:36-56 | the number of diagnostics is the number of checks failed |
| `DateInput.PastAndFutureByDay` | src/components/DateInput.tsx:48-56 | the date is compared at its midnight: `past` rejects a later day, and `future` rejects an earlier day and today once midnight has passed |
| `DateInput.ExampleValidDate` | src/components/DateInput.tsx:34-57 | `19/03/2025` gives `[2025, 2, 19]` without diagnostics |
| `DateInput.ExampleLeapFebruary` | src/components/DateInput.tsx:42-47 | `31/02/2024` is flagged against 29 days, with the message "Dag mag niet groter dan 29 zijn.", and still returns a value |
| `TimeInput.ExecTimeRegex` | src/components/TimeInput.tsx:13 | a match gives two groups of exactly two digits that spell the text |
| `TimeInput.ExecTimeRegexComplete` | src/components/TimeInput.tsx:13 | every text of that form matches, with its own groups |
| `TimeInput.TimeFields` | src/components/TimeInput.tsx:32-38 | at most one of the two temporal diagnostics, and a value exactly when there is none |
| `TimeInput.HandleTime` | src/components/TimeInput.tsx:23-39 | each call yields at most one diagnostic, and returns a value exactly when it yields none |
| `TimeInput.MalformedTime` | src/components/TimeInput.tsx:24-28 | text other than two digits, `:`, two digits gives exactly one diagnostic and no value |
| `TimeInput.WellFormedTime` | src/components/TimeInput.tsx:29-30 | hours and minutes are the numbers of the two groups |
| `TimeInput.TimeChecks` | src/components/TimeInput.tsx:32-37 | the past diagnostic appears exactly when `past` is set and the time is before now; the future one exactly when that did not fire, `future` is set and the time is after now |
| `TimeInput.NoRangeCheck` | src/components/TimeInput.tsx:29-38 | with neither flag, every well-formed text is accepted as it reads |
| `TimeInput.ExampleTimes` | src/components/TimeInput.tsx:29-38 | `12:30`, `24:00` and `99:99` give `[12,30]`, `[24,0]` and `[99,99]` |
| `TimeInput.TimeDirectionReversed` | src/components/TimeInput.tsx:32-35 | as written, a past time is refused with "must be in the past" and a future time with "must be in the future" |
| `TimeInput.IntendedTimeFields` | src/components/TimeInput.tsx:32-37 | corrected checks: no diagnostic, or exactly one temporal diagnostic; an accepted time is not after now under `past` and not before now under `future` |
| `TimeInput.IntendedHandleTime` | src/components/TimeInput.tsx:23-39 | `handleTime` with the corrected checks: at most one diagnostic, a value exactly when there is none, the format diagnostic for a malformed text, and an accepted time on the right side of now |
| `TimeInput.IntendedDirection` | src/components/TimeInput.tsx:32-35 | the corrected checks accept the past time and refuse the future one under `past` |
| `DateTimeInput.LeftHalvesConcatenate` | src/components/DateTimeInput.tsx:43-51 | if either half is Left, the result is Left with the date diagnostics followed by the time diagnostics |
| `DateTimeInput.UnfilledHalfGivesEmptyLeft` | src/components/DateTimeInput.tsx:32-33 | whichever half still holds its initial `Left([])`, while the other has no diagnostic, the result is a Left with no diagnostic, which shows no errors |
| `DateTimeInput.BothHalvesRight` | src/components/DateTimeInput.tsx:52-77 | with both halves Right: the diagnostics are the future check's (first), then the past check's, then all of the handler's (drained even after a temporal one), and nothing else; Right of the handler's return exactly when there are none |
| `DateTimeInput.IdentityReturnsStamp` | src/components/DateTimeInput.tsx:20-26 | with the default handler, no temporal error gives back the built date and time |
| `DateTimeInput.DateTimeInput.constructor` | src/components/DateTimeInput.tsx:32-35 | both refs start as `Left([])` and no errors are shown |
| `DateTimeInput.DateTimeInput.Update` | src/components/DateTimeInput.tsx:40-82 | `update()` computes the specified merge, sets `hasErrors` to whether it has diagnostics, and calls `onChange` once if present |
| `DateTimeInput.DateTimeInput.OnDateChange` | src/components/DateTimeInput.tsx:92-95 | a date change overwrites only the date ref, then updates |
| `DateTimeInput.DateTimeInput.OnTimeChange` | src/components/DateTimeInput.tsx:99-102 | a time change overwrites only the time ref, then updates |
| `DateTimeInput.FirstDateChange` | src/components/DateTimeInput.tsx:32-51 | on a fresh input, a valid date alone reports `Left([])` and shows no errors |
| `PhoneInput.MatchesPhone` | src/components/PhoneInput.tsx:3 | every accepted phone text has 8 to 12 characters |
| `PhoneInput.MatchesPhoneIsPattern` | src/components/PhoneInput.tsx:3 | the recognizer accepts exactly `+32` and a subscriber part, or a subscriber part with or without a leading `0` |
| `PhoneInput.CallerRegexDiscarded` | src/components/PhoneInput.tsx:7-14 | whatever `regex` the caller passes, the phone pattern alone decides the pattern diagnostic |
| `PhoneInput.ExamplePhones` | src/components/PhoneInput.tsx:3-14 | `0499123456` is reported as Right of itself, `abc` as Left with exactly one diagnostic |
| `AutoCompleteInput.Getter` | src/components/AutoCompleteInput.tsx:24-32 | a string becomes a property lookup, a function is returned unchanged, anything else throws |
| `AutoCompleteInput.ArrowKeysStayInRange` | src/components/AutoCompleteInput.tsx:131-138 | with a non-empty list both keys keep the index in `null` or `[0, len)` |
| `AutoCompleteInput.ArrowKeysUndo` | src/components/AutoCompleteInput.tsx:131-138 | with a non-empty list, ArrowUp undoes ArrowDown and ArrowDown undoes ArrowUp |
| `AutoCompleteInput.ArrowKeysOnEmptyList` | src/components/AutoCompleteInput.tsx:127-138 | an empty list passes the guard, and the keys move the index out of range |
| `AutoCompleteInput.DownPressesWalk` | src/components/AutoCompleteInput.tsx:131-134 | from no index, the k-th ArrowDown highlights suggestion k - 1 |
| `AutoCompleteInput.DownPressesCycle` | src/components/AutoCompleteInput.tsx:131-134 | `len + 1` ArrowDown presses from no index come back to no index |
| `AutoCompleteInput.FirstMatch` | src/components/AutoCompleteInput.tsx:73 | the position found is the first whose key is the selection; none found means no key is |
| `AutoCompleteInput.Selected` | src/components/AutoCompleteInput.tsx:73 | `selected` is a suggestion whose key is the selection, absent exactly when no suggestion has it |
| `AutoCompleteInput.SelectingFindsSelected` | src/components/AutoCompleteInput.tsx:73-108 | after selecting a listed suggestion, `selected` is a suggestion with that key |
| `AutoCompleteInput.ClearedSelectsNothing` | src/components/AutoCompleteInput.tsx:73-91 | after `clear`, nothing is selected |
| `AutoCompleteInput.AutoCompleteInput.constructor` | src/components/AutoCompleteInput.tsx:51-68 | nothing selected, popup closed, no index, no suggestions; the first keydown listener sees the popup closed |
| `AutoCompleteInput.AutoCompleteInput.Select` | src/components/AutoCompleteInput.tsx:102-108 | `select` reports Right of the item and keeps its key as the selection |
| `AutoCompleteInput.AutoCompleteInput.Clear` | src/components/AutoCompleteInput.tsx:85-100 | `clear` reports Right of `null` and drops the selection |
| `AutoCompleteInput.AutoCompleteInput.KeyDown` | src/components/AutoCompleteInput.tsx:110-146 | the guard reads the `open` the listener captured, not the current one (the listener is memoised on `suggestions` and `index`); when it fails, or there is no list, nothing changes; arrows move the index as specified and register a listener with the current `open`; Enter with an index in range selects that suggestion, Enter without an index does nothing |
| `AutoCompleteInput.AutoCompleteInput.Hover` | src/components/AutoCompleteInput.tsx:233 | hovering a suggestion highlights it; only a change of index registers a listener with the current `open` |
| `AutoCompleteInput.AutoCompleteInput.ClickSuggestion` | src/components/AutoCompleteInput.tsx:235 | clicking a suggestion selects it |
| `AutoCompleteInput.AutoCompleteInput.Focus` | src/components/AutoCompleteInput.tsx:177-184 | the caller's `onFocus` runs, and unless it prevents the default the popup opens |
| `AutoCompleteInput.AutoCompleteInput.MouseDown` | src/components/AutoCompleteInput.tsx:149-157 | a mouse press records its target |
| `AutoCompleteInput.AutoCompleteInput.Blur` | src/components/AutoCompleteInput.tsx:185-197 | a blur from a press inside the popup is swallowed and forgets the press; otherwise the caller's `onBlur` runs and unless it prevents the default the popup closes |
| `AutoCompleteInput.AutoCompleteInput.QueryChange` | src/components/AutoCompleteInput.tsx:198-212 | a Left is ignored; loading starts, and only an answer ends it and replaces the suggestions, registering a listener with the current `open`; a failing query leaves it loading |
| `AutoCompleteInput.StaleIndexScenario` | src/components/AutoCompleteInput.tsx:126-146 | a highlighted position survives a shorter answer, and Enter then picks a position the list does not have |
| `AutoCompleteInput.EnterAfterCloseScenario` | src/components/AutoCompleteInput.tsx:126-146 | after an ArrowDown, a blur closes the popup, yet Enter still selects the highlighted suggestion, because the listener kept the old `open` |
| `AutoCompleteInput.ArrowsAfterOpenScenario` | src/components/AutoCompleteInput.tsx:126-146 | an answer that arrives while the popup is closed leaves a listener that ignores ArrowDown after the popup opens |
| `AutoCompleteInput.Fill` | src/components/AutoCompleteInput.tsx:248-254 | `fill(f, n)` has length `n` (0 for n ≤ 0), and its i-th element is `f(i)` |

## Left out

- Rendering is not modelled: class names, icons, labels, the date picker, the skeleton cards and the popup markup.
- React state updates are synchronous field writes. Each event is followed by one render, and batching is not modelled. The only effect of a render that is modelled is which keydown listener is registered (`listenerOpen`).
- `Form.FormManager.Submit`: when a cell's value is an object or `null`, the `__proto__` assignment also replaces the snapshot's prototype, so the handler could read inherited properties. Only own keys are modelled.
- The rxjs `BehaviorSubject` behind each cell is a plain mutable slot, so subscriptions and notifications are not modelled.
- The clock is a parameter. The day numbering of `Date` is proleptic Gregorian local time without time zones or daylight saving, and `Date`'s range limit is not modelled.
- Regular expressions are not interpreted: the date, time and phone patterns are hand-written recognizers, and RawInput's `regex` prop is any string predicate.
- The query of the autocomplete input is not asynchronous here: its outcome is passed in. Overlapping queries and stale answers are not modelled.
- The DOM is not modelled: scrolling into view, the `setTimeout` focus in `clear`, and adding and removing window listeners. Elements are numbers in document order, so the parent relation is acyclic.
- `RawInput.ComposeHandlers`: the variadic `composeHandlers` is modelled over handlers of one value type. The typed two-handler overload is `ComposeTwo`.
- `AutoCompleteInput.AutoCompleteInput.KeyDown`: Enter on a position the list does not have calls `select(undefined)`. Its report and the key lookup of `undefined` are not modelled; the outcome is `PickedUndefined` and the state is unchanged.
- `AutoCompleteInput.Selected`: keys are never `null`. A suggestion whose key is `null` would match the `null` selection in the source.
- `AutoCompleteInput.Getter`: the property lookup `value[key]` is a parameter.
- `selectIndex` is part of `KeyDown`'s Enter branch, its only caller. There its list check always passes.
- `DateTimeInput.DateTimeInput.Update`: comparing the built `Date` with the current minute is two boolean parameters, `isBeforeNow` and `isAfterNow`.
- `DateTimeInput.IdentityReturnsStamp`: the handler receives a `Stamp` holding the two halves' raw fields. The source passes a `Date` that `new Date(year, month, day, hour, minute)` normalises, so a time of `24:00` is midnight of the next day there. That normalisation is not modelled.
- `XTime` has no seconds field, because no input sets the seconds.
- Numbers are unbounded integers. The parsed numbers have at most four digits, so JavaScript's doubles represent them exactly. `Fill` with a non-integer count is not modelled.
- The `preventDefault` calls on key, focus, blur and submit events are not modelled beyond the `Navigated` outcome and the open/closed state.
- Not modelled: the one-line wrappers `DateField`, `DateTimeField` and `AutoCompleteField`, the unused `errors` map of `FormManager`, the stub `useHasErrors`, `FormErrorBoundary`/`useSetErrors`, and commented-out code.

## Findings

| source | as written | input that shows it | evidently intended | confidence | as-written member | corrected member |
|---|---|---|---|---|---|---|
| src/components/TimeInput.tsx:32-35 | with `past` set, a time before now gets "Het tijdstip moet in het verleden liggen."; with `future` set, a time after now gets "Het tijdstip moet in de toekomst liggen." | at 12:00 with `past` set, `08:00` is refused and `18:00` accepted; with `future` set, `18:00` is refused | `past` refuses times after now and `future` refuses times before now, as `DateInput` and `DateTimeInput` do | high; not executed | `TimeInput.TimeDirectionReversed` | `TimeInput.IntendedHandleTime` |

`TimeInput.TimeHandler` keeps the behaviour as written because it models the
component as it is. No other part of the model uses a time handler, since
`DateTimeInput` takes the halves' results as inputs.
