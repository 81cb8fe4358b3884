# Habit tracker client logic, verified in Dafny

This project models the sequential logic of the habit-tracking app's mobile
and web front-ends. It covers:

- The per-day completion toggle. Its one rule is shared by both day screens:
  filter the habit id out of `completedHabits` if it is there, append it if
  it is not.
- The day screens' state. The mobile Habit screen holds `isLoading`,
  `dayInfo` and `completedHabits`. The web habits list holds `habitsInfo`.
- The mutability gate. A date is past when the end of its calendar day is
  before now. Every checkbox of a past date is disabled.
- The new-habit form: a weekday-index toggle over 0..6, the validation guard
  (a trimmed title that is not empty, and at least one weekday), and the
  reset after a successful post.
- The heat-map cell of the summary calendar: its completion percentage, its
  six colour bands, and the current-day mark.

Instants are integer epoch milliseconds. Every day is 86 400 000 ms long and
time zones are ignored. `startOf("day")` rounds down to a multiple of the day
length, and `endOf("day")` is that start plus 86 399 999.

Each remote call is a parameter of the handler that issues it:
`Outcome` (`Success | Failure`) for `PATCH` and `POST`, and `FetchOutcome`
(a well-formed `DayInfo`, or a failure) for `GET day`.
`generateProgressPercentage` is not part of this model. It is the function
parameter `progress`, and nothing is assumed about it.

Files: `Api.dfy` (the API's data shapes), `Membership.dfy` (the shared
toggle), `Calendar.dfy` (day arithmetic), `Checklist.dfy` (the checkbox list
both day screens render), `JsString.dfy` (`String.prototype.trim`),
`HabitDay.dfy`, `HabitScreen.dfy`, `NewScreen.dfy` and `HabitsList.dfy` (one
module per source component).

The toggle is not optimistic. In both handlers (`mobile/src/screens/Habit.tsx`
lines 58-65, `web/src/components/HabitsList.tsx` lines 40-57) the local state
changes only after the awaited `api.patch` has resolved, and a rejected
request leaves it unchanged.

## Model

| member | source | states |
|---|---|---|
| `Membership.Remove` | mobile/src/screens/Habit.tsx:62 | the filtered list holds exactly the elements other than the id, each with its multiplicity; a list without the id is returned unchanged |
| `Membership.Toggle` | mobile/src/screens/Habit.tsx:61-65 | the id is in the result iff it was not in the input; every other element keeps its membership; a present id is filtered out, an absent one appended at the end |
| `Membership.RemoveAppend` | web/src/components/HabitsList.tsx:47 | filtering distributes over concatenation, so kept elements keep their relative order |
| `Membership.RemoveIdempotent` | mobile/src/screens/Habit.tsx:62 | filtering twice by the same id equals filtering once |
| `Membership.RemoveNoDuplicates` | web/src/components/HabitsList.tsx:47 | filtering keeps a duplicate-free list duplicate-free |
| `Membership.RemoveLength` | web/src/components/HabitsList.tsx:47 | on a duplicate-free list, filtering drops exactly one element when the id is present and none otherwise |
| `Membership.ToggleOthersUnchanged` | mobile/src/screens/Habit.tsx:62-64 | deleting the id from the list before and after a toggle gives the same list: every other id keeps membership, multiplicity and relative order |
| `Membership.ToggleNoDuplicates` | mobile/src/screens/Habit.tsx:61-64 | a toggle keeps a duplicate-free list duplicate-free |
| `Membership.ToggleAllIn` | mobile/src/screens/New.tsx:69-74 | toggling an element of a set keeps a list that lies within the set inside it |
| `Membership.ToggleLength` | web/src/components/HabitsList.tsx:46-50 | on a duplicate-free list a toggle changes the length by exactly -1 (id present) or +1 (id absent) |
| `Membership.ToggleTwiceMembership` | mobile/src/screens/Habit.tsx:61-65 | two toggles of the same id restore every element's membership |
| `Membership.ToggleTwiceAbsent` | mobile/src/screens/Habit.tsx:61-65 | two toggles of an absent id restore the list exactly |
| `Membership.ToggleTwicePresent` | mobile/src/screens/Habit.tsx:61-65 | two toggles of a present id move it to the end; on a duplicate-free list the multiset is restored |
| `Calendar.StartOfDay` | mobile/src/components/HabitDay.tsx:23 | the start of the day is a multiple of the day length, at or before the instant and less than one day before it |
| `Calendar.EndOfDay` | mobile/src/screens/Habit.tsx:35 | the end of the day is its start plus 86 399 999, at or after the instant and on the same day |
| `Calendar.StartOfDayGreatest` | mobile/src/components/HabitDay.tsx:23 | the start of the day is the largest multiple of the day length at or before the instant |
| `Calendar.DayNumberUnique` | mobile/src/components/HabitDay.tsx:23 | a multiple of the day length less than one day before an instant is that instant's day start |
| `Calendar.PastIffEarlierDay` | mobile/src/screens/Habit.tsx:35 | a date is past iff its calendar day is strictly before the calendar day of now |
| `Calendar.TodayIsNotPast` | web/src/components/HabitsList.tsx:60 | a date on the same day as now is never past, whatever the time of day |
| `Calendar.EarlierDayIsPast` | mobile/src/screens/Habit.tsx:35 | any instant before the start of now's day is past |
| `Calendar.PastIsPermanent` | web/src/components/HabitsList.tsx:60 | a past date stays past at every later now |
| `Calendar.IsSameDay` | mobile/src/components/HabitDay.tsx:24 | `isSame(today, "day")`: two instants share a day start; no contract of its own, `StartOfDaySameDay` and `HabitDay` characterise its use |
| `Calendar.IsDateInPast` | mobile/src/screens/Habit.tsx:35 | `isDateInPast`, the end of the date's day before now; no contract of its own, `PastIffEarlierDay`, `TodayIsNotPast` and `PastIsPermanent` characterise it (also `HabitsList.tsx:60`) |
| `Calendar.StartOfDaySameDay` | mobile/src/components/HabitDay.tsx:23-24 | the start of today lies on today, so comparing with it is comparing with now's day |
| `Checklist.Checkboxes` | mobile/src/screens/Habit.tsx:97-106 | one checkbox per possible habit, in order, keyed and titled by it, checked iff its id is completed, disabled iff the date is past |
| `Checklist.AllDisabledIffPast` | web/src/components/HabitsList.tsx:64-72 | for a non-empty day, all checkboxes are disabled iff the date is past |
| `JsString.LeadingBlanks` | mobile/src/screens/New.tsx:33 | counts the leading whitespace: every character before the count is whitespace, and the next one, if any, is not |
| `JsString.TrailingBlanks` | mobile/src/screens/New.tsx:33 | counts the trailing whitespace: every character in the last count positions is whitespace, and the one before them, if any, is not |
| `JsString.Trim` | mobile/src/screens/New.tsx:33 | the trimmed string neither starts nor ends with whitespace |
| `JsString.TrimIsSlice` | mobile/src/screens/New.tsx:33 | the trimmed string is the slice of the title after its leading whitespace, and every character outside it is whitespace |
| `JsString.TrimEmptyIffBlank` | mobile/src/screens/New.tsx:33 | a title trims to "" iff every character is whitespace |
| `MobileHabitDay.Holds` | mobile/src/components/HabitDay.tsx:31-36 | the six class conditions of the cell, one per band; no contract of its own, `Classify` and `BandsPartition` characterise it |
| `MobileHabitDay.Classify` | mobile/src/components/HabitDay.tsx:31-36 | a band exists iff the percentage is non-negative, and a band's class condition holds iff it is the band returned |
| `MobileHabitDay.BandsPartition` | mobile/src/components/HabitDay.tsx:31-36 | for every percentage >= 0 exactly one band condition holds |
| `MobileHabitDay.BoundariesGoUp` | mobile/src/components/HabitDay.tsx:32-36 | 20, 40, 60 and 80 fall in the higher band; every value >= 80, above 100 too, falls in the top band |
| `MobileHabitDay.ClassifyMonotone` | mobile/src/components/HabitDay.tsx:31-36 | the band rank never decreases as the percentage grows |
| `MobileHabitDay.CompletedPercentage` | mobile/src/components/HabitDay.tsx:21-22 | the percentage is 0 when the habit count is not positive, and the day's progress otherwise |
| `MobileHabitDay.OrZero` | mobile/src/components/HabitDay.tsx:20 | an omitted count is 0, a given one is itself |
| `MobileHabitDay.HabitDay` | mobile/src/components/HabitDay.tsx:20-38 | the cell's percentage uses the defaulted counts, its band is the classified percentage, and it is marked current iff its date is on now's day |
| `MobileHabitDay.NoCountIsEmptyDay` | mobile/src/components/HabitDay.tsx:20-22 | a cell without a habit count is in the empty (zinc) band |
| `MobileHabitDay.CurrentDayIndependentOfBand` | mobile/src/components/HabitDay.tsx:23-24 | the current-day mark depends only on the date and now, not on the counts |
| `MobileHabitScreen.HabitScreen.constructor` | mobile/src/screens/Habit.tsx:28-30 | a new screen is loading, with no day info and no completed ids |
| `MobileHabitScreen.HabitScreen.FetchHabits` | mobile/src/screens/Habit.tsx:43-55 | loading is over on both outcomes; on success the day info and the completed ids are the response's; on failure both are unchanged |
| `MobileHabitScreen.HabitScreen.ToggleHabit` | mobile/src/screens/Habit.tsx:57-70 | after a successful patch the completed ids are toggled, after a failed one unchanged; a consistent state stays consistent when the id is one of the day's possible habits; on a duplicate-free list the count moves by exactly one |
| `MobileHabitScreen.HabitScreen.PressCheckbox` | mobile/src/screens/Habit.tsx:99-105 | a press on a checkbox drawn by a render at which the date was past changes nothing; otherwise a successful patch toggles that habit's id and a failed one changes nothing; a consistent state stays consistent |
| `MobileHabitScreen.HabitScreen.HabitProgress` | mobile/src/screens/Habit.tsx:39-41 | progress is 0 with no day info or no possible habits, and otherwise that of the completed count over the possible count |
| `MobileHabitScreen.HabitScreen.DayViewOf` | mobile/src/screens/Habit.tsx:90-116 | a loaded day shows its progress, the past notice iff past, dimming iff past and the day has habits, the empty-day notice iff it has none, and one checkbox per possible habit, keyed and titled by it, checked iff completed and disabled iff past |
| `MobileHabitScreen.HabitScreen.RenderAsWritten` | mobile/src/screens/Habit.tsx:76-110 | loading shows the loading view, and a finished load without day info crashes |
| `MobileHabitScreen.HabitScreen.Render` | mobile/src/screens/Habit.tsx:76-116 | never crashes; once loaded it shows the progress, the past notice iff past, dimming iff past and the day has habits, and every checkbox keyed and titled by its habit, checked iff completed and disabled iff past |
| `MobileHabitScreen.RenderAgrees` | mobile/src/screens/Habit.tsx:76-116 | on every state where the component's render does not crash, the corrected render is identical to it |
| `MobileHabitScreen.FailedFirstLoadAsWritten` | mobile/src/screens/Habit.tsx:94-97 | a first load that fails is followed by a render that crashes |
| `MobileHabitScreen.FailedFirstLoad` | mobile/src/screens/Habit.tsx:49-54 | with the corrected render, a first load that fails ends in the failed-load view |
| `MobileNewScreen.WeekDayIndices` | mobile/src/screens/New.tsx:9-17 | the weekday indices are exactly the positions 0..6 of the weekday labels |
| `MobileNewScreen.ToggleKeepsWeekDaysValid` | mobile/src/screens/New.tsx:69-74 | toggling an index in 0..6 keeps the selection a duplicate-free subset of 0..6 |
| `MobileNewScreen.ToggleWeekDayTwice` | mobile/src/screens/New.tsx:24-27 | toggling a weekday twice restores the multiset, and so the weekdays, of a valid (duplicate-free, within 0..6) selection |
| `MobileNewScreen.CanCreate` | mobile/src/screens/New.tsx:33 | the guard of `handleCreateNewHabit`; no contract of its own, `CanCreateIff` characterises it |
| `MobileNewScreen.CanCreateIff` | mobile/src/screens/New.tsx:33 | the form may be posted iff the title has a non-whitespace character and a weekday is selected |
| `MobileNewScreen.NewHabitScreen.constructor` | mobile/src/screens/New.tsx:20-21 | a new form has an empty title and no weekdays |
| `MobileNewScreen.NewHabitScreen.SetTitle` | mobile/src/screens/New.tsx:60-62 | typing replaces the title |
| `MobileNewScreen.NewHabitScreen.ToggleWeekDay` | mobile/src/screens/New.tsx:23-29 | the selection is toggled by the index; with an index in 0..6 a valid selection stays valid |
| `MobileNewScreen.NewHabitScreen.WeekDayChecks` | mobile/src/screens/New.tsx:69-76 | seven checkboxes, the i-th checked iff i is selected |
| `MobileNewScreen.NewHabitScreen.CreateNewHabit` | mobile/src/screens/New.tsx:31-47 | an invalid form sends nothing and keeps its fields; a valid one sends its title and weekdays, then clears both on success and keeps both on failure |
| `MobileNewScreen.BlankTitleRejected` | mobile/src/screens/New.tsx:33 | every whitespace-only title fails the guard, with every weekday selection |
| `MobileNewScreen.BlankTitleSendsNothing` | mobile/src/screens/New.tsx:33-35 | confirming any form whose title is whitespace only issues no request, shows the missing-fields alert and leaves the form unchanged, whatever its weekdays and the server's answer |
| `WebHabitsList.HabitsList.constructor` | web/src/components/HabitsList.tsx:25 | a new list has no habits info |
| `WebHabitsList.HabitsList.Load` | web/src/components/HabitsList.tsx:27-37 | a response becomes the habits info; a rejected request leaves the list unloaded |
| `WebHabitsList.HabitsList.ToggleHabit` | web/src/components/HabitsList.tsx:39-58 | a failed patch changes nothing and reports nothing; a successful one toggles the completed ids, keeps the possible habits, and reports exactly the new completed count; on a duplicate-free list that count moves by exactly one |
| `WebHabitsList.HabitsList.Render` | web/src/components/HabitsList.tsx:60-83 | no checkboxes before loading; then one per possible habit, keyed and titled by it, checked iff completed, disabled iff the date is past |
| `WebHabitsList.HabitsList.PressCheckbox` | web/src/components/HabitsList.tsx:66-70 | a change on a checkbox drawn by a render at which the date was past changes and reports nothing; otherwise a successful patch toggles that habit and reports the new count |

## Left out

- Network transport: axios, its base address and the request paths. Each call is an outcome parameter, and `GET day` always returns a well-formed snapshot when it succeeds.
- `generateProgressPercentage` (its file is not part of this model). It is the uninterpreted parameter `progress`, so its rounding and its range are not modelled.
- dayjs formatting (`"dddd"`, `"DD/MM"`), locales and time zones. Days are fixed-length spans of epoch milliseconds.
- The floating-point layout constants and the screen width of `HabitDay.tsx` (lines 13-18), the `clsx` base classes, and all styling.
- `Checkbox.tsx` and `HabitsEmpty.tsx`, which only render. The empty-day component appears only as the `showsEmpty` flag.
- `Alert.alert` messages, `console.error`, navigation and the React lifecycle. Alerts are the `Alert` values of the form. The mount effects are the `FetchHabits` and `Load` methods.
- Asynchrony. Each handler is one atomic step, so concurrent toggles are not modelled. The difference between the closure's `completedHabits` and `prevState` (`Habit.tsx:61-64`) disappears in this sequential model.
- JavaScript strings are sequences of UTF-16 code units, while a Dafny `string` holds Unicode scalar values. A title with a lone surrogate cannot be represented. The trim is unaffected, because every whitespace character is in the Basic Multilingual Plane.
- JavaScript numbers are floating point. Weekday indices, counts and instants are unbounded integers, which agree with them for the values the app handles.
- The web `Load` has no rejection handler. A failed load is just "state unchanged", and the unhandled rejection is not modelled.
- The web `handleToggleHabit` (`HabitsList.tsx:39-58`) has no try/catch either, so a rejected patch is an unhandled rejection too. The model shows it only as "nothing after the await runs".
- MobileHabitScreen.HabitScreen.PressCheckbox, WebHabitsList.HabitsList.PressCheckbox: both gate on the clock of the render that drew the checkbox (`renderedAt`), not the clock at the press. `disabled` is fixed at each render (`Habit.tsx:35`, `HabitsList.tsx:60`), and nothing re-renders when the day ends. So a checkbox drawn before midnight and pressed after it still toggles a date that is past by then. The model does not promise that a date past at the press never changes.

## Findings

| source | as written | input that shows it | evidently intended | confidence | as-written member | corrected member |
|---|---|---|---|---|---|---|
| mobile/src/screens/Habit.tsx:94-97 | when `fetchHabits` fails, `finally` still ends loading, and the render then reads `dayInfo!.possibleHabits` while `dayInfo` is still null, which throws a TypeError | a first `GET day` that rejects (a network error) | after a failed load the screen shows a failed-load view and does not crash | high; not executed | `MobileHabitScreen.FailedFirstLoadAsWritten` | `MobileHabitScreen.FailedFirstLoad` |
