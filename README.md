# Habit tracker state engine, in Dafny

This project models the state engine of a personal habit tracker, plus the
small pure pieces around it. The tracker keeps one record per calendar day,
holding the day's habit tasks, focus minutes and water intake. Ticking tasks
earns experience points (ten per task) that set a level (one per 500 points),
and the app shows a streak of consecutive active days.

The engine exists in two generations, and both are modelled.

- **Newer store** (`lib/store.ts`, module `LibStore`):
  - merges a saved blob over hard-coded defaults;
  - saves only after the load step has run;
  - clamps xp at zero before deriving the level.
- **Older store** (`store.ts`, module `LegacyStore`):
  - takes a parsed blob wholesale;
  - saves after every change;
  - derives the level from the unclamped sum (see Findings).

Both stores are classes with `history`, `identity` and `activeTab` fields. Each
setter is specified by a pure state-transition function. The effect of writing
to storage is a ghost field `persisted`: the last snapshot written. The streak
walk is a `while` loop proved equal to a recursive specification. That
specification is in turn characterised as "the longest run of consecutive
completed days ending at the start day".

The other modules:
- `Domain`: the shared records: tasks, day records and identity profile, plus
  the shallow identity merge.
- `LibTypes` and `LegacyTypes`: the two task templates and the shape the
  engine relies on.
- `Progress`: the two xp/level derivations.
- `Streak`: the streak specification.
- `Dashboard`: the day updaters the dashboards pass to `updateToday`: task
  toggle and water. It also covers the completion percentage and the
  per-category sections.
- `DayUpdates`: what those updaters do to each store's xp.
- `IdentityEditor`: the identity editor's append and remove-by-index list
  edits.
- `ClockFormat`: the `mm:ss` formatter and its read-back.
- `FocusTimer`: the 25-minute focus timer, as a class stepped one second at a
  time.

Dates are integer day numbers, and "today" is always an explicit parameter.

A completed focus session adds 25 minutes to the day. The focus screens show
`sessions * 25` as a reward, which the older screen labels as XP gained.
However, focus minutes never reach `xp`: `DayUpdates.LegacyWaterAndFocusEarnNothing`
proves that a completed session leaves the identity unchanged. The model keeps
this as written.

## Model

| member | source | states |
|---|---|---|
| Domain.MergeIdentity | lib/store.ts:89-91 | every field the patch supplies is overwritten and every absent one keeps its value (the same merge is store.ts:108-110) |
| Domain.CompletedCount | lib/store.ts:74 | the count of completed tasks is at most the list length; it is 0 exactly when none is completed and equals the length exactly when all are |
| Domain.XpGain | lib/store.ts:74-80 | the gain is a multiple of ten, bounded by ten times the list lengths, positive exactly when the completed count rose and negative exactly when it fell, and never negative from an all-incomplete day (the same product is store.ts:83-85) |
| Domain.DayFor | lib/store.ts:44-52 | a stored day is returned as is; otherwise a fresh record for that date with the template tasks, zero focus minutes and zero water, and a count of zero when the template is all incomplete |
| LibTypes.InitialTasksShape | lib/types.ts:37-45 | the template has 7 entries, all incomplete, all in Body, Mind or Deen, every one of those three categories used, and none carrying a kind, value or target |
| LibTypes.InitialTasksUniqueIds | lib/types.ts:37-45 | template ids are pairwise distinct |
| LegacyTypes.InitialTasksShape | types.ts:43-60 | the template has 13 entries, all incomplete, only Body, Mind and Deen; the one scale task is `khushu` with value 5 and target 10, and every other task is boolean with no value or target |
| LegacyTypes.InitialTasksUniqueIds | types.ts:43-60 | template ids are pairwise distinct |
| Progress.LevelOf | lib/store.ts:81 | the level is the 500-point band holding the xp, `(l-1)*500 <= xp < l*500`, and at least 1 for non-negative xp |
| Progress.Award | lib/store.ts:80-81 | xp becomes `max(0, xp + gain)`, the level is the band of that clamped xp (so at least 1), and vision and lists are kept |
| Progress.LegacyAward | store.ts:88-96 | xp becomes `max(0, xp + gain)` but the level is the band of the unclamped sum; other fields are kept |
| Progress.LegacyAgreesWhenNonNegative | store.ts:88-96 | both derivations agree whenever the sum is not negative |
| Progress.LegacyLevelDropsToZero | store.ts:88-96 | from xp 0, losing one task's ten points stores xp 0 with level 0, breaking the level invariant, where the newer derivation gives level 1 |
| Streak.RunFrom | lib/store.ts:57-68 | the number of consecutive completed days ending at a day never exceeds the number of stored days up to it |
| Streak.RunFromCharacterised | lib/store.ts:57-68 | the run is `n` exactly when the `n` days ending at the day are all completed and the day before them is not |
| Streak.StreakCharacterised | lib/store.ts:54-70 | the streak is the maximal completed run ending today, or ending yesterday when today has no completion yet |
| Streak.StreakAtMostHistory | lib/store.ts:57-67 | the streak never exceeds the number of stored days |
| Streak.StreakOfEmptyHistory | store.ts:49-50 | with no stored days the streak is 0, so the older store's early return agrees with the walk |
| LibStore.DefaultIdentity | lib/store.ts:14-21 | the default profile starts at xp 0 and level 1, consistent with the level rule |
| LibStore.LoadMerge | lib/store.ts:24-34 | a parsed blob's present top-level fields replace the defaults and absent ones keep them; a missing blob keeps the state, and so does unparseable text, as the `catch` intends (see Findings) |
| LibStore.LoadAsWritten | lib/store.ts:27-31 | as written, unparseable text commits nothing of the load, and every other input commits exactly the intended merge |
| LibStore.UnparseableBlobAbortsLoad | lib/store.ts:27-31 | on unparseable text the load as written commits nothing, while the intended load keeps the state |
| LibStore.CurrentDay | lib/store.ts:44-52 | today's stored record, else a fresh all-incomplete template record with zero accumulators dated today |
| LibStore.UpdateTodayState | lib/store.ts:72-85 | today's record becomes the updater's result and no other date changes; the tab is kept; the identity moves by ten xp per net newly completed task, clamped, with a consistent level |
| LibStore.ReadBackAfterUpdate | lib/store.ts:83 | reading today after an update gives the updater's result |
| LibStore.AppStore.constructor | lib/store.ts:10-22 | the store starts at the defaults, not loaded, with nothing written |
| LibStore.AppStore.Save | lib/store.ts:36-40 | the whole state is written only once loaded; before that nothing is |
| LibStore.AppStore.Load | lib/store.ts:24-34 | run once, before the store is loaded: the state becomes the merge of the blob over the current state, the store is loaded and the merged state is written; for unparseable text this is the intended behaviour of the `catch` (see Findings) |
| LibStore.AppStore.TryLoad | lib/store.ts:24-34 | as written: it fails exactly on unparseable text, and then the state, the loaded flag and storage are all unchanged; otherwise it is `Load` |
| LibStore.AppStore.UpdateToday | lib/store.ts:72-85 | the new state is `UpdateTodayState` of the old one and is written when loaded |
| LibStore.AppStore.SetTab | lib/store.ts:87 | only the tab changes, and the state is written when loaded |
| LibStore.AppStore.UpdateIdentity | lib/store.ts:89-91 | only the identity changes, to the merge of the patch, and the state is written when loaded |
| LibStore.AppStore.Streak | lib/store.ts:54-70 | the backwards walk returns exactly the specified streak |
| LegacyStore.DefaultIdentity | store.ts:22-29 | the default profile starts at xp 0 and level 1 |
| LegacyStore.Initial | store.ts:10-31 | a parsed blob becomes the whole state; otherwise empty history, the dashboard tab and the hard-coded default profile (xp 0, level 1) |
| LegacyStore.GetDayData | store.ts:37-45 | the stored record, else a fresh all-incomplete template record with zero accumulators for that date |
| LegacyStore.UpdateTodayState | store.ts:77-104 | today's record becomes the updater's result and no other date changes; the tab is kept; the identity follows `LegacyAward` of ten points per net newly completed task |
| LegacyStore.AppStore.constructor | store.ts:10-35 | the store starts from `Initial` and that state is written |
| LegacyStore.AppStore.UpdateToday | store.ts:77-104 | the new state is `UpdateTodayState` of the old one, and it is written |
| LegacyStore.AppStore.SetTab | store.ts:106 | only the tab changes, and the state is written |
| LegacyStore.AppStore.UpdateIdentity | store.ts:108-110 | only the identity changes, to the merge of the patch, and the state is written |
| LegacyStore.AppStore.Streak | store.ts:47-75 | the early return and the backwards walk return exactly the specified streak |
| Dashboard.ToggleTasks | components/DashboardView.tsx:16 | length and order are kept, only `completed` may change, and it flips exactly on the tasks with the toggled id |
| Dashboard.ToggleTask | components/DashboardView.tsx:13-18 | the toggle changes only the day's task list |
| Dashboard.ToggleTwiceRestores | components/Dashboard.tsx:16 | toggling the same id twice restores the list |
| Dashboard.ToggleUnknownId | components/DashboardView.tsx:16 | toggling an id no task has changes nothing |
| Dashboard.ToggleMovesCountByOne | components/DashboardView.tsx:16 | with unique ids, toggling one task moves the completed count by exactly one, down if it was done and up otherwise |
| Dashboard.ToggleXpGain | components/DashboardView.tsx:13-17 | hence one toggle is worth exactly minus or plus ten xp |
| Dashboard.WaterByDelta | components/DashboardView.tsx:20-22 | water becomes `max(0, water + delta)`: never negative, and nothing else in the day changes |
| Dashboard.WaterSetTo | components/Dashboard.tsx:20-22 | water becomes `max(0, val)`, an absolute value, and nothing else in the day changes |
| Dashboard.Completion | components/DashboardView.tsx:25 | 0 for an empty list; otherwise within 0..100 and the integer nearest `100*done/total`, halves rounded up (the same expression is components/Dashboard.tsx:25) |
| Dashboard.InSection | components/Dashboard.tsx:101 | a task is listed under a section exactly when it is in the list and its category is that section |
| Dashboard.InSectionAppend | components/Dashboard.tsx:101 | filtering a concatenation is the concatenation of the filtered parts, so kept tasks stay in their original order (the same filter is components/DashboardView.tsx:86) |
| Dashboard.InSectionCounts | components/DashboardView.tsx:86 | a task of the section is kept exactly as often as it occurs, and a task of another category never |
| Dashboard.SectionsListEachTaskOnce | components/Dashboard.tsx:24 | when all categories are Body, Mind or Deen, the three sections together hold exactly the tasks as a multiset, so every occurrence is listed once, and their lengths sum to the list length |
| DayUpdates.LibToggleMovesXpByTen | components/DashboardView.tsx:13-17 | in the newer store a toggle flips that task and moves xp by ten either way, floored at zero, keeping the level consistent |
| DayUpdates.LegacyToggleMovesXpByTen | components/Dashboard.tsx:13-17 | in the older store a toggle moves xp the same way, while the level follows the unclamped sum |
| DayUpdates.LibTaskNeutralKeepsIdentity | lib/store.ts:74-81 | an updater that keeps the task list leaves a consistent identity unchanged |
| DayUpdates.LegacyTaskNeutralKeepsIdentity | store.ts:83-96 | an updater that keeps the task list leaves a consistent identity unchanged |
| DayUpdates.LibWaterAndFocusEarnNothing | components/DashboardView.tsx:20-22 | water changes and completed focus sessions never change xp or level in the newer store |
| DayUpdates.LegacyWaterAndFocusEarnNothing | components/DeepWork.tsx:29-33 | water changes and completed focus sessions never change xp or level in the older store |
| IdentityEditor.MergeListPatch | components/IdentityView.tsx:14 | a one-list patch replaces that list and keeps vision, the other lists, xp and level |
| IdentityEditor.TrimStart | components/IdentityView.tsx:13 | the result is a suffix, everything dropped is white space, and it does not start with white space |
| IdentityEditor.TrimEnd | components/IdentityView.tsx:13 | the result is a prefix, everything dropped is white space, and it does not end with white space |
| IdentityEditor.TrimEmptyIffBlank | components/IdentityView.tsx:13 | a string trims to empty exactly when all its characters are white space |
| IdentityEditor.AddItem | components/IdentityView.tsx:12-15 | no update exactly when the input is empty or all white space |
| IdentityEditor.RemoveAt | components/IdentityView.tsx:18 | a valid index drops exactly that item and keeps the rest in order; any other index leaves the list equal |
| IdentityEditor.RemoveItem | components/IdentityView.tsx:17-19 | the patch supplies only the edited list, which the merge turns into `RemoveAt` of the old list, one shorter for a valid index (the same handler is components/Identity.tsx:18-21) |
| IdentityEditor.AddThenMerge | components/Identity.tsx:12-16 | after an accepted add, the list has grown by one with the raw input at its end and the old items in front, and nothing else changed |
| IdentityEditor.RemoveThenMerge | components/Identity.tsx:18-21 | after a removal, the list is `RemoveAt` of the old one and nothing else changed |
| IdentityEditor.RemoveUndoesAdd | components/IdentityView.tsx:12-19 | removing the item just added gives back the original profile |
| ClockFormat.NatToString | components/DeepWorkView.tsx:40 | decimal digits, one for numbers below 10, two from 10 to 99, never with a leading zero |
| ClockFormat.ParseNatToString | components/DeepWorkView.tsx:40 | reading back the decimal text of a number gives the number |
| ClockFormat.PadStart2 | components/DeepWorkView.tsx:40 | the result has length at least 2, ends with the input and is padded with `'0'` in front |
| ClockFormat.Field | components/DeepWorkView.tsx:40 | a padded number has at least two digits, exactly two below 100, and reads back as the number |
| ClockFormat.FormatTime | components/DeepWorkView.tsx:37-41 | digits with a colon three from the end; below 6000 seconds exactly 5 characters with the colon at index 2 |
| ClockFormat.FormatTimeRoundTrip | components/DeepWork.tsx:42-46 | the minutes field reads back as `s div 60`, the seconds field as `s mod 60 < 60`, and the whole text as `s` |
| FocusTimer.AddFocusMinutes | components/DeepWorkView.tsx:30 | exactly 25 more focus minutes, nothing else changed, and so no xp gain |
| FocusTimer.Timer.constructor | components/DeepWorkView.tsx:11-13 | the timer starts inactive at 1500 seconds with no sessions |
| FocusTimer.Timer.Finish | components/DeepWorkView.tsx:27-35 | the timer stops, counts the session, credits 25 minutes and refills to 1500 seconds |
| FocusTimer.Timer.Tick | components/DeepWorkView.tsx:16-25 | inactive changes nothing; active counts down by one; reaching zero finishes the session; the time left stays in 1..1500 between steps |
| FocusTimer.Timer.Toggle | components/DeepWork.tsx:48 | only `isActive` flips |
| FocusTimer.Timer.Reset | components/DeepWork.tsx:49-52 | the timer stops at 1500 seconds with the session count kept |
| FocusTimer.Timer.Reward | components/DeepWorkView.tsx:86 | the shown reward equals the focus minutes the timer has credited |
| FocusTimer.Timer.Display | components/DeepWorkView.tsx:56 | the clock face is always `mm:ss` and reads back as the time left |

## Left out

- Browser storage and JSON are not modelled. What the storage key yields is
  an input: absent, unparseable, or a parsed blob. A save is the ghost write
  of a snapshot.
- The older loader treats an empty saved string like a missing one; this is
  the `Absent` case. A parsed value that is not a complete state object
  (`null`, a blob missing fields) is not modelled: `Parsed` always carries a
  complete state.
- Nested partial identity blobs are not modelled. In the newer loader the
  saved identity replaces the default identity as a whole, which is modelled.
- Dates are not modelled: `Date`, ISO strings, UTC and the local/UTC mix of
  the streak walk. Days are integers and `today` is a parameter.
- React scheduling is not modelled: effects, memoisation, batched state
  updates, and the stale closures that let `updateToday` read a memoised
  current day while writing into the latest state. Each store operation is
  one atomic step on the current state.
- The focus timer's one-second interval becomes an explicit `Tick` step.
- Floating point is not modelled. Water intake is an exact `real`, so
  `parseFloat` and NaN in the absolute water input are out.
- Dashboard.Completion: exact integer round-half-up of `100*done/total`.
  The source rounds a floating quotient, which may differ at exact halves.
- Browser notifications after a focus session are a foreign side effect.
- LibStore.AppStore.TryLoad: what the failed mount render does beyond committing
  nothing (React's error reporting, an error boundary) is outside the model.
- The second argument the dashboards pass to `onUpdate`, the toggled task,
  is ignored by both stores. Neither `useAppState` defines an activity log
  or an export: App.tsx:10 destructures an `exportToCSV`, but the hook's
  return at store.ts:112 has none, so none is modelled.
- ClockFormat.FormatTime: defined for non-negative seconds only. The timer
  never shows a negative time.
- Task names, and the numeric and scale values of tasks, are carried but
  never changed by the core. The newer task record has no kind, value or
  target; these are `None` there.
- Editing the vision text is a direct `updateIdentity({ vision })`. It is
  covered by `Domain.MergeIdentity`.
- Rendering, styling, icons and the tab switch are not modelled.

## Findings

| source | as written | input that shows it | evidently intended | confidence | as-written member | corrected member |
|---|---|---|---|---|---|---|
| store.ts:88-96 | the level is `floor((xp + gain) / 500) + 1` of the unclamped sum, while xp is stored clamped at zero | xp 0 and level 1 with a completed task today, then that task is un-ticked (gain -10): xp stays 0 but the level becomes 0; ticks and un-ticks alone never reach this state from the defaults, but a saved blob or a direct `updateIdentity({ xp: 0 })` after a tick does | the level derived from the clamped xp, so `level == floor(xp / 500) + 1 >= 1` always holds, as the newer store does at lib/store.ts:80-81 | not executed | Progress.LegacyLevelDropsToZero | Progress.Award |
| lib/store.ts:27-31 | `JSON.parse(saved)` runs inside the `setState` updater, so the `try` wraps only the enqueueing; React re-runs the updater while rendering, where the parse error escapes the `catch`, the mount render fails, `setIsLoaded(true)` is never committed and nothing is saved | the storage key holds text that is not JSON, such as `{` | the parse failure is swallowed: the defaults are kept, the store is marked loaded and the save gate opens | not executed | LibStore.UnparseableBlobAbortsLoad | LibStore.AppStore.Load |

The older store is modelled as written, with `Progress.LegacyAward`. The
newer store uses the corrected `Progress.Award`, whose contract proves the
level invariant after every update.

The newer store's load is modelled as written by `LibStore.LoadAsWritten`
and `LibStore.AppStore.TryLoad`, and as intended by `LibStore.LoadMerge` and
`LibStore.AppStore.Load`. The older loader parses inside its `try`
(store.ts:13-14), so its fallback to the defaults is modelled as written.
