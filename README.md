# todoluck core in Dafny

This project models the logic of a browser to-do list that has a Pomodoro timer beside it. The logic comes from four source files:

- **Pomodoro timer** (`src/components/pomodoro/Pomodoro.jsx`). Its state is the mode (work, short break, long break), the seconds left, whether it runs, the work intervals completed since mounting (`cycles`, never reset; the display shows its position in the round as `cycles % 4`, with 0 shown as 4), the rounds completed so far, and the three configured durations.
  - The record `Pomodoro.TimerState` holds that state. Every handler is a function from the old record to the new one: `Stepped`, `Completed`, `Toggled`, `Reset`, `ChangedMode`, `Edited` and `Saved`.
  - The class `Pomodoro.Timer` holds the same fields and updates them in place. Each of its methods is proved equal to its function.
  - `Step` replaces the effect and the one-second interval. It makes one tick when the timer runs with time left, and completes the interval when the timer runs at zero.
  - `FormatTime` and `MinutesToSeconds` are the pure helpers. `FormatTime` is proved to round-trip through the `MM:SS` display.
  - The data type `Event` and the function `Run` replay any sequence of actions. Lemmas over `Run` prove the invariants: durations stay positive, the rounds counter never goes down, long breaks are accounted correctly in runs without manual mode changes, and the countdown stays within its mode until a duration is edited.
- **Task list** (`src/App.jsx`). Tasks are `Task(id, text, completed, createdAt)` records in a `seq`. The list's `map`/`filter` expressions are functions, and the class `Tasks.TaskList` holds the component's state: the list, the text box, the error line and the filter.
  - The lemmas prove how each operation relates to the old list: order is preserved, the result is a subsequence, the two views partition the list, and clearing twice is the same as clearing once.
  - `String.prototype.trim` is modelled character by character. A lemma proves that the trimmed text is empty exactly when every character is white space.
- **Relative time** (`getRelativeTime` in `src/components/taskItem/TaskItem.tsx`). A function of the integer millisecond difference returns a tagged bucket. Its contract gives the exact range of milliseconds for each bucket and the count the bucket carries.
- **Toast queue** (`src/contexts/ToastContext.jsx`). An ordered list of toasts, with add (defaults filled in) and remove-by-id, and the four `show*` wrappers.
- **Helpers.** `Seqs` holds `Array.prototype.filter` and its guarantees. `Decimal` holds `Number.prototype.toString`, `padStart` and a digit parser. `Wrappers` holds the `Option` type, which stands for arguments that may be `undefined`.

### Behaviour of the code worth knowing

- **Task text.** The code stores the text exactly as typed, untrimmed. Trimming is used only for the emptiness check (`src/App.jsx:26`, `src/App.jsx:33`).
- **`saveSettings`.** It refills the countdown of the current mode from the current durations, and it does not pause the timer (`src/components/pomodoro/Pomodoro.jsx:169-181`).
- **Editing a duration.** It does not touch the countdown (`src/components/pomodoro/Pomodoro.jsx:235`, `:246`, `:257`). So "time left ≤ length of the mode" is not a global invariant. `RunStaysWithinMode` proves it for runs without edits. `EditCanExceedMode` shows an edit that breaks it, and `SaveRestoresWithinMode` shows that a save restores it.
- **`cycles` does not wrap.** Only mounting sets it to 0 (`src/components/pomodoro/Pomodoro.jsx:35`). Each finished work interval adds one (`:98-99`), also past a long break. The round position exists only in the display (`:349`), so a long break comes on every multiple of 4 and `RoundsAccounted` counts rounds as `cycles / 4`.
- **Completing a break.** The long-break check reads the mode the handler started with, which is the closure's value.
- **Fall-through branches.** `Mode` and `View` are closed types with three constructors each. The code's `else`/`default` branches, which any other string would reach, are the third constructor: a long break for the mode and "all" for the filter.

## Model

| member | source | states |
|---|---|---|
| `Pomodoro.Mounted` | src/components/pomodoro/Pomodoro.jsx:29-41 | On mounting, the timer is in work mode, paused, with no cycles and the full work time left. The settings it would persist are exactly the ones it was loaded with. |
| `Pomodoro.Completed` | src/components/pomodoro/Pomodoro.jsx:95-122 | Finishing a work interval adds one cycle and goes to a break, which is long exactly when the new count is a multiple of 4. Finishing a break goes to work with cycles unchanged, and adds one completed round exactly when it was a long break. The new mode is always full and paused, and the durations are unchanged. |
| `Pomodoro.Stepped` | src/components/pomodoro/Pomodoro.jsx:48-66 | A paused timer does not change. A running timer with time left loses exactly one second and nothing else. A running timer at zero completes. |
| `Pomodoro.NoticeOf` | src/components/pomodoro/Pomodoro.jsx:55-58 | The notification one tick raises. It is the work or the break message, chosen by the mode that finished, and nothing when the timer is not running at zero. `Timer.Step` proves that a notification is raised exactly when the timer was running at zero. |
| `Pomodoro.Persisted` | src/components/pomodoro/Pomodoro.jsx:158-163 | The four settings the persistence effect writes. `Mounted` proves that loading them back gives the same four values. |
| `Pomodoro.Toggled` | src/components/pomodoro/Pomodoro.jsx:125-127 | Flips whether the timer runs. Nothing else changes. |
| `Pomodoro.Reset` | src/components/pomodoro/Pomodoro.jsx:129-140 | Pauses the timer and refills the current mode's full duration. Mode, cycles, rounds and durations are unchanged. |
| `Pomodoro.ResetIsIdempotent` | src/components/pomodoro/Pomodoro.jsx:129-140 | Resetting twice is the same as resetting once. |
| `Pomodoro.ChangedMode` | src/components/pomodoro/Pomodoro.jsx:143-154 | Pauses the timer, switches to the new mode and fills that mode's duration. Cycles, rounds and durations are unchanged. |
| `Pomodoro.Saved` | src/components/pomodoro/Pomodoro.jsx:169-181 | Sets the time left to the current mode's duration. It neither pauses the timer nor changes anything else. |
| `Pomodoro.MinutesToSeconds` | src/components/pomodoro/Pomodoro.jsx:191-193 | The result is at least 1. It is 1 exactly when the input is under 2 seconds' worth of minutes. Otherwise it is the floor of minutes × 60. |
| `Pomodoro.WholeMinutes` | src/components/pomodoro/Pomodoro.jsx:191-193 | For a whole number of minutes n ≥ 1, the result is exactly 60·n. |
| `Pomodoro.Edited` | src/components/pomodoro/Pomodoro.jsx:230-259 | The edited duration becomes `MinutesToSeconds(minutes)`. The other durations, the mode, the countdown, whether the timer runs, the cycles and the rounds are unchanged. |
| `Pomodoro.FormatTime` | src/components/pomodoro/Pomodoro.jsx:184-188 | Computes the `MM:SS` display. `FormatTimeShape` proves its layout and the value of each field. `FormatTimeRoundTrip` proves that it reads back as the original seconds. |
| `Pomodoro.FormatTimeShape` | src/components/pomodoro/Pomodoro.jsx:184-188 | The display has at least 5 characters: digits, a colon three characters from the end, then two digits. The field before the colon reads as the whole minutes `seconds / 60`. The two-digit field reads as `seconds % 60`, which is below 60. |
| `Pomodoro.FormatTimeRoundTrip` | src/components/pomodoro/Pomodoro.jsx:184-188 | Reading the two fields of the display back gives minutes × 60 + seconds, which equals the original number of seconds. |
| `Decimal.FromNat` | src/components/pomodoro/Pomodoro.jsx:187 | `toString` of a non-negative integer is a non-empty string of digits with no leading zero. Numbers below 10 take one digit and numbers below 100 at most two. |
| `Decimal.PadStart` | src/components/pomodoro/Pomodoro.jsx:187 | `padStart` returns the original string when it is already long enough. Otherwise it returns that string behind fill characters, to exactly the requested width. |
| `Decimal.PaddedNumber` | src/components/pomodoro/Pomodoro.jsx:187 | A number padded to two places with `'0'` is all digits and at least two long. It is exactly two long below 100, which covers the seconds field. |
| `Pomodoro.RunKeepsDurationsPositive` | src/components/pomodoro/Pomodoro.jsx:230-259 | Over any sequence of actions, durations that start positive stay positive. |
| `Pomodoro.RunNeverLosesRounds` | src/components/pomodoro/Pomodoro.jsx:114-117 | Over any sequence of actions, the completed-rounds counter never decreases. |
| `Pomodoro.RunStaysWithinMode` | src/components/pomodoro/Pomodoro.jsx:48-181 | Over any sequence of actions without duration edits, the time left never exceeds the duration of the current mode. |
| `Pomodoro.EditCanExceedMode` | src/components/pomodoro/Pomodoro.jsx:235 | Right after mounting, cutting the work time to one minute leaves 1500 seconds on a 60-second mode. |
| `Pomodoro.SaveRestoresWithinMode` | src/components/pomodoro/Pomodoro.jsx:169-181 | After a save, the time left is within the current mode's duration, whatever came before. |
| `Pomodoro.RunKeepsRoundsAccounted` | src/components/pomodoro/Pomodoro.jsx:96-121 | Without manual mode changes, the rounds counter equals the starting count plus a quarter of the cycles, one less during a long break. A long break runs only on a positive multiple of 4 cycles. |
| `Pomodoro.MountedRunAccounted` | src/components/pomodoro/Pomodoro.jsx:29-121 | From mounting, every run without manual mode changes satisfies that accounting. |
| `Pomodoro.FourthWorkIntervalEarnsLongBreak` | src/components/pomodoro/Pomodoro.jsx:96-108 | With defaults, a running work interval at zero after 3 cycles steps to a paused long break of 900 seconds with 4 cycles. |
| `Pomodoro.FullRound` | src/components/pomodoro/Pomodoro.jsx:96-121 | From mounting, the seventh completion is the start of a long break and the rounds counter is still unchanged. No earlier completion starts a long break or changes the counter. The eighth completion returns to work with the counter one higher. |
| `Pomodoro.Timer.constructor` | src/components/pomodoro/Pomodoro.jsx:11-41 | The state is `Mounted` from the stored settings, or from the defaults 1500/300/900/0 when nothing is stored. |
| `Pomodoro.Timer.HandleTimerComplete` | src/components/pomodoro/Pomodoro.jsx:95-122 | The new fields are `Completed` of the old ones. |
| `Pomodoro.Timer.Step` | src/components/pomodoro/Pomodoro.jsx:48-66 | The new fields are `Stepped` of the old ones. A notification is raised exactly when a running timer reaches zero, and its kind is work or break according to the mode that finished. |
| `Pomodoro.Timer.ToggleTimer` | src/components/pomodoro/Pomodoro.jsx:125-127 | The new fields are `Toggled` of the old ones. |
| `Pomodoro.Timer.ResetTimer` | src/components/pomodoro/Pomodoro.jsx:129-140 | The new fields are `Reset` of the old ones. |
| `Pomodoro.Timer.ChangeMode` | src/components/pomodoro/Pomodoro.jsx:143-154 | The new fields are `ChangedMode` of the old ones. |
| `Pomodoro.Timer.EditDuration` | src/components/pomodoro/Pomodoro.jsx:230-259 | The new fields are `Edited` of the old ones. |
| `Pomodoro.Timer.SaveSettings` | src/components/pomodoro/Pomodoro.jsx:169-181 | The new fields are `Saved` of the old ones. |
| `Pomodoro.Timer.SettingsToSave` | src/components/pomodoro/Pomodoro.jsx:157-166 | The stored object holds all four settings: the three durations and the completed rounds. Mounting from it restores exactly those settings, so a save followed by a reload keeps them. |
| `Seqs.Filter` | src/App.jsx:68-77 | The result is no longer than the input, and every element of it passes the test. |
| `Seqs.FilterIsSubsequence` | src/App.jsx:51-58 | A filtered list is a subsequence of the original, in the original order. |
| `Seqs.FilterCount` | src/App.jsx:51-58 | A value occurs in the result exactly as often as in the input if it passes the test, and never otherwise. |
| `Seqs.FilterPartition` | src/App.jsx:68-82 | Two complementary filters split the list: the multiset union of their results is the list's multiset, and their lengths add up to its length. |
| `Seqs.FilterIdempotent` | src/App.jsx:56-58 | Filtering twice with the same test is the same as filtering once. |
| `Tasks.TrimStart` | src/App.jsx:26 | Strips the leading white space: what is removed is blank, the rest is a suffix of the input, and that rest is empty or starts with a non-white character. |
| `Tasks.TrimEnd` | src/App.jsx:26 | Strips the trailing white space: what is removed is blank, the rest is a prefix of the input, and that rest is empty or ends with a non-white character. |
| `Tasks.Trim` | src/App.jsx:26 | `trim()` as leading then trailing white-space removal. `TrimEmptyIffBlank` proves that the result is empty exactly when the text is blank. |
| `Tasks.TrimEmptyIffBlank` | src/App.jsx:26 | `text.trim() === ''` holds exactly when every character is ECMAScript white space or a line terminator. |
| `Tasks.AppendKeepsUniqueIds` | src/App.jsx:31-39 | Appending a task whose id is not yet in the list keeps every id in the list distinct. |
| `Tasks.TaskList.AddTask` | src/App.jsx:25-41 | Blank text leaves the list and the text box as they were and sets the non-empty error message. Other text appends exactly one pending task, with the text as typed, after the unchanged old list, and clears the text box and the error. Ids stay unique. |
| `Tasks.Toggled` | src/App.jsx:44-48 | The result has the same length and the same ids, texts and dates in the same order. A task's completion flips exactly when its id matches. An unknown id changes nothing. |
| `Tasks.ToggleTwice` | src/App.jsx:44-48 | Toggling the same id twice restores the list. |
| `Tasks.Removed` | src/App.jsx:51-53 | The list without the given id. `RemoveKeepsOthers` proves it is an ordered subsequence holding exactly the tasks with other ids, and that an unknown id changes nothing. |
| `Tasks.RemoveKeepsOthers` | src/App.jsx:51-53 | The result is a subsequence of the list holding exactly those tasks whose id differs, each as many times as in the list. An unknown id changes nothing. |
| `Tasks.ClearedCompleted` | src/App.jsx:56-58 | The list without completed tasks. `ClearKeepsPending` proves it is an ordered subsequence holding exactly the pending tasks, and that clearing twice is the same as clearing once. |
| `Tasks.ClearKeepsPending` | src/App.jsx:56-58 | The result is a subsequence holding exactly the pending tasks. Clearing twice equals clearing once. |
| `Tasks.FilteredTasks` | src/App.jsx:68-77 | The view for a filter, with `All` as the `default` branch. `ViewsPartition` proves that the active and completed views split the list. `TaskList.Visible` proves the membership of each view, and that `All` returns the list unchanged. |
| `Tasks.ViewsPartition` | src/App.jsx:68-77 | The active and completed views share no task. Together they hold every task exactly once (as multisets) and cover all ids. |
| `Tasks.CompletedCount` | src/App.jsx:81 | The number of completed tasks. `CountersAgree` proves it adds up with the active count to the total. |
| `Tasks.ActiveCount` | src/App.jsx:82 | The total minus the completed count. `CountersAgree` proves it is never negative and equals the size of the active view. |
| `Tasks.CountersAgree` | src/App.jsx:80-82 | `activeTasks` equals the length of the active view, is non-negative, and `activeTasks + completedTasks == totalTasks`. |
| `Tasks.FilterKeepsUniqueIds` | src/App.jsx:51-58 | Removing or clearing keeps the ids of the remaining tasks distinct. |
| `Tasks.TaskList.constructor` | src/App.jsx:10-17 | Starts with an empty list, an empty text box, no error and the "all" filter. |
| `Tasks.TaskList.SetTask` | src/App.jsx:138 | Replaces the text box content. Nothing else changes. |
| `Tasks.TaskList.SetFilter` | src/App.jsx:155-173 | Selects the filter. Nothing else changes. |
| `Tasks.TaskList.ToggleTaskCompletion` | src/App.jsx:44-48 | The new list is `Toggled` of the old one, ids stay unique, and the other fields are unchanged. |
| `Tasks.TaskList.RemoveTask` | src/App.jsx:51-53 | The new list is `Removed` of the old one, ids stay unique, and the other fields are unchanged. |
| `Tasks.TaskList.ClearCompletedTasks` | src/App.jsx:56-58 | The new list is `ClearedCompleted` of the old one, ids stay unique, and the other fields are unchanged. |
| `Tasks.TaskList.Visible` | src/App.jsx:68-77 | The visible list is a subsequence of the list. Under "active" it holds exactly the pending tasks, and under "completed" exactly the completed ones. Under any other filter (the `default` branch) it is the whole list, unchanged. |
| `Tasks.TaskList.Counters` | src/App.jsx:80-82 | `totalTasks` is the list's length. `completedTasks` and `activeTasks` are the lengths of their views, and they add up to `totalTasks`. |
| `RelativeTime.RelativeTimeOf` | src/components/taskItem/TaskItem.tsx:39-56 | Under 1 minute, including negative differences: "just now". Then whole minutes in [1, 60), whole hours in [1, 24), "yesterday" for [1, 2) days, whole days in [2, 30), and the absolute date from 30 days on. Each bucket is given by its exact millisecond range, so the buckets are disjoint and cover every difference. |
| `RelativeTime.RelativeTimeMonotone` | src/components/taskItem/TaskItem.tsx:42-55 | A larger difference never gives an earlier bucket, and within one bucket its count never decreases. |
| `RelativeTime.Label` | src/components/taskItem/TaskItem.tsx:45-55 | The text for a bucket: "agora mesmo", "há n min", "há nh", "ontem", "há n dias", or the formatted date. |
| `RelativeTime.LabelInjective` | src/components/taskItem/TaskItem.tsx:45-53 | Two different buckets, other than the date fall-through, never give the same text. The text determines both the unit and the count. |
| `RelativeTime.GetRelativeTime` | src/components/taskItem/TaskItem.tsx:39-56 | The label of the bucket that `RelativeTimeOf` picks for `now - created`. `RelativeTimeOf` gives each bucket's millisecond range, and `FutureIsJustNow` covers creation times in the future. |
| `RelativeTime.FutureIsJustNow` | src/components/taskItem/TaskItem.tsx:42-45 | A creation time in the future shows "agora mesmo". |
| `Toasts.NewToast` | src/contexts/ToastContext.jsx:17-19 | The record carries the given id and message. An omitted kind becomes info and an omitted duration becomes 3000. |
| `Toasts.Dismissed` | src/contexts/ToastContext.jsx:24-26 | The toasts without the given id. `DismissKeepsOthers` proves it is an ordered subsequence holding exactly the others. `AddThenRemove` proves that adding a toast under a fresh id and then removing it restores the list. |
| `Toasts.DismissKeepsOthers` | src/contexts/ToastContext.jsx:24-26 | Removing an id keeps, in order, exactly the toasts with other ids, each as many times as in the list, so identical toasts made in the same millisecond are not merged. An unknown id changes nothing. |
| `Toasts.AddThenRemove` | src/contexts/ToastContext.jsx:17-26 | Adding a toast under an id no other toast has, then removing that id, restores the previous list. |
| `Toasts.ToastQueue.constructor` | src/contexts/ToastContext.jsx:14 | Starts with no toasts. |
| `Toasts.ToastQueue.AddToast` | src/contexts/ToastContext.jsx:17-21 | Appends exactly one record at the end, leaves earlier toasts unchanged, and returns the id it stored. |
| `Toasts.ToastQueue.RemoveToast` | src/contexts/ToastContext.jsx:24-26 | The new list is `Dismissed` of the old one. |
| `Toasts.ToastQueue.ShowSuccess` | src/contexts/ToastContext.jsx:29-31 | Same as `AddToast` with the success kind. |
| `Toasts.ToastQueue.ShowError` | src/contexts/ToastContext.jsx:33-35 | Same as `AddToast` with the error kind. |
| `Toasts.ToastQueue.ShowInfo` | src/contexts/ToastContext.jsx:37-39 | Same as `AddToast` with the info kind. |
| `Toasts.ToastQueue.ShowWarning` | src/contexts/ToastContext.jsx:41-43 | Same as `AddToast` with the warning kind. |

## Left out

- Storage: loading and saving through `localStorage` and `JSON.parse`/`JSON.stringify` are not modelled (`Pomodoro.jsx:11-27,157-166`, `App.jsx:11-15,20-22`). `Pomodoro.Timer.constructor` takes the loaded settings as an optional value, and `SettingsToSave` is the object that would be written. Parse failures are not modelled either: `Pomodoro.jsx` catches them, while `App.jsx:14` does not.
- Tasks.TaskList.constructor: starts from an empty list instead of the list stored under `tasks`, because storage is not modelled.
- Tasks.TaskList.AddTask: requires a fresh id. The parameter stands in for `Date.now()`, and the clock is assumed to give a new value on each add, which keeps ids unique.
- Clock readings: `Date.now()`, `new Date().toISOString()` and `new Date()` are parameters (`id`, `createdAt`, `nowMs`, `createdMs`).
- Interval scheduling and its cleanup (`setInterval`/`clearInterval`, effect re-runs) are replaced by the explicit `Step`.
- Audio playback and the browser `Notification` API are foreign calls. `Step` only returns which notification completion would raise.
- Pomodoro.MinutesToSeconds: multiplies the minutes by 60 exactly, over real numbers. The source multiplies the result of `parseFloat` by 60 in double-precision floating point before `Math.floor`, so while the product stays below 2^53 a result that rounds to just below or just above a whole second can differ from the model by one second. Larger products are covered by the line on numbers below.
- RelativeTime.GetRelativeTime: takes the creation time as integer milliseconds. In the source, a `createdAt` that `new Date` cannot parse gives `NaN`; every comparison at `TaskItem.tsx:45-53` is then false, and the result falls through to `formatDate`. The model has no such input.
- Numbers: the source's numbers are IEEE double-precision floats. The model uses exact unbounded integers (`nat`, `int`) and exact reals, so it does not capture what happens once a typed duration is very large. The `min`/`max` attributes of the duration inputs (`src/components/pomodoro/Pomodoro.jsx:232-233`) bound only the spinner and form validation, not what `onChange` receives. `onChange` (`:235`) stores any typed value, and the persistence effect saves it.
- Pomodoro.Stepped: the tick `timeLeft - 1` (`Pomodoro.jsx:53`) is inexact from 2^53 seconds. From 2^54 it rounds back to the same value, so the source's countdown stalls, while the model always removes exactly one second.
- Pomodoro.MinutesToSeconds: above 2^53 the product `parseFloat(m) * 60` is itself inexact, and the source's result can differ from the exact floor by more than one second.
- Pomodoro.FormatTime: from 10^21, `Number.prototype.toString` (`Pomodoro.jsx:187`) switches to exponent notation (`"1e+21"`), which `Decimal.FromNat` never produces.
- Toasts.Kind: a closed type of the four kinds the `show*` wrappers pass. `addToast` stores whatever `type` its caller gives (`src/contexts/ToastContext.jsx:17-19`), so toasts of any other kind are not modelled.
- Non-numeric input to the duration fields is not modelled. `parseFloat` of such text gives `NaN`, and `Math.max(1, NaN)` is `NaN`, not 1. `MinutesToSeconds` is modelled over numeric (real) minutes only.
- `formatDate` (`toLocaleDateString` with the pt-BR locale) is not modelled. Its text is the `absolute` parameter of `RelativeTime.Label`.
- Pure UI state and markup are not modelled: the completion animation timeout in `TaskItem.tsx`, the `showSettings` and `showPomodoro` toggles, the "current cycle" label, the Enter-key handler (which only calls `handleAddTask`), and the rendering of toasts, headers, inputs and buttons.
- Toast ids: two toasts created in the same millisecond share an id, and removing that id removes both. The model states this behaviour (removal of every toast with the id) but does not model the clock.
