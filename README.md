# LifeOS core in Dafny

LifeOS is a single-user Next.js app. It combines a task list, a session history, two timers, a notes editor and a sticky-note board. This project models its core as Dafny definitions and proves properties about them:

- **Sessions API.** `POST /api/sessions` starts, stops or completes a session. Three read endpoints derive views from the sessions table:
  - `today`: focus and track minutes, and the number of sessions that started today;
  - `summary`: the last twelve months of focus minutes, oldest first;
  - `recent`: the newest fifty sessions, with their task and subtask titles.
- **Tasks API.** `GET` seeds the seven default tasks and their 24 subtasks on first use, then lists tasks newest first with their subtasks. `POST` creates a task. The status change that `PATCH` makes is modelled as the dashboard uses it.
- **Notes API.** `GET` lists pinned notes first, then the most recently updated. `POST` fills in the defaults for missing fields.
- **Timers.** The count-up *Tracker* and the count-down *Pomodoro*: start, stop, tick, reset, the duration buttons and the local-storage round trip. Each handler is a function from the state of the render it was created in to the next state and the session request it sends. The `Tracker` and `Pomodoro` classes hold the component's state and apply those functions.
- **Sticky board.** The stacking order, bring-to-front, drag, resize, edits, the debounced save queue and the body of a new sticky.
- **Notes page.** Loading and selecting a note, deleting it, creating one, the Markdown toolbar's rewrite of the selection, the list preview, and the search box (shared with the sticky board).
- **Dashboard.** Selecting a task and a subtask, reloading, "complete selected" (a `complete` marker plus the status changes), and the done lists.
- **Settings.** "Reset local timer state" removes exactly the timer keys from local storage.

Stores are sequences in insertion order with an autoincrement counter (`Table`, `Store`, `NoteStore`). Times are integers in milliseconds. The calendar enters only through day bounds and a `monthStart` function, which are parameters. Network replies (the new session id, the re-fetched lists) and the user's `confirm()` answer are parameters too.

## Model

| member | source | states |
|---|---|---|
| Common.RoundMinutes | app/api/sessions/today/route.ts:8 | `Math.round(sec/60)`: the result is the minute count within half a minute of the seconds, and it is never negative for a non-negative input |
| Common.TrimEmptyIff | app/stickies/page.tsx:79-80 | a filter trims to the empty string exactly when every character is whitespace |
| Common.DigitsValue | components/TrackerTimer.tsx:25 | the decimal rendering of a number reads back as that number |
| Common.Pad2Value | components/TrackerTimer.tsx:25 | `padStart(2,'0')` keeps the value of the digits |
| Sorting.InsertionSortSorted | app/stickies/page.tsx:28 | sorting by any total preorder yields an ordered permutation of the input |
| Sessions.IndexOf | app/api/sessions/route.ts:13 | the row lookup by key finds a row carrying that id, or reports that no row has it |
| Sessions.StartAddsOneRow | app/api/sessions/route.ts:6-10 | `start` appends one row under a fresh id. Its type defaults to 'track', it has no end and no duration, and earlier rows are untouched |
| Sessions.StopOnlyTarget | app/api/sessions/route.ts:11-15 | `stop` succeeds exactly when a row has the id. It sets that row's end to now and its duration to `max(elapsed,0)`, and changes nothing else |
| Sessions.StopTwiceLastWins | app/api/sessions/route.ts:12-13 | stopping a session again overwrites the first stop: the result is the same as the last stop alone |
| Sessions.CompleteAddsMarker | app/api/sessions/route.ts:16-20 | `complete` appends a 'complete' row that starts and ends now, with duration 0 and the given links |
| Sessions.SessionStore.Post | app/api/sessions/route.ts:4-22 | dispatch on `action`: start, stop and complete as above. An unknown id makes the store throw and nothing is written. Any other action answers 400 and leaves the table unchanged |
| SessionsToday.InDay | app/api/sessions/today/route.ts:5 | the day's rows are exactly the rows that started within the day's bounds |
| SessionsToday.EmptyDay | app/api/sessions/today/route.ts:5-8 | a day without sessions reports zero minutes and zero sessions |
| SessionsToday.AddRow | app/api/sessions/today/route.ts:5-7 | one more row adds its duration to its own kind's total, and only if it started that day |
| SessionsToday.TotalsMeaning | app/api/sessions/today/route.ts:4-8 | each reported minute figure is within half a minute of that kind's summed seconds and is non-negative. The count is the number of the day's rows |
| SessionsToday.KindSecondsNonNegative | app/api/sessions/today/route.ts:6-7 | summed durations are never negative |
| SessionsToday.OtherKindsAddNothing | app/api/sessions/today/route.ts:6-7 | rows of other kinds ('complete', 'break') add nothing to a kind's total |
| SessionsSummary.Summary | app/api/sessions/summary/route.ts:4-8 | the loop yields twelve entries. Entry k is the bucket of the month 11-k months before the current one |
| SessionsSummary.MonthsRunOldestFirst | app/api/sessions/summary/route.ts:5 | the entries run month by month, oldest first, wrapping December into January of the next year. The last entry is the current month |
| SessionsSummary.MonthsDisjoint | app/api/sessions/summary/route.ts:5-6 | with increasing month starts, no session falls into two months |
| SessionsSummary.OnlyFocusCounts | app/api/sessions/summary/route.ts:6-7 | a row adds its duration to a month only if it is a focus row that started in that month |
| SessionsSummary.EmptyMonthIsZero | app/api/sessions/summary/route.ts:7 | a month without focus rows reports 0 minutes |
| SessionsSummary.BucketMinutes | app/api/sessions/summary/route.ts:7 | a bucket's minutes are non-negative and within half a minute of the month's focus seconds |
| SessionsSummary.FocusSecondsNonNegative | app/api/sessions/summary/route.ts:7 | a month's summed focus seconds are never negative |
| SessionsRecent.Recent | app/api/sessions/recent/route.ts:4 | the reply holds min(50, number of rows) rows |
| SessionsRecent.NewestFirst | app/api/sessions/recent/route.ts:4 | the rows are the newest sessions, in strictly descending id order, and every omitted session is older |
| SessionsRecent.RowsDescribeSessions | app/api/sessions/recent/route.ts:5 | each row carries its session's id, type and start, and its rounded minutes (0 while unfinished). It carries the task and subtask titles exactly when the link resolves |
| Tasks.SubtasksOf | app/api/tasks/route.ts:21 | `include: { subtasks }` holds exactly the subtasks linked to the task |
| Tasks.SeededSubs | app/api/tasks/route.ts:15-18 | the seeding loop creates as many subtasks as the defaults list |
| Tasks.List | app/api/tasks/route.ts:21 | the listing has one entry per task |
| Tasks.SetTaskStatus | app/dashboard.tsx:39-42 | the update keeps the number of tasks, the subtasks and both counters |
| Tasks.SetSubtaskStatus | app/dashboard.tsx:34 | the update keeps the number of subtasks, the tasks and both counters |
| Tasks.SeedIdempotent | app/api/tasks/route.ts:5 | seeding does nothing once a task exists, so seeding twice is seeding once |
| Tasks.SeededTasksFacts | app/api/tasks/route.ts:15-16 | the seeding creates seven tasks, the i-th titled as the i-th default, as 'todo', under key first + i, so each block of subtasks belongs to its own task |
| Tasks.SeedEmptyStore | app/api/tasks/route.ts:4-19 | an empty store receives the seven default titles as 'todo' tasks and 24 subtasks, keeps its earlier subtasks and stays well formed |
| Tasks.SubCountIs24 | app/api/tasks/route.ts:6-14 | the defaults hold 24 subtasks in all |
| Tasks.SeededSubsIds | app/api/tasks/route.ts:17 | the seeded subtasks take consecutive fresh ids |
| Tasks.SeededSubsBlock | app/api/tasks/route.ts:15-17 | each default task's block of subtasks is linked to it, titled from its list in order, with `order` equal to the position, and 'todo' |
| Tasks.ListNewestFirst | app/api/tasks/route.ts:21 | the listing is in strictly descending id order and holds every task, each with exactly its own subtasks. After seeding it is never empty |
| Tasks.CreateKeepsTitle | app/api/tasks/route.ts:22 | `POST` appends one 'todo' task under a fresh id, titled as given or 'Untitled' when absent |
| Tasks.SetStatusOnlyTarget | app/dashboard.tsx:39-42 | a status update changes only the row with that id, and only its status. The store stays well formed |
| Tasks.TaskStore.SeedIfEmpty | app/api/tasks/route.ts:4-19 | the seeding method's new state is `Seed` of the old one |
| Tasks.TaskStore.InsertDefaults | app/api/tasks/route.ts:15-18 | the nested insertion loops append exactly the seeded tasks and subtasks and advance both counters |
| Tasks.TaskStore.SeedStep | app/api/tasks/route.ts:15-17 | one pass of the outer loop appends one task and its block of subtasks |
| Tasks.TaskStore.InsertSubtasks | app/api/tasks/route.ts:17 | the inner loop appends one subtask per name, with consecutive ids |
| Tasks.TaskStore.Get | app/api/tasks/route.ts:21 | `GET` seeds if empty and returns the non-empty listing of the new state |
| Tasks.TaskStore.Post | app/api/tasks/route.ts:22 | `POST` creates the task and returns the new row |
| Tasks.TaskStore.PatchTask | app/dashboard.tsx:39-42 | the new state is the old one with that task's status set |
| Tasks.TaskStore.PatchSubtask | app/dashboard.tsx:34 | the new state is the old one with that subtask's status set |
| NotesApi.EmptyBodyDefaults | app/api/notes/route.ts:15-31 | an empty body and an unparsable one both give 'Untitled', '', '#ffffff', unpinned, 60/60/320/220, z 1, no links |
| NotesApi.CreateFieldwise | app/api/notes/route.ts:19-31 | a body is accepted exactly when its text and link fields are null/absent or of the right type. Then title, content, color, taskId and subtaskId keep a given value and take their default only when null or absent. Layout fields keep a number and otherwise take their default, and `isPinned` is the truthiness of the value |
| NotesApi.PinnedThenRecentIsTotalPreorder | app/api/notes/route.ts:9 | the two-key ordering is total and transitive |
| NotesApi.ListOrder | app/api/notes/route.ts:8-10 | the listing is a permutation with pinned notes first and, within each group, the most recently updated first |
| NotesApi.NoteStore.Get | app/api/notes/route.ts:7-12 | `GET` returns the notes reordered as above, on a store whose keys are ascending and below the counter |
| NotesApi.NoteStore.Post | app/api/notes/route.ts:14-36 | `POST` appends the defaulted note and returns it. Its id is above every existing id, and the store keeps its keys ascending and below the counter. A refused body writes nothing |
| Timers.StorageKey | components/TrackerTimer.tsx:12 | a timer's storage key starts with its prefix |
| Timers.HmsRoundTrip | components/TrackerTimer.tsx:25 | the `hh:mm:ss` display reads back as the counted seconds |
| Timers.MsRoundTrip | components/PomodoroTimer.tsx:28 | the `mm:ss` display reads back as the seconds left |
| TrackerTimer.StartGuard | components/TrackerTimer.tsx:21 | start while running does nothing. Otherwise the timer runs, holds the new session and asks for a 'track' session for the selection |
| TrackerTimer.StopReportsCount | components/TrackerTimer.tsx:22 | stop only acts while running. A held session is reported with the counted seconds and released. The count stays |
| TrackerTimer.TickAddsOne | components/TrackerTimer.tsx:17 | a tick adds one second and changes nothing else |
| TrackerTimer.ResetKeepsSession | components/TrackerTimer.tsx:23 | reset zeroes the count and stops the timer, but keeps the session id |
| TrackerTimer.RestorePersisted | components/TrackerTimer.tsx:14-15 | restoring what was persisted gives the state back. Missing fields restore as 0, false and null. An empty key changes nothing |
| TrackerTimer.Tracker.OnStart | components/TrackerTimer.tsx:21 | the component's state and request follow `Start` |
| TrackerTimer.Tracker.OnStop | components/TrackerTimer.tsx:22 | the component's state and request follow `Stop` |
| TrackerTimer.Tracker.OnTick | components/TrackerTimer.tsx:17 | the component's state follows `Tick` |
| TrackerTimer.Tracker.OnReset | components/TrackerTimer.tsx:23 | the component's state follows `Reset` |
| TrackerTimer.Tracker.OnRestore | components/TrackerTimer.tsx:14 | the component's state follows `Restore` |
| PomodoroTimer.PickGuard | components/PomodoroTimer.tsx:24 | picking a length while stopped fills the clock with it. While running nothing changes. The clock stays within the length |
| PomodoroTimer.ButtonsChooseLength | components/PomodoroTimer.tsx:32-35 | Focus picks 25 minutes and Break picks 5, only while stopped. The offered lengths are 5/10/20/30 and 5/10 |
| PomodoroTimer.StartGuard | components/PomodoroTimer.tsx:25 | start while running does nothing. Otherwise the timer runs with the clock untouched and asks for a session of the mode's type |
| PomodoroTimer.StopElapsed | components/PomodoroTimer.tsx:26 | stop reports the held session with elapsed = length − time left, between 0 and the length. It stops the clock where it is |
| PomodoroTimer.TickCountsDown | components/PomodoroTimer.tsx:20 | above one second a tick counts down by one. At one second or less it shows 0 and auto-stops. It reports the session the interval's render held, and a focus period then turns into a break without changing the length |
| PomodoroTimer.FreshStartAutoStopReportsNothing | components/PomodoroTimer.tsx:20-26 | the interval of a fresh start holds the render from before the session id arrived, so the auto-stop reports nothing and the new session stays held |
| PomodoroTimer.AutoStopFromCurrentRender | components/PomodoroTimer.tsx:20-26 | read from the current render, the auto-stop reports the held session with almost the whole length, releases it and switches focus to break |
| PomodoroTimer.HandlersKeepValid | components/PomodoroTimer.tsx:20-39 | no handler lets the time left exceed the chosen length |
| PomodoroTimer.ResetRefills | components/PomodoroTimer.tsx:39 | reset stops and refills the clock to the chosen length, keeping mode, length and session |
| PomodoroTimer.RestorePersisted | components/PomodoroTimer.tsx:17-18 | restoring what was persisted gives the state back. Missing fields default, the time left defaulting to the stored length. An empty key resets the clock to 25 minutes |
| PomodoroTimer.Pomodoro.OnFocusButton | components/PomodoroTimer.tsx:32 | the component's state follows `FocusButton` |
| PomodoroTimer.Pomodoro.OnBreakButton | components/PomodoroTimer.tsx:33 | the component's state follows `BreakButton` |
| PomodoroTimer.Pomodoro.OnOption | components/PomodoroTimer.tsx:35 | the component's state follows the chosen duration button |
| PomodoroTimer.Pomodoro.OnStart | components/PomodoroTimer.tsx:25 | the component's state and request follow `Start` |
| PomodoroTimer.Pomodoro.OnStop | components/PomodoroTimer.tsx:26 | the component's state and request follow `Stop` |
| PomodoroTimer.Pomodoro.OnTick | components/PomodoroTimer.tsx:20 | the component's state and request follow `Tick` for the interval's render |
| PomodoroTimer.Pomodoro.OnReset | components/PomodoroTimer.tsx:39 | the component's state follows `Reset` |
| PomodoroTimer.Pomodoro.OnRestore | components/PomodoroTimer.tsx:17 | the component's state follows `Restore` |
| NoteSearch.KeepMembership | app/stickies/page.tsx:81 | a note survives the filter exactly when it is listed and its lower-cased title or content contains the query |
| NoteSearch.KeepAppend | app/notes/page.tsx:140-143 | the filter keeps order: filtering a concatenation concatenates the filtered parts |
| NoteSearch.SearchMeaning | app/notes/page.tsx:137-144 | an all-whitespace filter shows every note. Otherwise exactly the matching notes are shown, in list order |
| Stickies.EffZ | app/stickies/page.tsx:22 | a note's stacking index is its zIndex, or 1 when that is 0 |
| Stickies.MaxZ | app/stickies/page.tsx:22 | the top index is at least 1, at least every note's index, and either 1 or some note's index |
| Stickies.StackOrderSorted | app/stickies/page.tsx:24-29 | `load` keeps every fetched note and orders them bottom to top |
| Stickies.PatchOnlyTarget | app/stickies/page.tsx:124-127 | a patch rewrites only the note with that id and keeps every id |
| Stickies.ApplyFieldwise | app/stickies/page.tsx:125 | the spread merge takes each field the patch carries and keeps every other field |
| Stickies.DragAndResizeTouchOnlyGeometry | app/stickies/page.tsx:110-119 | drag changes only x and y. Resize changes only x, y, width and height |
| Stickies.BringToFrontOnTop | app/stickies/page.tsx:72-76 | the raised note's index is above every other note's, and nothing else changes |
| Stickies.NewStickyFields | app/stickies/page.tsx:32-46 | a new sticky is titled 'Sticky', yellow and 260×180, at 60–120 by 60–100, above every existing note |
| Stickies.Board.Load | app/stickies/page.tsx:24-29 | the board shows the fetched notes in stacking order |
| Stickies.Board.DebounceSave | app/stickies/page.tsx:58-70 | a new save for a note replaces its pending one and the status becomes saving |
| Stickies.Board.FireSave | app/stickies/page.tsx:61-69 | the timer sends the note's pending patch, if any, and clears it |
| Stickies.Board.BringToFront | app/stickies/page.tsx:72-76 | the note is raised on the board and its new index is queued for saving |
| Stickies.Board.DragStop | app/stickies/page.tsx:110-113 | the new position is applied and queued |
| Stickies.Board.ResizeStop | app/stickies/page.tsx:114-119 | the new box is applied and queued |
| Stickies.Board.Change | app/stickies/page.tsx:124-127 | an edit is applied and queued |
| NotesPage.ReplaceSelectionShape | app/notes/page.tsx:95-111 | the new text is the old text with the selection wrapped, or "text" inserted when nothing is selected. Unwrapping gives the selection and the surrounding text back |
| NotesPage.CursorIgnoresStart | app/notes/page.tsx:105-110 | the caret lands at the wrapper-plus-selection length. That is after the wrapped text only when the selection starts at 0 |
| NotesPage.CursorMisplacedExample | app/notes/page.tsx:107-109 | bold over "cd" in "abcd" gives "ab\*\*cd\*\*" with the caret at 4, between the opening marker and the selected text |
| NotesPage.IntendedCursorFollowsSelection | app/notes/page.tsx:107-109 | the corrected caret sits right after the opening marker and the selection |
| NotesPage.ButtonsMarkers | app/notes/page.tsx:112-117 | each toolbar button wraps or prefixes the selection with its Markdown marker |
| NotesPage.StripMarksAppend | app/notes/page.tsx:169 | removing Markdown marks distributes over concatenation |
| NotesPage.StripMarksKeepsPlain | app/notes/page.tsx:169 | text without marks is unchanged |
| NotesPage.PreviewMeaning | app/notes/page.tsx:169 | the preview has no marks, has at most 120 characters, and is a prefix of the stripped content |
| NotesPage.HydrateShowsNote | app/notes/page.tsx:62-67 | selecting a note shows its id, title, content and pin flag. An empty colour shows white |
| NotesPage.LoadPicksFirst | app/notes/page.tsx:51-59 | loading replaces the list and activates the first note only when none is active |
| NotesPage.RemoveIdMembership | app/notes/page.tsx:88 | the notes remaining are exactly those with another id |
| NotesPage.DeleteNoteNextActive | app/notes/page.tsx:83-92 | an unconfirmed delete changes nothing. A confirmed one drops the note; if it was active, the next remaining note shows, and with none the editor clears |
| NotesPage.CreateNoteShowsIt | app/notes/page.tsx:71-81 | a new note gets the default fields and becomes the active one |
| NotesPage.EditorPage.OnLoad | app/notes/page.tsx:51-59 | the page's state follows `Load` |
| NotesPage.EditorPage.OnSelect | app/notes/page.tsx:161 | the page's state follows `Select` |
| NotesPage.EditorPage.OnDelete | app/notes/page.tsx:83-92 | the page's state follows `DeleteNote` |
| NotesPage.EditorPage.OnFormat | app/notes/page.tsx:95-111 | without a textarea nothing changes and no caret is set. Otherwise the content follows `ReplaceSelection`, the returned caret is its `(wrapperStart + selected).length`, and that caret is the one after the selection only when the selection starts at 0 |
| NotesPage.EditorPage.Filtered | app/notes/page.tsx:137-144 | the shown list is every note for a blank filter, and otherwise exactly the matching ones |
| Dashboard.Find | app/dashboard.tsx:37 | `find` returns a listed task with that id, or reports that none has it |
| Dashboard.SelectionRules | app/dashboard.tsx:24-25 | choosing a task clears the subtask. Choosing subtask 0 clears it, and any other id selects it |
| Dashboard.LoadSelectsFirst | app/dashboard.tsx:17 | reloading replaces the list and selects the first task only when no task is selected |
| Dashboard.FindInList | app/dashboard.tsx:36-37 | a task is found in the listing exactly when the store has it, together with its subtasks |
| Dashboard.CompletionRecordsMarker | app/dashboard.tsx:29-46 | completing always logs one 'complete' marker for the selection and clears the subtask. A selected task stays selected. With none selected, the reload selects the first task of the re-seeded, non-empty listing |
| Dashboard.TaskOnlyCompletion | app/dashboard.tsx:41-43 | with a task and no subtask selected, only that task becomes done |
| Dashboard.AllDoneMeaning | app/dashboard.tsx:38 | the parent check holds exactly when the task has subtasks and all of them are done after the update |
| Dashboard.SubtaskCompletion | app/dashboard.tsx:33-40 | with a subtask selected, that subtask becomes done. Its parent becomes done exactly when all its subtasks are done |
| Dashboard.DoneTasksMembership | app/dashboard.tsx:48 | the done list holds exactly the done tasks |
| Dashboard.DoneOfMembership | app/dashboard.tsx:49 | a task's done subtasks carry its title |
| Dashboard.DoneSubtasksMembership | app/dashboard.tsx:49 | the done-subtask list holds exactly the done subtasks of listed tasks, each with its parent's title |
| Dashboard.DashboardPage.OnSelectTask | app/dashboard.tsx:24 | the page's state follows `SelectTask` |
| Dashboard.DashboardPage.OnSelectSubtask | app/dashboard.tsx:25 | the page's state follows `SelectSubtask` |
| Dashboard.DashboardPage.OnLoad | app/dashboard.tsx:17 | reloading seeds the store if empty and selects as `Load` says |
| Dashboard.DashboardPage.OnCompleteSelected | app/dashboard.tsx:29-46 | the stores and the page end as `CompleteSelected` says |
| Dashboard.DashboardPage.CompleteTasksOn | app/dashboard.tsx:33-43 | the status updates applied to the task store are those of `CompleteTasks` |
| Settings.Reset | app/settings/page.tsx:5 | exactly the keys without a timer prefix remain, with their values |
| Settings.ResetIdempotent | app/settings/page.tsx:5 | resetting twice is resetting once |
| Settings.ResetClearsTimers | app/settings/page.tsx:5 | both timers' keys for any selection are gone, and other keys keep their values |
| Settings.LocalStorage.ResetLocal | app/settings/page.tsx:5 | the loop over the keys leaves local storage equal to `Reset` of the old contents |

## Left out

- The HTTP layer, `fetch`, JSON parsing and the Prisma client. Request bodies are datatypes, replies are values, and the database is a sequence with a counter.
- Date arithmetic, time zones and month labels. The day's bounds and `monthStart` are parameters; a month is an absolute month number.
- `setInterval`, `setTimeout` and effect scheduling. Each tick, the debounce timer firing and the interval's captured render are explicit calls or parameters.
- The render in which the session id has not yet arrived is modelled only in `FreshStartAutoStopReportsNothing`. The timer classes take the new id as a parameter of start.
- Local storage as used by the timers is modelled as the persisted and restored values. Write order and JSON encoding are not modelled.
- `Math.random()`: only the bounds of the rounded offsets are modelled, as parameters of `NewStickyBody`. `parseFloat` and the rounding of resize sizes are also left out: the resize takes integers.
- `document.execCommand`, `contentEditable` and the rich-text path of the toolbar; Markdown rendering; the `confirm()` dialog, whose answer is a parameter.
- NotesPage.Preview: counts characters, while `.slice(0, 120)` counts UTF-16 code units. For a note with characters outside the Basic Multilingual Plane (emoji, for instance) the browser's preview is shorter and may end in half of a surrogate pair; neither is modelled.
- NotesPage.ReplaceSelection: the selection offsets, the selected span and the caret count characters, while the textarea and `.length` count UTF-16 code units. With characters outside the Basic Multilingual Plane in the text, the browser's offsets and caret differ from the model's.
- Case folding is ASCII only, and whitespace is the ASCII set. Unicode folding and other whitespace characters are not modelled.
- `Number()` on route parameters, NaN and fractional numbers. Ids, coordinates and durations are integers.
- The task and subtask `PATCH`/`DELETE` routes beyond the status update the dashboard sends. Not modelled: setting 'doing' demotes the other 'doing' tasks, and deletes cascade to sessions.
- Concurrency between requests; `location.reload()` after the settings reset; the disabled state of buttons; the `today` display on the dashboard; the wiring of the `lifeos:stopTimers` event (its effect is `Stop`).
- The notes page's autosave effect and single-note removal from the sticky board. The saving indicator's timeouts are not modelled beyond the status it sets.
- NotesApi.CreateFieldwise: a title given as the empty string is kept, because `??` replaces only null and absent values. A description that says empty titles default to 'Untitled' would disagree with the code; the code is followed.

## Findings

| source | as written | input that shows it | evidently intended | confidence | as-written member | corrected member |
|---|---|---|---|---|---|---|
| app/notes/page.tsx:107-109 | after a toolbar wrap the caret is set to the length of the opening marker plus the selection, counted from the start of the text | "abcd" with "cd" selected (2..4), Bold: the text becomes "ab\*\*cd\*\*" and the caret lands at 4, between the opening marker and the selected text | the caret goes to the selection start plus that length (6), right after the wrapped selection | high, not executed | NotesPage.CursorMisplacedExample | NotesPage.IntendedCursorFollowsSelection |
| components/PomodoroTimer.tsx:20-26 | the interval is created in the render where running began. That render has no session id yet, because the id arrives after the fetch | a stopped timer with no session and 0:01 left, Start, one tick: the auto-stop sends no stop request and the new session stays held, with no duration | the auto-stop reports the session that is held when the time runs out | medium, not executed | PomodoroTimer.FreshStartAutoStopReportsNothing | PomodoroTimer.AutoStopFromCurrentRender |
