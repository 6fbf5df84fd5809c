# Daily tasks: selection engine and task pool, modelled in Dafny

This project models the core of a small "daily tasks" application:

- the **daily selection engine** (`useTaskManager`). It draws up to 3–5 daily, 1–2 weekly and 0–1 monthly templates from a task pool (fewer when a group is smaller), once per UTC day unless refreshed. It turns them into incomplete task instances and stores them as the day's record. Tasks can then be toggled complete, and the engine reports progress as a percentage;
- the **task pool store** (`useTaskPool`). It seeds the pool from a built-in catalog, or loads it from storage. It adds, edits and deletes templates, normalising names and descriptions with `trim`, and hands an id-free view to the engine;
- the **seed catalog** (`TASK_POOL`): 28 templates built with `createTask`.

The hooks' state becomes immutable records. Browser storage is a field of those records, already parsed. Everything the platform supplies is an explicit parameter:

- the ISO timestamp;
- the `Math.random()` rolls;
- the permutation each shuffle produces;
- the generated ids;
- the creation times.

Each operation is a pure function from the old record to the new one.

Modules, one per file:

| module | file | models |
|---|---|---|
| `Wrappers` | wrappers.dfy | `Option` |
| `Entities` | entities.dfy | `TaskFrequency`, `Task`, `DailyTasks`, the id-free template |
| `Text` | text.dfy | ECMAScript `String.prototype.trim` |
| `Sampling` | sampling.dfy | `getRandomTasks` (shuffle then prefix) |
| `TaskManager` | task_manager.dfy | the selection engine |
| `Seed` | seed.dfy | `createTask` and `TASK_POOL` |
| `TaskPool` | task_pool.dfy | the pool store |
| `Scenarios` | scenarios.dfy | the two hooks wired as the app wires them, on the seed and on small pools |

The "today" used to match the stored record is the date part of `new Date().toISOString()`. That is the **UTC** date, not the local calendar date. The model follows the code: `TodayString` takes the ISO string, and a "day" in every lemma is a UTC day.

## Model

| member | source | states |
|---|---|---|
| Sampling.Pick | src/hooks/useTaskManager.ts:10-12 | Rearranging by a position list yields exactly the elements at those positions, in order |
| Sampling.PickSubMultiset | src/hooks/useTaskManager.ts:10-12 | Picking along distinct in-range positions never yields an element more often than the source holds it |
| Sampling.RandomTasks | src/hooks/useTaskManager.ts:10-13 | `getRandomTasks(pool, count)` returns `min(count, pool.length)` elements: the first ones of the shuffled copy, each from the pool, none more often than in the pool |
| TaskManager.TodayString | src/hooks/useTaskManager.ts:8 | The day is the longest `T`-free prefix of the ISO timestamp, and `T` follows it when the timestamp is longer |
| TaskManager.OfFrequency | src/hooks/useTaskManager.ts:23 | Filtering a frequency keeps only templates of that frequency and never grows the list |
| TaskManager.OfFrequencyMembers | src/hooks/useTaskManager.ts:23 | A template is in a frequency group iff it is in the pool with that frequency |
| TaskManager.OfFrequencyAppend | src/hooks/useTaskManager.ts:23 | Filtering distributes over concatenation |
| TaskManager.GroupsPartitionPool | src/hooks/useTaskManager.ts:23-30 | The daily, weekly and monthly groups together hold exactly the pool's templates, as multisets |
| TaskManager.FilterRuns | src/hooks/useTaskManager.ts:23-30 | A daily run, a weekly run and a monthly run filter back to exactly those runs |
| TaskManager.WeeklyTarget | src/hooks/useTaskManager.ts:27 | One or two weekly tasks are asked for, and two exactly when the roll exceeds 0.5 |
| TaskManager.DailyTarget | src/hooks/useTaskManager.ts:34 | `3 + floor(roll * 3)` lies in 3..5, and the roll sits in the third of [0,1) that the target names |
| TaskManager.GroupPicksHaveFrequency | src/hooks/useTaskManager.ts:23-34 | Every template drawn from the group of a frequency has that frequency |
| TaskManager.MonthlyDrawn | src/hooks/useTaskManager.ts:31 | A monthly template is drawn at all exactly when the roll exceeds 0.7 |
| TaskManager.DailyPicks | src/hooks/useTaskManager.ts:34 | The daily picks are `DailyCount` daily templates, none taken more often than the daily group holds it |
| TaskManager.WeeklyPicks | src/hooks/useTaskManager.ts:26-27 | The weekly picks are `WeeklyCount` weekly templates, none taken more often than the weekly group holds it |
| TaskManager.MonthlyPicks | src/hooks/useTaskManager.ts:30-31 | The monthly picks are `MonthlyCount` monthly templates, none taken more often than the monthly group holds it |
| TaskManager.DailyCount | src/hooks/useTaskManager.ts:34 | The number of daily picks is at most 5 and at most the size of the daily group |
| TaskManager.WeeklyCount | src/hooks/useTaskManager.ts:27 | The number of weekly picks is at most 2 and at most the size of the weekly group |
| TaskManager.MonthlyCount | src/hooks/useTaskManager.ts:31 | The number of monthly picks is at most 1, and it is 1 exactly when the roll exceeds 0.7 and the monthly group is not empty |
| TaskManager.Picks | src/hooks/useTaskManager.ts:37-41 | The picks are a run of `DailyCount` daily templates, then `WeeklyCount` weekly ones, then `MonthlyCount` monthly ones, and nothing else |
| TaskManager.PicksSubMultiset | src/hooks/useTaskManager.ts:21-41 | No template is picked more often than the pool holds it, so no template appears twice unless the pool repeats it |
| TaskManager.GroupSizeBounds | src/hooks/useTaskManager.ts:25-34 | At most 5 daily, 2 weekly and 1 monthly picks (8 in all); each group's size is its roll's target whenever the group is large enough |
| TaskManager.Materialise | src/hooks/useTaskManager.ts:43-48 | The n-th pick becomes a task that copies the template's fields, takes the n-th id and creation time, and is not completed |
| TaskManager.SelectDailyTasks | src/hooks/useTaskManager.ts:21-49 | `selectDailyTasks` returns one task per pick that copies the pick's template, is not completed and has the n-th supplied id and creation time, and every task's template is in the pool |
| TaskManager.LoadTasks | src/hooks/useTaskManager.ts:55-86 | A record stored for today is reused as is; otherwise an empty pool leaves the state unchanged; otherwise a fresh, not-all-completed record of the new selection, dated today, is stored and shown |
| TaskManager.LoadTasksIdempotent | src/hooks/useTaskManager.ts:55-86 | Loading again on the same UTC day, with any draws, gives the state the first load gave |
| TaskManager.CacheHit | src/hooks/useTaskManager.ts:59-63 | The cache path is taken exactly when a record is stored and its date equals today's |
| TaskManager.CacheHitIgnoresPool | src/hooks/useTaskManager.ts:59-67 | On a same-day cache hit the pool and the draws do not matter, so pool edits never change today's selection |
| TaskManager.FreshRecordConsistency | src/hooks/useTaskManager.ts:76-81 | A freshly generated record's `allCompleted: false` agrees with its tasks iff the selection is non-empty |
| TaskManager.NonEmptyPoolEmptySelection | src/hooks/useTaskManager.ts:21-49 | A pool holding only one monthly template yields an empty selection when the monthly roll is at most 0.7 |
| Entities.AllCompleted | src/hooks/useTaskManager.ts:99 | Every task is completed, which holds of an empty list |
| TaskManager.ToggleTasks | src/hooks/useTaskManager.ts:95-97 | Toggling changes no field but `completed`, and flips a task's flag exactly when its id is the toggled id |
| TaskManager.ToggleTasksInvolutive | src/hooks/useTaskManager.ts:95-97 | Toggling the same id twice restores the task list |
| TaskManager.ToggleUnknownId | src/hooks/useTaskManager.ts:95-97 | Toggling an id no task carries leaves the tasks unchanged |
| TaskManager.ToggleUniqueId | src/hooks/useTaskManager.ts:95-97 | Toggling an id carried by exactly one task flips that task's flag and nothing else |
| TaskManager.ToggleTaskCompletion | src/hooks/useTaskManager.ts:92-109 | Without a selection nothing happens; otherwise the toggled tasks are stored and shown, the date is kept, and `allCompleted` is recomputed so that it agrees with the tasks |
| TaskManager.ToggleTwice | src/hooks/useTaskManager.ts:92-109 | Toggling an id twice restores the tasks and the date; a record whose flag already agreed comes back whole, now also stored |
| TaskManager.CompletedCount | src/hooks/useTaskManager.ts:113 | The completed count is at most the number of tasks; it equals it iff all are completed, and it is 0 iff none is |
| TaskManager.Percent | src/hooks/useTaskManager.ts:114 | `c / n * 100` lies in [0, 100], satisfies `p * n == 100 * c`, and is 100 iff `c == n` and 0 iff `c == 0` |
| TaskManager.Ratio | src/hooks/useTaskManager.ts:114 | `c / m` for `0 <= c <= m` lies in [0, 1], undoes multiplication by `m`, and is 0 or 1 exactly at the ends |
| TaskManager.Progress | src/hooks/useTaskManager.ts:111-115 | Progress lies in [0, 100], is 0 without a selection or without tasks, and otherwise is the completed share times 100 (no division by zero) |
| TaskManager.ProgressEnds | src/hooks/useTaskManager.ts:111-115 | With tasks, progress is 100 iff every task is completed, and 0 iff none is |
| TaskManager.RefreshTasks | src/hooks/useTaskManager.ts:117-120 | Refreshing bypasses the cache: a non-empty pool always yields a freshly generated record dated today; an empty pool leaves storage cleared and the shown selection as it was |
| Seed.CreateTask | src/data/taskPool.ts:3-11 | `createTask` builds a template that holds exactly its name, frequency and description |
| Seed.SeedLayout | src/data/taskPool.ts:13-47 | The catalog has 28 entries: positions 0–7 daily, 8–17 weekly, 18–27 monthly |
| Seed.SeedRuns | src/data/taskPool.ts:14-46 | Each of the three runs holds templates of one frequency only |
| Seed.SeedFields | src/data/taskPool.ts:15-46 | Every entry has a non-empty name and a present, non-empty description |
| Seed.SeedNamesDistinct | src/data/taskPool.ts:15-46 | The 28 names are pairwise distinct |
| Seed.SeedTrimmed | src/data/taskPool.ts:15-46 | No entry's name or description starts or ends with white space |
| Text.IsSpace | src/hooks/useTaskPool.ts:64-65 | The characters `trim` removes are exactly ECMAScript WhiteSpace (tab, vertical tab, form feed, space, no-break space, the byte-order mark and the other Zs separators) and LineTerminator (LF, CR, U+2028, U+2029) |
| Text.SpaceRunEnd | src/hooks/useTaskPool.ts:64 | The scan from `i` stops at the first non-space character (or the end), having passed only spaces |
| Text.SpaceRunStart | src/hooks/useTaskPool.ts:64 | The backward scan from `j` stops after the last non-space character (or at `lo`), having passed only spaces |
| Text.Trim | src/hooks/useTaskPool.ts:64-65 | `trim` returns a string no longer than its input that neither starts nor ends with white space |
| Text.TrimSlice | src/hooks/useTaskPool.ts:64-65 | `trim` keeps the infix between the leading and the trailing run of white space, and what it drops is all white space |
| Text.TrimFixpoint | src/hooks/useTaskPool.ts:64-65 | `trim` leaves a string unchanged iff the string neither starts nor ends with white space |
| Text.TrimIdempotent | src/hooks/useTaskPool.ts:64-65 | Trimming twice is trimming once |
| TaskPool.ConvertToTaskPoolItems | src/hooks/useTaskPool.ts:22-29 | Each template becomes an entry at the same position, with the same name, description and frequency and the n-th fresh id |
| TaskPool.DefaultPool | src/hooks/useTaskPool.ts:43-52 | The default pool has one entry per catalog template, at the same position, with the template's fields and the n-th fresh id |
| TaskPool.DefaultPoolNormalised | src/hooks/useTaskPool.ts:43-52 | Every entry of the default pool has a non-empty name and an absent or non-empty description, none of them starting or ending with white space, as the add and edit operations would store them |
| TaskPool.LoadTaskPool | src/hooks/useTaskPool.ts:34-54 | A parsed stored pool is adopted as is; an absent or unparseable one is replaced by the catalog with fresh ids, which is written back; afterwards storage and memory agree |
| TaskPool.SaveTaskPool | src/hooks/useTaskPool.ts:56-59 | Saving puts the same pool in storage and in memory |
| TaskPool.NormalDescription | src/hooks/useTaskPool.ts:65 | The stored description (the trimmed text, or `undefined` when that is empty) is absent iff the description is all white space; otherwise it is the trimmed, non-empty text |
| TaskPool.FromForm | src/hooks/useTaskPool.ts:62-67 | A submitted form becomes an entry with the given id, the trimmed name, the normalised description and the form's frequency |
| TaskPool.AddTask | src/hooks/useTaskPool.ts:61-71 | Adding appends exactly one entry built from the form, keeps every earlier entry, and saves |
| TaskPool.EditEntries | src/hooks/useTaskPool.ts:74-83 | Editing keeps the length and every id; entries with another id are unchanged; entries with the id take the form's fields |
| TaskPool.EditTask | src/hooks/useTaskPool.ts:73-85 | `editTask` saves the edited entries |
| TaskPool.WithoutId | src/hooks/useTaskPool.ts:88 | Removing an id leaves no entry with that id and never grows the pool |
| TaskPool.WithoutIdMembers | src/hooks/useTaskPool.ts:88 | An entry survives deleting an id iff it was in the pool with another id |
| TaskPool.WithoutIdAppend | src/hooks/useTaskPool.ts:88 | Deleting works run by run, so survivors keep their relative order |
| TaskPool.WithoutUnknownId | src/hooks/useTaskPool.ts:88 | Deleting an id no entry carries changes nothing |
| TaskPool.DeleteTask | src/hooks/useTaskPool.ts:87-90 | `deleteTask` saves exactly the entries with another id, in order |
| TaskPool.GetTaskPoolForSelection | src/hooks/useTaskPool.ts:92-98 | The selection view has one id-free template per entry, field for field |
| TaskPool.ConvertThenView | src/hooks/useTaskPool.ts:22-29 | Giving templates ids and taking the view again returns the templates |
| TaskPool.FromFormNormalised | src/hooks/useTaskPool.ts:61-85 | A form with a non-blank name yields a normalised entry: trimmed non-empty name, description absent or trimmed and non-empty |
| TaskPool.FormFor | src/components/ControlPanel.tsx:59-63 | The edit form starts with the entry's name and frequency, and its description or the empty string when it has none |
| TaskPool.FormRoundTrip | src/components/ControlPanel.tsx:59-63 | A normalised entry, loaded into the edit form (an absent description shown as `''`) and submitted unchanged, is rebuilt exactly |
| TaskPool.EditRoundTrip | src/components/ControlPanel.tsx:38-43 | Submitting the edit form of an entry with an unshared id, unchanged, leaves the pool as it was |
| TaskPool.EditOwnFields | src/hooks/useTaskPool.ts:74-83 | Editing an unshared id with the fields the entry already has changes nothing |
| TaskPool.EditEntriesIdentity | src/hooks/useTaskPool.ts:74-83 | Editing changes nothing when every entry with the id already holds what the form writes |
| TaskPool.EditUnknownId | src/hooks/useTaskPool.ts:74-83 | Editing an id no entry carries leaves the pool's entries unchanged |
| TaskPool.AddKeepsNormalised | src/hooks/useTaskPool.ts:61-71 | Adding keeps every entry of a normalised pool normalised |
| TaskPool.EditKeepsNormalised | src/hooks/useTaskPool.ts:73-85 | Editing keeps every entry of a normalised pool normalised |
| TaskPool.DeleteKeepsNormalised | src/hooks/useTaskPool.ts:87-90 | Deleting keeps every entry of a normalised pool normalised |
| Scenarios.SeedSelectionBounds | src/data/taskPool.ts:13-47 | On the seeded pool the group caps never bind: exactly the rolled 3–5 daily, 1–2 weekly and 0–1 monthly tasks, 4 to 8 in all |
| Scenarios.SeedGroups | src/data/taskPool.ts:13-47 | Filtering the catalog by frequency yields its 8 daily, 10 weekly and 10 monthly runs |
| Scenarios.TwoDailyOneWeeklyGroups | src/hooks/useTaskManager.ts:23-30 | A pool of two daily templates and one weekly one groups into its first two templates, its third, and nothing |
| Scenarios.TwoDailyOneWeeklyPicks | src/hooks/useTaskManager.ts:21-41 | Such a pool yields both daily templates, in either order, then the weekly one |
| Scenarios.TwoDailyOneWeeklySelection | src/hooks/useTaskManager.ts:55-86 | With no stored record, loading a pool of two daily templates and one weekly one stores and shows one record, dated today and not all completed, of three tasks, none of them completed, with the first three supplied ids and creation times: the two daily templates in some order, then the weekly one |
| Scenarios.TwoDailyOneWeeklyCompleted | src/hooks/useTaskManager.ts:92-115 | Toggling each of those three tasks once (distinct ids) makes `allCompleted` true and progress 100 |
| Scenarios.ToggleEachOnce | src/hooks/useTaskManager.ts:95-97 | Starting from three tasks that are none of them completed and have pairwise distinct ids, toggling each id once, one after the other, leaves all three completed |
| Scenarios.ProgressHalf | src/hooks/useTaskManager.ts:111-115 | Two tasks, one of them completed, give progress 50 |

## Left out

- React state, effects and re-rendering are not modelled. Each hook operation is a function from the old record to the new one. The loading flag and the effects that call `loadTasks` and `loadTaskPool` on mount are not modelled.
- Browser storage and JSON are not modelled as strings. Each storage slot is already parsed.
  - In `loadTasks`, `JSON.parse` can throw on a corrupt record, and nothing catches it. The model assumes the stored record is well formed.
  - In `loadTaskPool`, a stored value that parses but is not a pool is adopted as it is in the code. The model only has well-formed pools.
  - An empty stored string is falsy in `if (stored)`, so it behaves like an absent key. The model writes it as `None`.
- Randomness becomes a parameter. The rolls are reals in [0, 1). A shuffle by `sort(() => 0.5 - Math.random())` is some permutation, but not a uniform one, so the model accepts any permutation. No statement about probabilities is made.
- `generateTaskId` becomes a supplied id function. Nothing is proved about id uniqueness, which the code does not guarantee either. Lemmas that need distinct ids take that as a precondition.
- `new Date()` for `createdAt` becomes a supplied timestamp function. It is carried along, never inspected.
- Floating point is not modelled: `Math.floor(Math.random() * 3)` and the progress ratio use exact reals. The app's display rounding (`Math.round`) belongs to the UI.
- TaskPool.AddTask: requires a name that is not blank after `trim`, because the only caller, the task form (src/components/TaskForm.tsx:38), submits nothing otherwise. The hook itself would store an empty name.
- TaskPool.EditTask: requires a name that is not blank after `trim`, for the same reason.
- The two hooks keep separate copies of their state. The model connects them only where the app does: the engine is fed `getTaskPoolForSelection()`.
- `allCompleted` is stored as `false` on a fresh record even when the selection is empty, although `every` on an empty list is true. This happens when the pool is non-empty but holds only monthly templates and the monthly roll fails. The model keeps the code's behaviour, and `TaskManager.FreshRecordConsistency` states exactly when the flag agrees with the tasks.
