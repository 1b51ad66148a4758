# Tickit — a Dafny model of the task board

Tickit is a single-page task manager with a game layer. The user keeps a list of tasks. Each task has a title, description, priority, status, category and an experience value. Completing a task earns experience; every `level * 100` points of experience raises the user's level. A streak counts consecutive days of use. Around the list sit five views:

- a dashboard with counters, quick add, recent activity and badges;
- the filterable task list;
- a focus timer with work and break sessions;
- an analytics pie chart of tasks per category;
- a calendar (not part of this model).

The model covers the application state and its handlers (`App.tsx`), the value types (`types.ts`), and the logic of four views: `TaskView.tsx`, `FocusMode.tsx`, `Dashboard.tsx` and `AnalyticsView.tsx`. It is organised in these modules:

| file | module | what it holds |
|---|---|---|
| `types.dfy` | `Types` | `Task`, `SubTask`, `Badge`, `UserProfile`, the `Priority` and `TaskStatus` enums, and `TaskPatch`, the `Partial<Task>` passed to the add and update handlers |
| `seqs.dfy` | `Seqs` | `Filter` (JavaScript `Array.prototype.filter`), counting, and the subsequence relation |
| `text.dfy` | `Text` | ASCII lower-casing, `includes`, `trim` and a digits-only `parseInt`, together with its inverse |
| `app.dfy` | `App` | the initial user, experience grants, the daily streak, task creation, update and deletion; class `TickitApp` holds the `tasks` and `user` state and its handlers |
| `task_view.dfy` | `TaskView` | the search/status/priority filter, the save request, and the completion toggle |
| `focus_mode.dfy` | `FocusMode` | the countdown as step functions; class `FocusTimer` holds the four pieces of state; the `m:ss` display; the focus-task list |
| `dashboard.dfy` | `Dashboard` | pending and completed counters, the Total XP card, quick add, recent activity, the badge count and the greeting name |
| `analytics_view.dfy` | `AnalyticsView` | the per-category counting loop, the pie data with its placeholder, colours and legend |

Conventions used throughout:

- Inputs the source draws from the environment are parameters:
  - the UUID of a new task;
  - the current time, as epoch milliseconds;
  - ISO date strings.
- `lastActive` is held as the millisecond instant that the ISO string denotes.
- The application state `tasks` and `user`, and the focus timer's state, become fields of a class. Each handler is a method whose `ensures` ties the new state to a pure function of the old one.
- Form state held only for one view, such as the search text and the two filter selectors of the task list or the quick-add text of the dashboard, is passed as a parameter to the function that uses it.
- The properties are proved about those functions.

## Model

| member | source | states |
|---|---|---|
| App.InitialUser | App.tsx:12-26 | the starting profile is well formed at level 1 with 0 XP, 0 completed tasks, and two badges: the second locked, and the first unlocked exactly when the clock's ISO string is non-empty, which `toISOString` always is |
| App.GrantXp | App.tsx:82-99 | a grant always adds one completed task; the level rises by one exactly when `xp + amount` reaches `level * 100`, and then `level * 100` is subtracted; no field other than xp, level and completedTasks changes; a grant of at most 100 to an in-range user leaves xp in `[0, level*100)` |
| App.GrantAll | App.tsx:82-99 | successive grants add one completed task each and raise the level by at most one each |
| App.GrantAllSingle | App.tsx:82-99 | one grant in sequence is exactly `GrantXp` |
| App.SingleLevelPerGrant | App.tsx:84-91 | a single grant of 300 from the initial user gives level 2 with 200 XP, a bar beyond 100%: a grant never raises more than one level |
| App.Abs | App.tsx:38 | `Math.abs`: the result is `x` or `-x`, and at least both |
| App.StreakDays | App.tsx:36-39 | the day count is 0 only for the same instant; otherwise it is the ceiling of the absolute difference in days |
| App.EvaluateStreak | App.tsx:35-46 | the streak effect changes only streak and lastActive; either nothing changes, or lastActive becomes now and the streak is reset to 1 or incremented |
| App.StreakSameInstant | App.tsx:40-45 | reopening at the same instant leaves the profile unchanged |
| App.StreakWithinOneDay | App.tsx:41-42 | a return up to 24 hours later (a ceiling of 1) increments the streak |
| App.StreakBroken | App.tsx:43-44 | a return more than 24 hours later resets the streak to 1 |
| App.StreakIdempotent | App.tsx:35-46 | running the effect twice at the same moment equals running it once |
| App.OrDefault | App.tsx:51-58 | `value \|\| fallback` on strings: a given non-empty value is returned, and an absent or empty one gives the fallback |
| App.NewTask | App.tsx:48-61 | a new task has the given id and creation time, status TODO, 20 XP, no assignee, and a non-empty title and category |
| App.NewTaskDefaults | App.tsx:51-60 | an empty request gives "Untitled Task", MEDIUM, "General", the given today as the due date, and no tags or subtasks |
| App.NewTaskKeepsGiven | App.tsx:51-59 | a non-empty title, category or due date, a given description, a given priority, and given tags and subtasks are taken over unchanged; an empty or absent title, category or due date falls back to its default, and an absent description to the empty string |
| App.Merge | App.tsx:68 | `{ ...t, ...updates }` keeps the task's id |
| App.MergeLaws | App.tsx:68 | an empty patch changes nothing; a status patch changes only the status; applying a patch twice equals applying it once |
| App.UpdatedTasks | App.tsx:66-75 | the map keeps the list's length and every position's id |
| App.Grants | App.tsx:69-71 | the XP grants an update triggers are at most one per task |
| App.GrantsAbsent | App.tsx:67 | an id not in the list triggers no grant |
| App.Completes | App.tsx:69 | an update earns the task's XP exactly when the task was not COMPLETED and the merged task is |
| App.GrantsOnlyOnCompletion | App.tsx:69 | a patch that does not set COMPLETED triggers no grant |
| App.GrantsAt | App.tsx:66-71 | with distinct ids, the grants are exactly the task's `xpValue` when it moves to COMPLETED from another status, and nothing otherwise |
| App.UpdateGrant | App.tsx:65-76 | the user after an update is unchanged for an absent id, and is otherwise `GrantXp` of the task's value if and only if the task is being completed |
| App.UpdatedTasksStep | App.tsx:66-75 | the map over one more element appends that element's image |
| App.GrantsStep | App.tsx:66-75 | the grants over one more element append that element's grant, if any |
| App.GrantAllStep | App.tsx:82-99 | a grant at the end of a sequence is `GrantXp` applied after the earlier ones |
| App.UpdateKeepsDistinct | App.tsx:66-75 | an update keeps the ids distinct |
| App.UpdateKeepsXpInRange | App.tsx:65-99 | when task values are at most 100, an update keeps xp inside the level's bar |
| App.UpdateAbsent | App.tsx:66-75 | updating an absent id leaves the list as it was |
| App.WithoutId | App.tsx:79 | deletion keeps exactly the tasks with another id, and the id is gone |
| App.DeleteKeepsOrder | App.tsx:79 | the remaining tasks keep their order, and an absent id leaves the list unchanged |
| App.SubsequenceKeepsDistinct | App.tsx:79 | removing tasks keeps ids distinct |
| App.SubsequenceMembers | App.tsx:79 | every task left was in the list |
| App.TickitApp.constructor | App.tsx:28-30 | the app starts with no tasks and the initial user |
| App.TickitApp.StartSession | App.tsx:35-46 | the mount effect applies the streak rule to the user and leaves the tasks alone |
| App.TickitApp.AddTask | App.tsx:48-63 | the new task is put first and the rest of the list is unchanged |
| App.TickitApp.HandleXpGain | App.tsx:82-99 | the user becomes `GrantXp` of the old user |
| App.TickitApp.UpdateTask | App.tsx:65-76 | the loop's result is the mapped list; the user receives the grants of the tasks being completed; an absent id changes nothing; xp stays in range |
| App.TickitApp.DeleteTask | App.tsx:78-80 | the list becomes the order-preserving filter without the id; the user is unchanged |
| App.TickitApp.CompleteTask | App.tsx:104 | finishing a task from the focus view is `updateTask(id, { status: COMPLETED })`: the task's status becomes COMPLETED and its XP is granted if it was not already completed; an id not in the list changes neither the tasks nor the user |
| TaskView.FilteredTasks | components/TaskView.tsx:21-30 | the filtered list holds exactly the tasks matching the query, status and priority, in list order |
| TaskView.QueryMatches | components/TaskView.tsx:23-25 | the lower-cased query occurs in the lower-cased title, description or category; an empty search matches every task |
| TaskView.Shown | components/TaskView.tsx:22-28 | a selected status or priority admits only tasks that have it; no search text with both selectors on ALL admits every task |
| TaskView.NoCriteriaShowsAll | components/TaskView.tsx:21-30 | with no search text and both selectors on ALL, the whole list is shown unchanged |
| TaskView.FilteredTasksIdempotent | components/TaskView.tsx:21-30 | filtering an already filtered list with the same criteria changes nothing |
| TaskView.SaveRequest | components/TaskView.tsx:32-38 | the save request carries the typed title and category and a priority, and sets neither status nor XP |
| TaskView.SavedTask | components/TaskView.tsx:32-38 | the saved task has the selected priority (MEDIUM under ALL), the category or "General", the title or "Untitled Task", status TODO and 20 XP |
| TaskView.Toggle | components/TaskView.tsx:124 | the check button produces COMPLETED exactly when the task is not completed, and otherwise TODO |
| TaskView.ToggleRequest | components/TaskView.tsx:124 | the update sent by the check button changes only the task's status, to the toggled one, and earns XP exactly when the task was not completed |
| TaskView.ToggleTwiceRegrants | components/TaskView.tsx:124 | un-checking a completed task grants nothing; checking it again restores the task and grants its full XP a second time |
| FocusMode.TickStep | components/FocusMode.tsx:20-38 | a running timer loses one second; a paused timer with time left is unchanged; at zero the timer pauses: work becomes a 300-second break, a break becomes a 1500-second work session, and a custom session stays at 0 |
| FocusMode.CountsDown | components/FocusMode.tsx:22-25 | `k` ticks of a running timer leave `n - k` seconds |
| FocusMode.SessionsAlternate | components/FocusMode.tsx:26-34 | a full work session followed by one more tick ends as a paused 5-minute break, and a break ends as a paused 25-minute work session |
| FocusMode.ToggleStep | components/FocusMode.tsx:78 | start/pause flips `isActive` and nothing else |
| FocusMode.SetCustomStep | components/FocusMode.tsx:46-54 | a positive whole number of minutes gives a paused custom session of that many minutes; any other input changes nothing |
| FocusMode.ResetStep | components/FocusMode.tsx:86-89 | reset pauses and restores the mode's length: 25 minutes for work, 5 for a break, the parsed input for custom |
| FocusMode.FocusTimer.constructor | components/FocusMode.tsx:12-15 | a paused 25-minute work session with "25" in the custom field |
| FocusMode.FocusTimer.Tick | components/FocusMode.tsx:20-38 | the state becomes `TickStep` of the old state |
| FocusMode.FocusTimer.ToggleActive | components/FocusMode.tsx:78 | the state becomes `ToggleStep` of the old state |
| FocusMode.FocusTimer.SetCustomInput | components/FocusMode.tsx:102 | typing changes only the custom field |
| FocusMode.FocusTimer.SetCustomTimer | components/FocusMode.tsx:46-54 | the state becomes `SetCustomStep` of the old state and the input |
| FocusMode.FocusTimer.Reset | components/FocusMode.tsx:86-89 | the state becomes `ResetStep` of the old state and the input |
| FocusMode.PadSeconds | components/FocusMode.tsx:42-43 | the seconds part is always two digits |
| FocusMode.FormatTime | components/FocusMode.tsx:40-44 | the display is the minutes, a colon, and the two-digit seconds |
| FocusMode.PadSecondsValue | components/FocusMode.tsx:43 | the padded seconds read back as the same number |
| FocusMode.FormatTimeRoundTrip | components/FocusMode.tsx:40-44 | reading an `m:ss` display back gives the seconds shown |
| FocusMode.FormatTimeInjective | components/FocusMode.tsx:40-44 | two different times never display the same |
| FocusMode.IsFocusTarget | components/FocusMode.tsx:18 | a focus target is open work of HIGH or URGENT priority, so completing it from the focus view always earns its XP |
| FocusMode.FocusTasks | components/FocusMode.tsx:18 | exactly the open HIGH and URGENT tasks, in list order |
| Dashboard.PendingCount | components/Dashboard.tsx:17 | the Pending card never exceeds the number of tasks |
| Dashboard.CompletedCount | components/Dashboard.tsx:18 | the Completed card never exceeds the number of tasks |
| Dashboard.PendingPlusCompleted | components/Dashboard.tsx:17-18 | every task is counted on exactly one of the two cards |
| Dashboard.CompletingMovesBetweenCards | components/Dashboard.tsx:17-18 | completing a pending task adds one to Completed and takes one from Pending |
| Dashboard.CompletedCountSwap | components/Dashboard.tsx:18 | two lists that differ only where a pending task became completed differ by one completed task |
| Dashboard.DisplayedTotalXp | components/Dashboard.tsx:19 | the Total XP card as written falls short of the experience earned by `50 * (level - 1) * (level - 2)` |
| Dashboard.DisplayedTotalXpDrops | components/Dashboard.tsx:19 | the Total XP card as written shows 290 at level 2 with 190 XP, and 210 after a further 20-XP grant |
| Dashboard.LevelFloorXp | components/Dashboard.tsx:19 | reaching level `n` costs `50 * n * (n - 1)` experience |
| Dashboard.EarnedTotalXpGrows | components/Dashboard.tsx:19 | the corrected total rises by exactly the amount of every grant |
| Dashboard.TotalsAgreeBelowLevelThree | components/Dashboard.tsx:19 | at levels 1 and 2 the card as written and the corrected total agree |
| Dashboard.DashboardStats | components/Dashboard.tsx:16-20 | the cards with the Total XP formula corrected (see Findings): pending plus completed is the number of tasks, and the total is the experience earned |
| Dashboard.DisplayedStats | components/Dashboard.tsx:16-20 | the cards as written: the same counts, and a Total XP value `50 * (level - 1) * (level - 2)` below the earned total, so the two agree exactly at levels 1 and 2 |
| Dashboard.SubmitQuickAdd | components/Dashboard.tsx:22-27 | blank or whitespace-only text adds nothing and stays in the box; otherwise a task titled with the typed text is requested and the box is cleared |
| Dashboard.QuickAddTitle | components/Dashboard.tsx:22-27 | a quick-added task keeps the typed text untrimmed as its title, with MEDIUM priority, "General" category and status TODO |
| Dashboard.RecentTasks | components/Dashboard.tsx:87 | recent activity is the first five tasks, or all of them when there are fewer |
| Dashboard.NoTasksMessageIffNothingRecent | components/Dashboard.tsx:96 | "No tasks yet." appears exactly when the recent list is empty |
| Dashboard.UnlockedCount | components/Dashboard.tsx:106 | a badge counts as unlocked when its `unlockedAt` is present and non-empty, as `filter(b => b.unlockedAt)` tests it; the unlocked count equals the number of badges exactly when all are unlocked, and is 0 exactly when none is |
| Dashboard.UnlockedCountSpec | components/Dashboard.tsx:106 | the counting lemma behind both equivalences |
| Dashboard.FirstName | components/Dashboard.tsx:37 | the greeting name is the prefix of the name before its first space |
| AnalyticsView.CountOf | components/AnalyticsView.tsx:20-26 | a category's count never exceeds the number of tasks |
| AnalyticsView.Categories | components/AnalyticsView.tsx:20-26 | there are never more categories than tasks |
| AnalyticsView.CategoryEntries | components/AnalyticsView.tsx:20-26 | one entry per category |
| AnalyticsView.CategoryData | components/AnalyticsView.tsx:20-26 | the counting loop over an object yields one entry per category, in first-appearance order, with that category's count |
| AnalyticsView.PrefixStep | components/AnalyticsView.tsx:22-24 | counting one more task adds its category to the list if it is new and raises that category's count by one, leaving the other counts alone |
| AnalyticsView.TallyStep | components/AnalyticsView.tsx:22-24 | one pass of the loop, `counts[c] = (counts[c] \|\| 0) + 1` with the key appended on first sight, keeps keys and counts equal to the categories and counts of the tasks seen |
| AnalyticsView.TallyEntries | components/AnalyticsView.tsx:25 | after all tasks, listing the keys with their counts gives exactly the pie data |
| AnalyticsView.CategoriesMembers | components/AnalyticsView.tsx:22-23 | a category is listed exactly when some task has it, and then its count is at least 1; otherwise its count is 0 |
| AnalyticsView.CategoriesDistinct | components/AnalyticsView.tsx:23-25 | no category is listed twice |
| AnalyticsView.SumOverAppend | components/AnalyticsView.tsx:22-23 | counting one more task adds one to the total over the categories that include its own |
| AnalyticsView.SumOfCounts | components/AnalyticsView.tsx:20-26 | the counts over the listed categories add up to the number of tasks |
| AnalyticsView.SumValuesIsSumOver | components/AnalyticsView.tsx:25 | the entries' values add up to the sum of the counts |
| AnalyticsView.CategoryEntriesSum | components/AnalyticsView.tsx:20-26 | the slices add up to the number of tasks, each slice holds at least one task, and names are distinct |
| AnalyticsView.CategoryEntriesNames | components/AnalyticsView.tsx:20-26 | a category has a slice exactly when some task has that category |
| AnalyticsView.CategoriesInFirstAppearanceOrder | components/AnalyticsView.tsx:22-25 | slices are in order of first appearance: every task of a later slice's category comes after a task of each earlier one |
| AnalyticsView.ColorAt | components/AnalyticsView.tsx:28 | every slice's colour is one of the five palette colours |
| AnalyticsView.ColorsCycle | components/AnalyticsView.tsx:109 | colours repeat every five slices, and the first five are all different |
| AnalyticsView.PieData | components/AnalyticsView.tsx:100 | the pie always has a slice: the data, or a single "None" slice of 1 when there is none |
| AnalyticsView.Legend | components/AnalyticsView.tsx:119-121 | the legend shows the first four entries, each in its slice's colour |
| Text.ToLower | components/TaskView.tsx:23-25 | `toLowerCase` over ASCII: same length, no upper-case letter left, upper-case letters moved down by 32, every other character kept |
| Text.ContainsAt | components/TaskView.tsx:23-25 | `includes` holds exactly when the needle occurs at some position |
| Text.LeadingWhitespace | components/Dashboard.tsx:24 | the whitespace run that `trim` removes from the front: all of it is whitespace, and the character after it is not |
| Text.Trim | components/Dashboard.tsx:24 | `trim`: the result is the input with its leading and its trailing whitespace runs removed, so neither end of it is whitespace, and text whose ends are not whitespace is returned unchanged |
| Text.TrimEmptyIffBlank | components/Dashboard.tsx:24 | the trimmed text is empty exactly when every character is whitespace |
| Text.ParseNat | components/FocusMode.tsx:47 | a number is read exactly when the text is a non-empty string of digits |
| Text.NatToString | components/FocusMode.tsx:41-43 | `toString` of a whole number: a non-empty run of digits with no leading zero, one digit exactly below 10 |
| Text.NatToStringRoundTrip | components/FocusMode.tsx:41-43 | the decimal text of a number reads back as that number |

## Left out

- Random and clock inputs are parameters. These are `crypto.randomUUID()`, `new Date()` and `toISOString()`. ISO-date formatting and parsing are not modelled.
- Persistence through `useLocalStorage` is left out: state is held in memory.
- The network suggestion service `services/geminiService.ts` is not part of this model.
- `CalendarView.tsx` and `Sidebar.tsx` are not part of this model. Neither is the tab switching in `App.tsx`.
- The analytics completion chart is not modelled. Its data comes from `Math.random` and its stat cards are hard-coded.
- Progress-bar percentages are floating-point display values and are not modelled.
- `setInterval` scheduling is not modelled. One firing of the countdown effect is `FocusMode.FocusTimer.Tick`.
- React batching and stale closures are not modelled. Handlers run one after another, each seeing the state the previous one left. In the source, `handleXpGain` reads the `user` captured by the render. So two completions in one `tasks.map` would each start from the same user, and the later `setUser` would win. With distinct ids at most one grant occurs per update, so the two agree for every update the model admits.
- `Text.ToLower`, `Text.Trim` and `Text.ParseNat` cover ASCII only. They do not model Unicode case mapping or Unicode white space. They also do not model `parseInt` accepting a sign, leading spaces or trailing garbage: `"25min"` is rejected here but read as 25 by JavaScript.
- `Types.TaskPatch` has no `id` field. An update that renames a task's id is not modelled, so ids stay distinct.
- Clearing `assignedTo` by passing `undefined` in an update is not distinguished from leaving it out.
- `FocusMode.FocusTimer.Reset`: requires that the custom input parses as digits whenever the mode is custom. For any other input JavaScript's `parseInt(customInput) * 60` stores something the model does not: `NaN` for text that does not start with a number, a negative time for a signed input such as "-5" (which would break `timeLeft >= 0`), and the leading digits' value for "2.5" or "25min".
- `FocusMode.ResetStep`: carries the same requirement as `FocusMode.FocusTimer.Reset`, for the same reason.
- `AnalyticsView.CategoryData`: requires every category to be a plain object key. That rules out canonical array indices such as "3", which JavaScript lists first in numeric order. It also rules out names an empty object inherits, such as "constructor", where `counts[c] || 0` would not be 0.
- Form-field resets after saving and the modal and custom-input visibility flags are UI state and are not modelled.
- The streak day count is the ceiling of the elapsed time, as in the source. So any return within 24 hours, even on the same calendar day, increments the streak. This is kept as behaviour.

## Findings

| source | as written | input that shows it | evidently intended | confidence | as-written member | corrected member |
|---|---|---|---|---|---|---|
| components/Dashboard.tsx:19 | Total XP is `xp + (level - 1) * 100`. That counts 100 for every level passed, but level `n` costs `n * 100`. | Level 2 with 190 XP shows 290. Completing a 20-XP task gives level 3 with 10 XP, and the card drops to 210. | The total of experience earned, which rises by every grant: `50 * level * (level - 1) + xp`. | medium; not executed | Dashboard.DisplayedTotalXp | Dashboard.EarnedTotalXpGrows |
