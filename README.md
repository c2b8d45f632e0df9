# Task dashboard: a Dafny model of its query and update engine

The dashboard shows a list of customer-service tasks. The user can search them, filter them by status, filter them further by priority, owner, type and due-date range, and sort them by a column. The user can also create tasks, change their status or priority, append notes, select rows, and validate a new-task form. This project models the logic behind those screens and proves what it promises:

- **The records and unions** of `types/index.ts` (`Types`): closed enumerations become datatypes, so a status, priority, filter, sort field, note kind or event kind outside its union cannot be built; the optional notes, events and tickets lists are `Option`s that every consumer reads as empty when absent.
- **The query on the page** (`app/page.tsx`):
  - Each filter step is a guarded criterion (`Query`).
  - Their chain is one filter by the conjunction of the active criteria (`Query.NarrowIsFilter`).
  - The comparator is consistent. `Array.prototype.sort` is modelled as a stable sort, proved sorted, a permutation, stable, and the only sorted stable arrangement (`Sorting`).
  - The page object keeps its `tasks` state in an `array`, so the in-place sort is modelled as it happens. When no filter fires, the sort reorders the state array itself (`Page.NarrowAll`, `Page.Dashboard.FilteredAndSortedTasks`).
- **The store updates** of the page (`Store`, `Page.Dashboard`): selection, sort header, creation, and id-matched updates.
- **The components that feed the page:**
  - the advanced-filter panel (`Filters`);
  - the task table (`Table`);
  - the task detail modal and its note editor (`TaskDetail`);
  - the new-task form (`AddTask`);
  - the sidebar (`Sidebar`);
  - the notification panel's time buckets and unread counter (`Notifications`).
- **The nine sample tasks** (`MockData`, `MockSearch`, with `SampleText` proving where the word "test" does and does not occur in them). Concrete scenarios run the page's query over them.

The model follows the code on these points:
- The search query is not trimmed (`app/page.tsx:31-32`). A query of spaces searches for spaces, rather than matching everything.
- The query result is not always a fresh view. When no criterion fires, `filtered` is the `tasks` state array and `sort` reorders it in place (`app/page.tsx:29,64`). `Page.Dashboard.FilteredAndSortedTasks` states exactly when the state is reordered.
- Due dates and date bounds are compared as ISO `YYYY-MM-DD` strings, not as parsed calendar instants.

Clocks are parameters:
- `nowMs` stands for `Date.now()`.
- `createdAt`, `eventAt` and `timestamp` stand for `new Date().toISOString()`.
- `diffMs` stands for the elapsed milliseconds in `formatTimestamp`.

## Model

| member | source | states |
|---|---|---|
| Types.EnumNamesExact | types/index.ts:7-8 | Status has exactly the five run-time strings and Priority exactly the four; distinct values have distinct strings |
| Lists.Filter | app/page.tsx:33-61 | `filter` keeps exactly the elements satisfying the predicate, each as often as in the input, and never lengthens the list |
| Lists.FilterAppend | app/page.tsx:33-61 | filtering distributes over concatenation, so survivors keep their relative order |
| Lists.FilterFuse | app/page.tsx:33-61 | two filters in a row are one filter by the conjunction |
| Lists.FilterKeepsAll | app/page.tsx:33-61 | a filter that every element passes returns the list unchanged |
| Lists.RemoveAll | app/page.tsx:99 | `filter(y => y !== x)` removes every occurrence of x and keeps every other value as often as before |
| Lists.RemoveAllAppend | components/layout/Sidebar.tsx:65 | removal distributes over concatenation, so the remaining values keep their order |
| Lists.RemoveAllAbsent | app/page.tsx:99 | removing an absent value returns the list unchanged |
| Strings.Lower | app/page.tsx:32-38 | `toLowerCase` keeps the length |
| Strings.LowerAt | app/page.tsx:32-38 | each character is folded on its own, and no capital survives |
| Strings.LowerNoUpper | app/page.tsx:32-38 | a string without capitals is its own lower case |
| Strings.LowerIdempotent | app/page.tsx:32 | lower-casing twice is lower-casing once |
| Strings.ContainsIff | app/page.tsx:34-38 | `includes` holds iff the query occurs as a slice at some offset |
| Strings.TrimStartEmptyIff | components/modals/AddTaskModal.tsx:38-52 | trimming the start leaves nothing iff every character is white space |
| Strings.TrimEndEmptyIff | components/modals/AddTaskModal.tsx:38-52 | trimming the end leaves nothing iff every character is white space |
| Strings.BlankIff | components/modals/AddTaskModal.tsx:38-52 | `!s.trim()` holds iff every character is ECMAScript white space |
| Strings.LessIsUtf16Order | app/page.tsx:72-73 | string `<`, compared character by character, is exactly the lexicographic order of the UTF-16 code units, a proper prefix being smaller |
| Strings.UnitsLessFirstDiffer | app/page.tsx:72-73 | the first differing characters decide the code-unit order whatever follows, since no character's units are a prefix of another's |
| Strings.SurrogatesSortEarly | app/page.tsx:72-73 | U+1F600 sorts before U+FF61, because its high surrogate 0xD83D is below 0xFF61 |
| Strings.LessTotal | app/page.tsx:72-73 | JavaScript string `<` is total on distinct strings (with LessIrreflexive, LessAsymmetric, LessTransitive: a strict total order) |
| Strings.LessIrreflexive | app/page.tsx:72-73 | no string is `<` itself |
| Strings.LessAsymmetric | app/page.tsx:72-73 | `a < b` excludes `b < a` |
| Strings.LessTransitive | app/page.tsx:72-73 | string `<` is transitive |
| Strings.IntToStringRoundTrip | app/page.tsx:123 | the decimal text of an integer reads back as that integer |
| Query.SearchMeaning | app/page.tsx:31-40 | a task matches iff the lower-cased query occurs in one of the five lower-cased searched fields (both directions) |
| Query.SearchIgnoresQueryCase | app/page.tsx:32 | the search result does not depend on the case of the query |
| Query.SearchIgnoresCodeAndType | app/page.tsx:33-39 | customerCode and type are never searched |
| Query.StatusFilterMeaning | app/page.tsx:42-46 | a status filter other than `all` keeps exactly the tasks whose status is the one the filter names |
| Query.InProgressOnlyInAll | app/page.tsx:42-46 | an "In Progress" task passes no status filter except `all` |
| Query.DueBoundsInclusive | app/page.tsx:57-62 | both date bounds are inclusive |
| Query.FiredMeaning | app/page.tsx:31-62 | the fired criteria are exactly those whose guard is truthy: non-empty query, filter not `all`, non-empty lists, non-empty bounds |
| Query.PassesMeaning | app/page.tsx:31-62 | a task survives iff it meets every active criterion; inactive ones are skipped (AND of the active filters, both directions) |
| Query.PassesSound | app/page.tsx:31-62 | a surviving task meets every active criterion |
| Query.PassesComplete | app/page.tsx:31-62 | a task meeting every active criterion survives |
| Query.ApplyAllIsFilter | app/page.tsx:29-62 | the chain of guarded filters equals one filter by the conjunction of the fired criteria |
| Query.NarrowIsFilter | app/page.tsx:28-62 | the narrowed list is exactly the passing tasks, in input order, with their multiplicities |
| Query.FiredEmptyIff | app/page.tsx:31-62 | nothing fires iff every guard is falsy |
| Query.NothingFiredKeepsAll | app/page.tsx:29-62 | when nothing fires the list is unchanged |
| Query.NarrowStricter | app/page.tsx:48-62 | a stricter configuration yields the looser result filtered once more, so adding a filter never enlarges the result |
| Query.AddPriorityFilter | app/page.tsx:48-50 | turning on a priority list is one more AND on the previous result |
| Query.CountsPartition | app/page.tsx:80-88 | completed + pending + overdue + cancelled + #In Progress = all |
| Query.CountsPermutationInvariant | app/page.tsx:80-88 | the counts depend only on the multiset of tasks, so the in-place sort leaves them alone |
| Query.NarrowStatusOnly | app/page.tsx:42-46 | with only a status filter set, the page shows the tasks with that status, in order |
| Query.CountIsStatusFilter | app/page.tsx:80-88 | each status count is the length of the list the matching status filter shows when nothing else filters |
| Sorting.Compare | app/page.tsx:64-75 | the comparator returns -1, 0 or 1 |
| Sorting.CompareMeaning | app/page.tsx:64-75 | compare ≤ 0 iff the lower-cased keys are non-decreasing for `asc` and non-increasing for `desc` |
| Sorting.CompareZeroIff | app/page.tsx:72-74 | the comparator returns 0 exactly on equal keys, in both orders |
| Sorting.CompareTransitive | app/page.tsx:64-75 | "not after" is transitive |
| Sorting.TaskComparatorConsistent | app/page.tsx:64-75 | the comparator is antisymmetric, transitive and zero exactly on equal keys |
| Sorting.SortByPermutation | app/page.tsx:64 | the stable sort returns a permutation of its input |
| Sorting.SortBySorted | app/page.tsx:64 | the stable sort's result is ordered by any consistent comparator |
| Sorting.SortByStable | app/page.tsx:64 | for every key, the elements with that key keep their input order |
| Sorting.SortByUnique | app/page.tsx:64 | a sorted arrangement that is stable for every key is the sort's result |
| Sorting.StableSortSortedPermutation | app/page.tsx:64-75 | the page's sort is a permutation of the filtered list, ordered by key in the requested direction |
| Sorting.StableSortStable | app/page.tsx:64-75 | tasks with equal keys keep their input order in both directions |
| Sorting.StableSortUnique | app/page.tsx:64-75 | any stable engine sort yields exactly StableSort |
| Sorting.PriorityAscendingIsAlphabetical | app/page.tsx:64-75 | priority ascending is Critical < High < Low < Medium (alphabetical, not severity) |
| Sorting.StatusAscendingIsAlphabetical | app/page.tsx:64-75 | status ascending is Cancelled < Completed < In Progress < Overdue < Pending |
| Sorting.AscendingGroups | app/page.tsx:64-75 | an ascending sort lists the tasks key group by key group in increasing key order, each group in input order |
| Store.SelectionMeaning | app/page.tsx:95-101 | selecting puts the id in the list once more; deselecting removes every occurrence; other ids keep their multiplicity |
| Store.SelectDeselectRestores | app/page.tsx:95-101 | selecting an unselected row and deselecting it restores the list |
| Store.SortClickMeaning | app/page.tsx:103-110 | the clicked field becomes current; the order flips iff it already was, otherwise resets to `asc` |
| Store.SortClickTwice | app/page.tsx:103-110 | two clicks on the current field restore the sort state |
| Store.SortNewFieldTwice | app/page.tsx:103-110 | two clicks on a new field leave it sorted `desc` |
| Store.BuildTaskMeaning | app/page.tsx:120-134 | the new task carries the given fields, the clock as its id, no notes or tickets, and exactly one `created` event |
| Store.AppendedMeaning | app/page.tsx:135 | creation appends exactly one task at the end and leaves the earlier ones untouched |
| Store.MergeLaws | app/page.tsx:151-155 | `{...task, ...updates}`: the empty patch is a no-op, a patch is idempotent, two patches compose |
| Store.UpdateWhereMeaning | app/page.tsx:151-155 | the update keeps the length, patches every task with the id and only those, and is a no-op when no id matches |
| Store.UpdateWhereKeepsIds | app/page.tsx:151-155 | a patch without an id keeps every id in place |
| Store.StatusChangedMeaning | app/page.tsx:139-143 | every task with the id gets the status; nothing else changes |
| Store.PriorityChangedMeaning | app/page.tsx:145-149 | every task with the id gets the priority; nothing else changes |
| Page.FilterArray | app/page.tsx:33-61 | each filter step yields a fresh array holding the filtered contents |
| Page.NarrowStep | app/page.tsx:31-62 | one guarded step: records the criterion iff it fires, keeps the same array iff it does not |
| Page.NarrowAdvanced | app/page.tsx:48-62 | the five advanced-filter steps in the page's order, with the same aliasing rule |
| Page.NarrowAll | app/page.tsx:28-62 | the narrowed array holds Narrow of the tasks; it is the state array itself iff nothing fired, otherwise fresh |
| Page.SortInPlace | app/page.tsx:64-75 | the array is rearranged in place into StableSort of its old contents |
| Page.Dashboard.constructor | app/page.tsx:15-26 | the initial state: seed tasks, nothing selected, `all`, customerName `asc`, empty search and filters |
| Page.Dashboard.FilteredAndSortedTasks | app/page.tsx:28-78 | the result is the stable sort of the passing tasks; with no criterion the state array is that result (reordered), otherwise the state is untouched; the counts never change |
| Page.Dashboard.HandleTaskClick | app/page.tsx:90-93 | remembers the clicked task and opens the modal; no other state variable changes |
| Page.Dashboard.CloseTaskModal | app/page.tsx:265-268 | closes the modal and forgets the task; no other state variable changes |
| Page.Dashboard.HandleTaskSelect | app/page.tsx:95-101 | the selection becomes SelectionAfter of the old one; no other state variable changes |
| Page.Dashboard.HandleSort | app/page.tsx:103-110 | the sort state becomes SortAfterClick of the old one; no other state variable changes |
| Page.Dashboard.HandleSearch | app/page.tsx:112-114 | stores the query as typed; no other state variable changes |
| Page.Dashboard.SetActiveFilter | app/page.tsx:211 | stores the status filter; no other state variable changes |
| Page.Dashboard.HandleAdvancedFilter | app/page.tsx:157-159 | stores the panel's filter object; no other state variable changes |
| Page.Dashboard.HandleAddTask | app/page.tsx:116-118 | opens the add-task modal; no other state variable changes |
| Page.Dashboard.CloseAddTaskModal | app/page.tsx:275 | closes the add-task modal; no other state variable changes |
| Page.Dashboard.HandleCreateTask | app/page.tsx:120-137 | the task list becomes the old one with the built task appended; the add-task modal closes; no other state variable changes |
| Page.Dashboard.HandleStatusChange | app/page.tsx:139-143 | the task list becomes StatusChanged of the old one; no other state variable changes |
| Page.Dashboard.HandlePriorityChange | app/page.tsx:145-149 | the task list becomes PriorityChanged of the old one; no other state variable changes |
| Page.Dashboard.HandleUpdateTask | app/page.tsx:151-155 | the task list becomes UpdateWhere of the old one; no other state variable changes, so the remembered selected task is not refreshed |
| Page.Dashboard.SetActiveMenuItem | app/page.tsx:180 | stores the sidebar's active item; no other state variable changes |
| Page.Dashboard.ToggleSidebar | app/page.tsx:182 | flips the collapsed flag; no other state variable changes |
| Page.StableSortIdempotent | app/page.tsx:29-75 | sorting an already sorted list again with the same sort changes nothing |
| Filters.WithValueLaws | components/dashboard/EnhancedTaskFilters.tsx:54-58 | writing one key replaces just that key: same key twice keeps the last value, different keys commute |
| Filters.HasActiveIff | components/dashboard/EnhancedTaskFilters.tsx:65-67 | the indicator is on iff the page filters by the panel's object, or a date range is present with both bounds missing or empty |
| Filters.IndicatorEdgeCases | components/dashboard/EnhancedTaskFilters.tsx:65-67 | `priority: []` is inactive; a range with only an empty start is active though the page filters nothing |
| Filters.CheckboxMeaning | components/dashboard/EnhancedTaskFilters.tsx:167-172 | checking appends the value to the current list (absent = `[]`); unchecking removes every occurrence; other values keep their multiplicity |
| Filters.UncheckKeepsOrder | components/dashboard/EnhancedTaskFilters.tsx:171 | unchecking keeps the other values in order |
| Filters.CheckUncheckRestores | components/dashboard/EnhancedTaskFilters.tsx:167-172 | checking then unchecking an unchecked value restores the list |
| Filters.DateEditMeaning | components/dashboard/EnhancedTaskFilters.tsx:296-298 | editing one bound sets it and keeps the other; an emptied bound stops filtering while the indicator stays on |
| Filters.BadgeMeaning | components/dashboard/EnhancedTaskFilters.tsx:73-75 | each button's badge is the length of the list its filter shows when nothing else filters |
| Filters.OneActiveButton | components/dashboard/EnhancedTaskFilters.tsx:33-39 | exactly one status button is highlighted |
| Filters.FilterPanel.constructor | components/dashboard/EnhancedTaskFilters.tsx:51-52 | starts with `{}` and the panel hidden |
| Filters.FilterPanel.HandleAdvancedFilterChange | components/dashboard/EnhancedTaskFilters.tsx:54-58 | stores the object with one key replaced and reports that same object |
| Filters.FilterPanel.ClearAdvancedFilters | components/dashboard/EnhancedTaskFilters.tsx:60-63 | stores and reports `{}`; the indicator goes off |
| Filters.FilterPanel.HandleCheckbox | components/dashboard/EnhancedTaskFilters.tsx:167-172 | writes the checkbox update into its list key, reports the object and keeps the panel's visibility |
| Filters.FilterPanel.HandleStartDate | components/dashboard/EnhancedTaskFilters.tsx:296-298 | writes the start bound, keeping the end, reports the object and keeps the panel's visibility |
| Filters.FilterPanel.HandleEndDate | components/dashboard/EnhancedTaskFilters.tsx:306-308 | writes the end bound, keeping the start, reports the object and keeps the panel's visibility |
| Filters.FilterPanel.ToggleAdvancedFilters | components/dashboard/EnhancedTaskFilters.tsx:103 | flips the panel's visibility only |
| Table.OptionsComplete | components/dashboard/TaskTable.tsx:22-23 | the row dropdowns offer every status and every priority, each once |
| Table.ClickableFields | components/dashboard/TaskTable.tsx:40-50 | exactly customerName, taskId, title, status and priority sort from the header |
| Table.DueDateUnreachable | components/dashboard/TaskTable.tsx:212-214 | header clicks never switch the sort to dueDate |
| Table.SortIconAfterClick | components/dashboard/TaskTable.tsx:188-193 | the icon shows only on the current field, points up after a click on a new field, and turns round on a second click |
| Table.SelectAllAppends | components/dashboard/TaskTable.tsx:173-179 | select-all appends every displayed id, so an already selected row is listed twice |
| Table.SelectAllOffRemoves | components/dashboard/TaskTable.tsx:173-179 | un-select-all drops every displayed id and keeps the others as often as before |
| Table.RemovedStaysOut | components/dashboard/TaskTable.tsx:173-179 | un-select-all never brings back an id that was not selected |
| Table.TaskTable.constructor | components/dashboard/TaskTable.tsx:171 | `selectAll` starts false |
| Table.TaskTable.HandleSelectAll | components/dashboard/TaskTable.tsx:173-179 | flips `selectAll` and issues one call per displayed task, in order, with the new value |
| Table.TaskTable.HandleTaskSelect | components/dashboard/TaskTable.tsx:181-186 | forwards the choice; deselecting clears `selectAll`, selecting never sets it |
| TaskDetail.TabsFor | components/dashboard/EnhancedTaskModal.tsx:42-49 | tabs exist iff a task is shown |
| TaskDetail.TabCounts | components/dashboard/EnhancedTaskModal.tsx:44-49 | Description has no count; the others show their list lengths, 0 when absent |
| TaskDetail.SavePatchMeaning | components/dashboard/EnhancedTaskModal.tsx:62-63 | the saved patch appends the note to the shown task's notes (absent = empty) and changes nothing else |
| TaskDetail.NoteForMeaning | components/dashboard/EnhancedTaskModal.tsx:54-60 | the note holds the draft untrimmed, author "Current User", the clock as id and timestamp, and kind `note` |
| TaskDetail.TaskDetailModal.constructor | components/dashboard/EnhancedTaskModal.tsx:38-40 | not expanded, empty draft, not editing |
| TaskDetail.TaskDetailModal.ToggleExpanded | components/dashboard/EnhancedTaskModal.tsx:115 | flips the expanded flag only |
| TaskDetail.TaskDetailModal.ToggleEditing | components/dashboard/EnhancedTaskModal.tsx:230 | flips the editing flag only |
| TaskDetail.TaskDetailModal.EditNote | components/dashboard/EnhancedTaskModal.tsx:243 | stores the editor's value, an undefined value as "" |
| TaskDetail.TaskDetailModal.CancelNote | components/dashboard/EnhancedTaskModal.tsx:258-260 | drops the draft and closes the editor |
| TaskDetail.TaskDetailModal.HandleSaveNote | components/dashboard/EnhancedTaskModal.tsx:51-66 | a blank draft does nothing; otherwise requests the notes-plus-new-note patch for the shown task and clears and closes the editor |
| TaskDetail.SnapshotLosesNote | components/dashboard/EnhancedTaskModal.tsx:62-63 | two saves from the same snapshot lose the first note |
| TaskDetail.RefreshedKeepsNotes | components/dashboard/EnhancedTaskModal.tsx:62-63 | with the shown task refreshed after each save, both notes are kept in order |
| TaskDetail.RefreshKeepsInStep | app/page.tsx:151-155 | refreshing keeps the shown task in step with the store |
| TaskDetail.SnapshotFallsOutOfStep | app/page.tsx:151-155 | without refreshing the shown task falls out of step after one save |
| AddTask.CheckMeaning | components/modals/AddTaskModal.tsx:38-55 | one check adds its field's message iff the field is missing and keeps every earlier error |
| AddTask.ErrorsMeaning | components/modals/AddTaskModal.tsx:35-56 | a field has an error iff it is missing (five text fields blank after trim, dueDate empty), with its own message |
| AddTask.ValidIff | components/modals/AddTaskModal.tsx:35-58 | the form is valid iff the five text fields are non-blank and a due date is set; every recorded message is non-empty |
| AddTask.DefaultsAndSpaces | components/modals/AddTaskModal.tsx:38-55 | the untouched form fails on all six fields; a due date of spaces passes, a name of spaces does not |
| AddTask.EditsKeepSelectsOffered | components/modals/AddTaskModal.tsx:14-17 | after any edits through the controls the selects hold offered options, so a new task is never completed, cancelled or overdue |
| AddTask.DefaultsOffered | components/modals/AddTaskModal.tsx:20-31 | the default select values are among the options |
| AddTask.WithEditMeaning | components/modals/AddTaskModal.tsx:89-90 | after an edit its field holds the edit's value and every other field holds what it held |
| AddTask.FormIsItsFields | components/modals/AddTaskModal.tsx:20-31 | a form is determined by what its ten fields hold, so an edit that keeps the other fields changes nothing else |
| AddTask.CollectErrors | components/modals/AddTaskModal.tsx:36-56 | the map built field by field is exactly ErrorsFor(form) |
| AddTask.EditHidesOwnError | components/modals/AddTaskModal.tsx:91-93 | after an edit that field shows no error and every other field shows what it showed |
| AddTask.AddTaskForm.constructor | components/modals/AddTaskModal.tsx:20-33 | the defaults, no errors and no calls made |
| AddTask.AddTaskForm.ValidateForm | components/modals/AddTaskModal.tsx:35-59 | records exactly ErrorsFor(form), answers true iff there are none, and calls nothing |
| AddTask.AddTaskForm.HandleClose | components/modals/AddTaskModal.tsx:72-87 | restores the defaults, clears errors and calls `onClose` once |
| AddTask.AddTaskForm.HandleSubmit | components/modals/AddTaskModal.tsx:61-70 | an invalid form keeps its data, shows its errors and calls nothing; a valid one calls `onAddTask` with the form as it was and then `onClose`, and the form is reset |
| AddTask.AddTaskForm.HandleInputChange | components/modals/AddTaskModal.tsx:89-94 | writes the field, blanks that field's error iff one was showing, and calls nothing |
| Sidebar.AtMostOneActive | components/layout/Sidebar.tsx:179-188 | entry ids are distinct, so at most one entry is highlighted |
| Sidebar.Toggled | components/layout/Sidebar.tsx:62-68 | after toggling, the id is listed iff it was not |
| Sidebar.ToggleKeepsOthers | components/layout/Sidebar.tsx:64-66 | entries other than the toggled id keep their values, multiplicity and order |
| Sidebar.ToggleAppendsAtEnd | components/layout/Sidebar.tsx:66 | an unlisted id is appended at the end |
| Sidebar.ToggleTwice | components/layout/Sidebar.tsx:62-68 | toggling an unlisted id twice restores the list |
| Sidebar.SidebarState.constructor | components/layout/Sidebar.tsx:60 | nothing is expanded |
| Sidebar.SidebarState.ToggleExpanded | components/layout/Sidebar.tsx:62-68 | the list becomes Toggled of the old one |
| Sidebar.SidebarState.BottomClick | components/layout/Sidebar.tsx:194-199 | a dropdown entry toggles and is not reported; any other entry is reported and nothing expands |
| Sidebar.BottomItemKinds | components/layout/Sidebar.tsx:35-52 | "Views" has a dropdown, "Help" and every menu entry do not |
| Notifications.AgeMeaning | components/modals/NotificationModal.tsx:88-100 | the shown number is the floor of the elapsed time in the shown unit; minutes below 60 (every future time negative), hours 1 to 23, days from 1 |
| Notifications.RenderRoundTrip | components/modals/NotificationModal.tsx:94-98 | the text is the count, the unit letter and " ago", and the count reads back |
| Notifications.UnreadFromFlags | components/modals/NotificationModal.tsx:103 | the unread count is the number of unset read flags |
| Notifications.ReadPartition | components/modals/NotificationModal.tsx:103 | unread plus read is the number of notifications |
| Notifications.SubtitleMeaning | components/modals/NotificationModal.tsx:140-142 | the subtitle shows iff something is unread, and ends in "s" unless exactly one is |
| Notifications.MockUnread | components/modals/NotificationModal.tsx:22-63 | two of the five sample notifications are unread |
| Notifications.MockSubtitle | components/modals/NotificationModal.tsx:103 | the header reads "2 unread notifications" |
| MockData.FixtureShape | data/mockData.ts:3-271 | nine tasks with the ids "1" to "9", pairwise distinct |
| MockData.DuplicateTaskId | data/mockData.ts:8-242 | TS-6468 is the task number of exactly the tasks 2, 5 and 9 |
| MockData.SeedStatusTally | data/mockData.ts:10-244 | the status column holds 2 Completed, 5 Pending, 1 Overdue, 1 Cancelled and no In Progress |
| MockData.SeedCounts | data/mockData.ts:10-244 | all 9, completed 2, pending 5, overdue 1, cancelled 1, none in progress |
| MockData.PendingUrgentPasses | app/page.tsx:42-50 | with `pending` and priority in {High, Critical} a task passes iff it is pending and High or Critical |
| MockData.IdsOfFilter | data/mockData.ts:3-271 | filtering keeps exactly the ids at the positions where the predicate holds |
| MockData.UrgentVerdicts | data/mockData.ts:102-195 | tasks 4 to 8 pass that configuration and 1, 2, 3, 9 do not |
| MockData.UrgentKept | data/mockData.ts:102-195 | the kept positions are the ids 4 to 8 |
| MockData.CombinedFilterScenario | data/mockData.ts:102-195 | the page shows exactly ids 4, 5, 6, 7, 8 in that order |
| MockData.SortByRanks | app/page.tsx:64-75 | an ascending sort over ranked keys lists the ids rank by rank |
| MockData.DefaultSortScenario | data/mockData.ts:6-240 | customerName ascending gives 1, 2, 3, 4, 5, 9, 6, 7, 8 |
| MockData.PrioritySortScenario | data/mockData.ts:11-245 | priority ascending gives 5; 3, 4, 6, 7, 8; 2; 1, 9 |
| MockData.DatesIncreasing | data/mockData.ts:14-248 | the nine due dates are distinct and in a strict string order |
| MockData.DueDateSortScenario | data/mockData.ts:14-248 | dueDate ascending gives 9, 1, 3, 2, 6, 8, 5, 4, 7: task 9 first, task 7 last |
| MockSearch.SearchVerdictAt | data/mockData.ts:3-271 | "test" occurs in a searched field of tasks 1, 2, 4, 5, 9 and of no other task |
| MockSearch.SearchMissesT3 | data/mockData.ts:79-95 | task 3 ("Hello") mentions "test" in no searched field |
| MockSearch.SearchMissesT6 | data/mockData.ts:146-187 | the Instances task 6 does not match |
| MockSearch.SearchMissesT7 | data/mockData.ts:188-204 | the Instances task 7 does not match |
| MockSearch.SearchMissesT8 | data/mockData.ts:205-237 | the Instances task 8 does not match |
| MockSearch.SearchHitsT1 | data/mockData.ts:9 | "Test task" matches |
| MockSearch.SearchHitsT2 | data/mockData.ts:37-78 | task 2 matches "test" |
| MockSearch.SearchHitsT5 | data/mockData.ts:129-145 | task 5 matches "test" |
| MockSearch.SearchHitsT9 | data/mockData.ts:238-270 | task 9 matches "test" |
| MockSearch.SearchVerdicts | data/mockData.ts:3-271 | the search verdict of every sample task is the expected one |
| MockSearch.SearchHitsT4 | data/mockData.ts:101 | "Shadow testing" matches |
| MockSearch.SearchScenario | data/mockData.ts:3-271 | searching "test" shows exactly ids 1, 2, 4, 5, 9 in that order |

## Left out

- Rendering, styling, transitions, icons, the lazily loaded markdown editor and `dangerouslySetInnerHTML`: presentation and foreign library code.
- React scheduling (`useState`, `useMemo`, re-render timing): each state holder is one sequential object whose methods run to completion.
- Theme provider, layout, header, stats cards, the older task modal and the unused simple filter bar: no logic the query or the store depends on.
- `mockStats`: fixed numbers unrelated to the tasks.
- Wall-clock reads: passed in as `nowMs`, ISO timestamp strings and `diffMs`. Uniqueness of `Date.now()` ids is not a promise of the code and is not modelled.
- JavaScript `Date` parsing and time zones in the date-range filter: due dates and bounds are compared as strings, which orders ISO `YYYY-MM-DD` dates by calendar day. Invalid dates are not modelled.
- Full Unicode `toLowerCase`: only the 26 ASCII capitals are folded.
- Strings.IsSpace: white space for `trim` is the ECMAScript set of code points listed in the model; surrogate pairs are not decoded.
- Lists.Filter: `filter` on an array is modelled on sequences; the identity of the new array is modelled only where the page relies on it (Page.FilterArray, Page.NarrowAll).
- Notifications.AgeMeaning: `formatTimestamp` is modelled from the elapsed milliseconds, not from the timestamp string and the clock; floating-point division is replaced by floor division, which agrees for integer millisecond differences.
- The sample notifications' wording and the ticket records are kept as plain data; nothing is proved about them beyond the unread counter.
- Table.TaskTable.HandleSelectAll: the `onTaskSelect` calls are returned as a list in issue order instead of being made; Table.SelectAllAppends and Table.SelectAllOffRemoves apply them to the page's selection.
- AddTask.AddTaskForm.HandleSubmit: the `onAddTask` and `onClose` calls are appended to the form's `requested` log instead of made; Page.Dashboard.HandleCreateTask and Page.Dashboard.CloseAddTaskModal are what the page does with them.
- TaskDetail.TaskDetailModal.HandleSaveNote: the `onUpdateTask` call is returned instead of made; TaskDetail.SaveNote applies it to the page's store.

## Findings

| source | as written | input that shows it | evidently intended | confidence | as-written member | corrected member |
|---|---|---|---|---|---|---|
| components/dashboard/EnhancedTaskModal.tsx:62-63 | the note is appended to `task.notes` of the task captured when the row was clicked; `handleUpdateTask` (app/page.tsx:151-155) never refreshes `selectedTask`, so the next save starts again from the stale notes | open a task with no notes, save note a, then save note b without closing the modal: the store holds only [b] | each save appends to the task's current notes, leaving [a, b] | not executed | TaskDetail.SnapshotLosesNote | TaskDetail.RefreshedKeepsNotes |
