/** The dashboard page (app/page.tsx) as one object: its state variables are
    fields and its handlers are methods. The `tasks` state is an array, so
    that the in-place sort of the query can be modelled as it happens: when
    no filter fires, `filtered` is the state array itself and the sort
    reorders it. */
module Page {
  import opened Types
  import opened Lists
  import opened Sorting
  import opened Query
  import opened Store

  /** A fresh array holding `s`. */
  method ArrayOf(s: seq<Task>) returns (a: array<Task>)
    ensures fresh(a) && a[..] == s
  {
    a := new Task[|s|](i requires 0 <= i < |s| => s[i]);
  }

  /** `filtered.filter(p)`: a new array. */
  method FilterArray(a: array<Task>, p: Task -> bool) returns (r: array<Task>)
    ensures fresh(r) && r[..] == Filter(a[..], p)
  {
    r := ArrayOf(Filter(a[..], p));
  }

  /** One guarded step `if (fires) filtered = filtered.filter(...)`;
      `applied` records the criteria that have fired so far. */
  method NarrowStep(filtered: array<Task>, fires: bool, c: Criterion, ghost s: seq<Task>, ghost applied: seq<Criterion>)
    returns (r: array<Task>, ghost now: seq<Criterion>)
    requires filtered[..] == ApplyAll(s, applied)
    ensures now == applied + Guarded(fires, c)
    ensures r[..] == ApplyAll(s, now)
    ensures |now| == |applied| ==> r == filtered
    ensures |now| > |applied| ==> fresh(r)
  {
    r := filtered;
    now := applied;
    if fires {
      r := FilterArray(filtered, HoldsFor(c));
      ApplyAllSnoc(s, applied, c);
      now := applied + [c];
    }
  }

  /** `filtered.sort(comparator)`, in place. */
  method SortInPlace(a: array<Task>, f: SortField, o: SortOrder)
    modifies a
    ensures a[..] == StableSort(old(a[..]), f, o)
  {
    var sorted := StableSort(a[..], f, o);
    StableSortSortedPermutation(a[..], f, o);
    forall i | 0 <= i < a.Length {
      a[i] := sorted[i];
    }
  }

  /** The five steps driven by the advanced filters, in the page's order. */
  method NarrowAdvanced(filtered: array<Task>, adv: AdvancedFilters, ghost s: seq<Task>, ghost applied: seq<Criterion>)
    returns (r: array<Task>, ghost now: seq<Criterion>)
    requires filtered[..] == ApplyAll(s, applied)
    ensures now == applied +
      Guarded(ListActive(adv.priority), PriorityIn(ListOr(adv.priority))) +
      Guarded(ListActive(adv.owner), OwnerIn(ListOr(adv.owner))) +
      Guarded(ListActive(adv.taskType), TypeIn(ListOr(adv.taskType))) +
      Guarded(BoundActive(StartOf(adv)), DueFrom(BoundOr(StartOf(adv)))) +
      Guarded(BoundActive(EndOf(adv)), DueUntil(BoundOr(EndOf(adv))))
    ensures r[..] == ApplyAll(s, now)
    ensures |now| == |applied| ==> r == filtered
    ensures |now| > |applied| ==> fresh(r)
  {
    r, now := NarrowStep(filtered, ListActive(adv.priority), PriorityIn(ListOr(adv.priority)), s, applied);
    r, now := NarrowStep(r, ListActive(adv.owner), OwnerIn(ListOr(adv.owner)), s, now);
    r, now := NarrowStep(r, ListActive(adv.taskType), TypeIn(ListOr(adv.taskType)), s, now);
    r, now := NarrowStep(r, BoundActive(StartOf(adv)), DueFrom(BoundOr(StartOf(adv))), s, now);
    r, now := NarrowStep(r, BoundActive(EndOf(adv)), DueUntil(BoundOr(EndOf(adv))), s, now);
  }

  /** The filter steps of the query, in the page's order. */
  method NarrowAll(tasks: array<Task>, query: string, f: FilterType, adv: AdvancedFilters) returns (filtered: array<Task>)
    ensures filtered[..] == Narrow(tasks[..], query, f, adv)
    ensures Fired(query, f, adv) == [] ==> filtered == tasks
    ensures Fired(query, f, adv) != [] ==> fresh(filtered)
  {
    ghost var s := tasks[..];
    ghost var applied: seq<Criterion> := [];
    filtered := tasks;
    filtered, applied := NarrowStep(filtered, query != [], SearchFor(query), s, applied);
    filtered, applied := NarrowStep(filtered, f != AllTasks, StatusIs(f), s, applied);
    filtered, applied := NarrowAdvanced(filtered, adv, s, applied);
    assert [] + Guarded(query != [], SearchFor(query)) == Guarded(query != [], SearchFor(query));
    assert applied == Fired(query, f, adv);
  }

  /** Every state variable of the page except the task array. */
  datatype PageView = PageView(
    selectedTasks: seq<string>, activeFilter: FilterType,
    sortField: SortField, sortOrder: SortOrder,
    searchQuery: string, advancedFilters: AdvancedFilters,
    selectedTask: Option<Task>, isModalOpen: bool, isAddTaskModalOpen: bool,
    activeMenuItem: string, isSidebarCollapsed: bool)

  class Dashboard {
    var tasks: array<Task>
    var selectedTasks: seq<string>
    var activeFilter: FilterType
    var sortField: SortField
    var sortOrder: SortOrder
    var searchQuery: string
    var advancedFilters: AdvancedFilters
    var selectedTask: Option<Task>
    var isModalOpen: bool
    var isAddTaskModalOpen: bool
    var activeMenuItem: string
    var isSidebarCollapsed: bool

    /** The initial state, seeded with `initial` (the mock tasks). */
    constructor (initial: seq<Task>)
      ensures fresh(tasks) && tasks[..] == initial
      ensures selectedTasks == [] && activeFilter == AllTasks
      ensures sortField == ByCustomerName && sortOrder == Asc
      ensures searchQuery == [] && advancedFilters == NoFilters
      ensures selectedTask == None && !isModalOpen && !isAddTaskModalOpen
      ensures activeMenuItem == "my-task" && !isSidebarCollapsed
    {
      tasks := new Task[|initial|](i requires 0 <= i < |initial| => initial[i]);
      selectedTasks := [];
      activeFilter := AllTasks;
      sortField := ByCustomerName;
      sortOrder := Asc;
      searchQuery := [];
      advancedFilters := NoFilters;
      selectedTask := None;
      isModalOpen := false;
      isAddTaskModalOpen := false;
      activeMenuItem := "my-task";
      isSidebarCollapsed := false;
    }

    /** The page's state apart from the tasks; each handler below states how
        it changes it, which says that every other variable stays. */
    function View(): PageView
      reads this
    {
      PageView(selectedTasks, activeFilter, sortField, sortOrder, searchQuery, advancedFilters,
               selectedTask, isModalOpen, isAddTaskModalOpen, activeMenuItem, isSidebarCollapsed)
    }

    /** The criteria the current state switches on. */
    function Criteria(): seq<Criterion>
      reads this
    {
      Fired(searchQuery, activeFilter, advancedFilters)
    }

    /** `taskCounts`. */
    function Counts(): TaskCounts
      reads this, tasks
    {
      CountsOf(tasks[..])
    }

    /** `filteredAndSortedTasks`: the passing tasks, stably sorted. When no
        criterion fires the result is the state array itself, now sorted;
        otherwise it is a fresh array and the state is left alone. Either
        way the counts do not change. */
    method FilteredAndSortedTasks() returns (filtered: array<Task>)
      modifies tasks
      ensures filtered[..] == StableSort(Narrow(old(tasks[..]), searchQuery, activeFilter, advancedFilters), sortField, sortOrder)
      ensures Criteria() == [] ==> filtered == tasks && tasks[..] == StableSort(old(tasks[..]), sortField, sortOrder)
      ensures Criteria() != [] ==> fresh(filtered) && tasks[..] == old(tasks[..])
      ensures Counts() == old(Counts())
    {
      ghost var s := tasks[..];
      filtered := NarrowAll(tasks, searchQuery, activeFilter, advancedFilters);
      SortInPlace(filtered, sortField, sortOrder);
      StableSortSortedPermutation(s, sortField, sortOrder);
      CountsPermutationInvariant(tasks[..], s);
    }

    /** `handleTaskClick`: the clicked task is remembered and the modal opens. */
    method HandleTaskClick(t: Task)
      modifies this
      ensures selectedTask == Some(t) && isModalOpen
      ensures tasks == old(tasks)
      ensures View() == old(View()).(selectedTask := Some(t), isModalOpen := true)
    {
      selectedTask := Some(t);
      isModalOpen := true;
    }

    /** The modal's `onClose`. */
    method CloseTaskModal()
      modifies this
      ensures selectedTask == None && !isModalOpen
      ensures tasks == old(tasks)
      ensures View() == old(View()).(selectedTask := None, isModalOpen := false)
    {
      isModalOpen := false;
      selectedTask := None;
    }

    /** `handleTaskSelect`. */
    method HandleTaskSelect(id: string, on: bool)
      modifies this
      ensures selectedTasks == SelectionAfter(old(selectedTasks), id, on)
      ensures tasks == old(tasks)
      ensures View() == old(View()).(selectedTasks := selectedTasks)
    {
      if on {
        selectedTasks := selectedTasks + [id];
      } else {
        selectedTasks := RemoveAll(selectedTasks, id);
      }
    }

    /** `handleSort`. */
    method HandleSort(field: SortField)
      modifies this
      ensures SortState(sortField, sortOrder) == SortAfterClick(SortState(old(sortField), old(sortOrder)), field)
      ensures tasks == old(tasks)
      ensures View() == old(View()).(sortField := sortField, sortOrder := sortOrder)
    {
      if sortField == field {
        sortOrder := if sortOrder == Asc then Desc else Asc;
      } else {
        sortField := field;
        sortOrder := Asc;
      }
    }

    /** `handleSearch`. */
    method HandleSearch(query: string)
      modifies this
      ensures tasks == old(tasks) && View() == old(View()).(searchQuery := query)
    {
      searchQuery := query;
    }

    /** `onFilterChange`. */
    method SetActiveFilter(f: FilterType)
      modifies this
      ensures tasks == old(tasks) && View() == old(View()).(activeFilter := f)
    {
      activeFilter := f;
    }

    /** `handleAdvancedFilter`: the panel's object is taken as it is. */
    method HandleAdvancedFilter(filters: AdvancedFilters)
      modifies this
      ensures tasks == old(tasks) && View() == old(View()).(advancedFilters := filters)
    {
      advancedFilters := filters;
    }

    /** `handleAddTask`. */
    method HandleAddTask()
      modifies this
      ensures tasks == old(tasks) && View() == old(View()).(isAddTaskModalOpen := true)
    {
      isAddTaskModalOpen := true;
    }

    /** The add-task modal's `onClose`: it closes and nothing else changes. */
    method CloseAddTaskModal()
      modifies this
      ensures tasks == old(tasks) && View() == old(View()).(isAddTaskModalOpen := false)
    {
      isAddTaskModalOpen := false;
    }

    /** `handleCreateTask`: a new state array with the built task at the end,
        and the add-task modal closed. */
    method HandleCreateTask(n: NewTask, nowMs: int, createdAt: string, eventAt: string)
      modifies this
      ensures fresh(tasks) && tasks[..] == Appended(old(tasks[..]), n, nowMs, createdAt, eventAt)
      ensures View() == old(View()).(isAddTaskModalOpen := false)
    {
      tasks := ArrayOf(tasks[..] + [BuildTask(n, nowMs, createdAt, eventAt)]);
      isAddTaskModalOpen := false;
    }

    /** `handleStatusChange`. */
    method HandleStatusChange(id: string, s: Status)
      modifies this
      ensures fresh(tasks) && tasks[..] == StatusChanged(old(tasks[..]), id, s)
      ensures View() == old(View())
    {
      tasks := ArrayOf(UpdateWhere(tasks[..], id, StatusPatch(s)));
    }

    /** `handlePriorityChange`. */
    method HandlePriorityChange(id: string, p: Priority)
      modifies this
      ensures fresh(tasks) && tasks[..] == PriorityChanged(old(tasks[..]), id, p)
      ensures View() == old(View())
    {
      tasks := ArrayOf(UpdateWhere(tasks[..], id, PriorityPatch(p)));
    }

    /** `handleUpdateTask`. The remembered `selectedTask` is not refreshed. */
    method HandleUpdateTask(id: string, updates: TaskPatch)
      modifies this
      ensures fresh(tasks) && tasks[..] == UpdateWhere(old(tasks[..]), id, updates)
      ensures View() == old(View())
    {
      tasks := ArrayOf(UpdateWhere(tasks[..], id, updates));
    }

    /** The sidebar's `onItemClick`. */
    method SetActiveMenuItem(item: string)
      modifies this
      ensures tasks == old(tasks) && View() == old(View()).(activeMenuItem := item)
    {
      activeMenuItem := item;
    }

    /** The sidebar's `onToggleCollapse`. */
    method ToggleSidebar()
      modifies this
      ensures tasks == old(tasks) && View() == old(View()).(isSidebarCollapsed := !old(isSidebarCollapsed))
    {
      isSidebarCollapsed := !isSidebarCollapsed;
    }
  }

  /** Sorting twice changes nothing: once the state array has been sorted in
      place, the next query with the same sort returns the same order. */
  lemma StableSortIdempotent(s: seq<Task>, f: SortField, o: SortOrder)
    ensures StableSort(StableSort(s, f, o), f, o) == StableSort(s, f, o)
  {
    StableSortSortedPermutation(s, f, o);
    StableSortUnique(StableSort(s, f, o), StableSort(s, f, o), f, o);
  }
}
