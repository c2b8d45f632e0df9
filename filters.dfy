/** The advanced-filter panel (components/dashboard/EnhancedTaskFilters.tsx):
    its own copy of the filter object, the edits that replace one key of it
    and report the new object to the page, the "any filter active" test, and
    the status buttons with their count badges. */
module Filters {
  import opened Types
  import opened Lists
  import opened Query

  /** A value for one key of the filter object. */
  datatype FilterValue =
    | PriorityList(priorities: seq<string>)
    | OwnerList(owners: seq<string>)
    | TypeList(types: seq<string>)
    | Dates(range: DateRange)

  /** `{ ...advancedFilters, [key]: value }`. */
  function WithValue(adv: AdvancedFilters, v: FilterValue): AdvancedFilters {
    match v
    case PriorityList(ps) => adv.(priority := Some(ps))
    case OwnerList(os) => adv.(owner := Some(os))
    case TypeList(ts) => adv.(taskType := Some(ts))
    case Dates(r) => adv.(dateRange := Some(r))
  }

  predicate SameKey(v: FilterValue, w: FilterValue) {
    (v.PriorityList? && w.PriorityList?) || (v.OwnerList? && w.OwnerList?) ||
    (v.TypeList? && w.TypeList?) || (v.Dates? && w.Dates?)
  }

  /** Writing one key twice keeps the last value; writes to different keys
      commute, since neither touches the other's key. */
  lemma WithValueLaws(adv: AdvancedFilters, v: FilterValue, w: FilterValue)
    ensures SameKey(v, w) ==> WithValue(WithValue(adv, v), w) == WithValue(adv, w)
    ensures !SameKey(v, w) ==> WithValue(WithValue(adv, v), w) == WithValue(WithValue(adv, w), v)
  {
  }

  /** `hasActiveAdvancedFilters`: some list value is non-empty, or the date
      range is present at all. */
  predicate HasActive(adv: AdvancedFilters) {
    ListActive(adv.priority) || ListActive(adv.owner) || adv.dateRange.Some? || ListActive(adv.taskType)
  }

  /** The indicator is on exactly when the page filters by the panel's
      object, or when a date range is present whose bounds are both missing
      or empty, which the page ignores. */
  lemma HasActiveIff(adv: AdvancedFilters)
    ensures HasActive(adv) <==>
      Fired([], AllTasks, adv) != [] ||
      (adv.dateRange.Some? && !BoundActive(StartOf(adv)) && !BoundActive(EndOf(adv)))
  {
    if ListActive(adv.priority) {
      assert PriorityIn(ListOr(adv.priority)) in Fired([], AllTasks, adv);
    } else if ListActive(adv.owner) {
      assert OwnerIn(ListOr(adv.owner)) in Fired([], AllTasks, adv);
    } else if ListActive(adv.taskType) {
      assert TypeIn(ListOr(adv.taskType)) in Fired([], AllTasks, adv);
    } else if BoundActive(StartOf(adv)) {
      assert DueFrom(BoundOr(StartOf(adv))) in Fired([], AllTasks, adv);
    } else if BoundActive(EndOf(adv)) {
      assert DueUntil(BoundOr(EndOf(adv))) in Fired([], AllTasks, adv);
    }
  }

  /** `priority: []` leaves the indicator off, while a date range holding
      only an empty start turns it on although the page filters nothing. */
  lemma IndicatorEdgeCases()
    ensures !HasActive(NoFilters.(priority := Some([])))
    ensures HasActive(NoFilters.(dateRange := Some(DateRange(Some([]), None))))
    ensures Fired([], AllTasks, NoFilters.(dateRange := Some(DateRange(Some([]), None)))) == []
  {
    var adv := NoFilters.(dateRange := Some(DateRange(Some([]), None)));
    assert !BoundActive(StartOf(adv)) && !BoundActive(EndOf(adv));
  }

  // ---- Checkbox lists ----

  datatype ListKey = PriorityKey | OwnerKey | TypeKey

  function ListOf(adv: AdvancedFilters, k: ListKey): Option<seq<string>> {
    match k
    case PriorityKey => adv.priority
    case OwnerKey => adv.owner
    case TypeKey => adv.taskType
  }

  function ListValue(k: ListKey, l: seq<string>): FilterValue {
    match k
    case PriorityKey => PriorityList(l)
    case OwnerKey => OwnerList(l)
    case TypeKey => TypeList(l)
  }

  /** A checkbox change: checking appends the value to the current list (an
      absent list is `[]`), unchecking drops every occurrence of it. */
  function CheckboxUpdate(current: Option<seq<string>>, value: string, checked: bool): seq<string> {
    var cur := ListOr(current);
    if checked then cur + [value] else RemoveAll(cur, value)
  }

  /** Checking puts the value in the list once more; unchecking removes it
      altogether; other values keep their number of occurrences. */
  lemma CheckboxMeaning(current: Option<seq<string>>, value: string, checked: bool)
    ensures value in CheckboxUpdate(current, value, checked) <==> checked
    ensures checked ==> CheckboxUpdate(current, value, checked) == ListOr(current) + [value]
    ensures forall x :: x != value ==>
      multiset(CheckboxUpdate(current, value, checked))[x] == multiset(ListOr(current))[x]
  {
  }

  /** Unchecking keeps the other values in their order. */
  lemma UncheckKeepsOrder(a: seq<string>, b: seq<string>, value: string)
    ensures CheckboxUpdate(Some(a + b), value, false) ==
            CheckboxUpdate(Some(a), value, false) + CheckboxUpdate(Some(b), value, false)
  {
    RemoveAllAppend(a, b, value);
  }

  /** Checking a box that was unchecked and unchecking it again restores the
      list. */
  lemma CheckUncheckRestores(current: Option<seq<string>>, value: string)
    requires value !in ListOr(current)
    ensures CheckboxUpdate(Some(CheckboxUpdate(current, value, true)), value, false) == ListOr(current)
  {
    RemoveAllAppend(ListOr(current), [value], value);
    RemoveAllAbsent(ListOr(current), value);
    assert RemoveAll([value], value) == [];
  }

  // ---- Date bounds ----

  /** The range after typing `v` in the start input: `{ ...current, start: v }`,
      where an absent range is `{}`. */
  function StartEdited(adv: AdvancedFilters, v: string): DateRange {
    DateRange(Some(v), EndOf(adv))
  }

  function EndEdited(adv: AdvancedFilters, v: string): DateRange {
    DateRange(StartOf(adv), Some(v))
  }

  /** Editing one bound sets it and keeps the other one; an emptied input
      leaves the range present but no longer filtering by that bound. */
  lemma DateEditMeaning(adv: AdvancedFilters, v: string)
    ensures StartOf(WithValue(adv, Dates(StartEdited(adv, v)))) == Some(v)
    ensures EndOf(WithValue(adv, Dates(StartEdited(adv, v)))) == EndOf(adv)
    ensures EndOf(WithValue(adv, Dates(EndEdited(adv, v)))) == Some(v)
    ensures StartOf(WithValue(adv, Dates(EndEdited(adv, v)))) == StartOf(adv)
    ensures BoundActive(StartOf(WithValue(adv, Dates(StartEdited(adv, v))))) <==> v != []
    ensures HasActive(WithValue(adv, Dates(StartEdited(adv, v))))
  {
  }

  // ---- Status buttons ----

  /** `filterOptions`, in display order. */
  const FilterOptions: seq<FilterType> := [AllTasks, CompletedTasks, PendingTasks, OverdueTasks, CancelledTasks]

  /** `taskCounts[option.count]`. */
  function Badge(c: TaskCounts, f: FilterType): nat {
    match f
    case AllTasks => c.all
    case CompletedTasks => c.completed
    case PendingTasks => c.pending
    case OverdueTasks => c.overdue
    case CancelledTasks => c.cancelled
  }

  predicate IsActiveButton(active: FilterType, f: FilterType) {
    active == f
  }

  /** Each button's badge is the length of the list its click would show
      while nothing else filters. */
  lemma BadgeMeaning(tasks: seq<Task>, f: FilterType)
    ensures Badge(CountsOf(tasks), f) == |Narrow(tasks, [], f, NoFilters)|
  {
    if f == AllTasks {
      NothingFiredKeepsAll(tasks, [], f, NoFilters);
    } else {
      CountIsStatusFilter(tasks, f);
    }
  }

  /** Every filter value has exactly one button, so exactly one button is
      highlighted. */
  lemma OneActiveButton(active: FilterType)
    ensures exists i :: 0 <= i < |FilterOptions| && IsActiveButton(active, FilterOptions[i])
    ensures forall i, j ::
      (0 <= i < |FilterOptions| && 0 <= j < |FilterOptions| &&
       IsActiveButton(active, FilterOptions[i]) && IsActiveButton(active, FilterOptions[j])) ==> i == j
  {
    match active
    case AllTasks => assert IsActiveButton(active, FilterOptions[0]);
    case CompletedTasks => assert IsActiveButton(active, FilterOptions[1]);
    case PendingTasks => assert IsActiveButton(active, FilterOptions[2]);
    case OverdueTasks => assert IsActiveButton(active, FilterOptions[3]);
    case CancelledTasks => assert IsActiveButton(active, FilterOptions[4]);
  }

  /** The panel's state. Each edit stores the new object and returns it as
      the object reported to the page. */
  class FilterPanel {
    var advancedFilters: AdvancedFilters
    var showAdvancedFilters: bool

    constructor ()
      ensures advancedFilters == NoFilters && !showAdvancedFilters
    {
      advancedFilters := NoFilters;
      showAdvancedFilters := false;
    }

    /** `handleAdvancedFilterChange`. */
    method HandleAdvancedFilterChange(v: FilterValue) returns (reported: AdvancedFilters)
      modifies this
      ensures advancedFilters == WithValue(old(advancedFilters), v)
      ensures reported == advancedFilters
      ensures showAdvancedFilters == old(showAdvancedFilters)
    {
      advancedFilters := WithValue(advancedFilters, v);
      reported := advancedFilters;
    }

    /** `clearAdvancedFilters`: the indicator goes off and the page stops
        filtering by the panel. */
    method ClearAdvancedFilters() returns (reported: AdvancedFilters)
      modifies this
      ensures advancedFilters == NoFilters && reported == NoFilters
      ensures !HasActive(advancedFilters)
      ensures showAdvancedFilters == old(showAdvancedFilters)
    {
      advancedFilters := NoFilters;
      reported := NoFilters;
    }

    /** A checkbox of the priority, owner or type menu. */
    method HandleCheckbox(k: ListKey, value: string, checked: bool) returns (reported: AdvancedFilters)
      modifies this
      ensures advancedFilters == WithValue(old(advancedFilters), ListValue(k, CheckboxUpdate(ListOf(old(advancedFilters), k), value, checked)))
      ensures reported == advancedFilters
      ensures showAdvancedFilters == old(showAdvancedFilters)
    {
      var updated := CheckboxUpdate(ListOf(advancedFilters, k), value, checked);
      reported := HandleAdvancedFilterChange(ListValue(k, updated));
    }

    /** The start-date input. */
    method HandleStartDate(v: string) returns (reported: AdvancedFilters)
      modifies this
      ensures advancedFilters == WithValue(old(advancedFilters), Dates(StartEdited(old(advancedFilters), v)))
      ensures reported == advancedFilters
      ensures showAdvancedFilters == old(showAdvancedFilters)
    {
      reported := HandleAdvancedFilterChange(Dates(StartEdited(advancedFilters, v)));
    }

    /** The end-date input. */
    method HandleEndDate(v: string) returns (reported: AdvancedFilters)
      modifies this
      ensures advancedFilters == WithValue(old(advancedFilters), Dates(EndEdited(old(advancedFilters), v)))
      ensures reported == advancedFilters
      ensures showAdvancedFilters == old(showAdvancedFilters)
    {
      reported := HandleAdvancedFilterChange(Dates(EndEdited(advancedFilters, v)));
    }

    /** The panel toggle button. */
    method ToggleAdvancedFilters()
      modifies this
      ensures showAdvancedFilters == !old(showAdvancedFilters)
      ensures advancedFilters == old(advancedFilters)
    {
      showAdvancedFilters := !showAdvancedFilters;
    }
  }
}
