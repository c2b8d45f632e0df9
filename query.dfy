/** The pure half of the page's task query (app/page.tsx:28-88): the
    criteria that narrow the task list, the order in which they fire, and
    the per-status counts shown on the filter buttons. */
module Query {
  import opened Types
  import opened Strings
  import opened Lists
  import opened Sorting

  // ---- The criteria ----

  /** The five fields the search box looks in; customerCode and type are
      never searched. */
  function SearchedFields(t: Task): seq<string> {
    [t.customerName, t.taskId, t.title, t.description, t.owner]
  }

  /** Case-insensitive substring search over the five fields. */
  predicate MatchesSearch(t: Task, query: string) {
    var q := Lower(query);
    Contains(Lower(t.customerName), q) || Contains(Lower(t.taskId), q) ||
    Contains(Lower(t.title), q) || Contains(Lower(t.description), q) ||
    Contains(Lower(t.owner), q)
  }

  /** `task.status.toLowerCase() === activeFilter.toLowerCase()`. */
  predicate MatchesStatus(t: Task, f: FilterType) {
    Lower(StatusName(t.status)) == Lower(FilterName(f))
  }

  /** The status a filter button stands for; `all` stands for none. */
  function FilterStatus(f: FilterType): Option<Status> {
    match f
    case AllTasks => None
    case PendingTasks => Some(Pending)
    case OverdueTasks => Some(Overdue)
    case CompletedTasks => Some(Completed)
    case CancelledTasks => Some(Cancelled)
  }

  /** `list?.length > 0`: an absent or empty list does not filter. */
  predicate ListActive(l: Option<seq<string>>) {
    l.Some? && |l.value| > 0
  }

  /** A date bound filters only when it is present and not the empty string. */
  predicate BoundActive(b: Option<string>) {
    b.Some? && b.value != []
  }

  function StartOf(adv: AdvancedFilters): Option<string> {
    if adv.dateRange.Some? then adv.dateRange.value.start else None
  }

  function EndOf(adv: AdvancedFilters): Option<string> {
    if adv.dateRange.Some? then adv.dateRange.value.end else None
  }

  /** One `filtered.filter(...)` step of the page. Due dates and bounds are
      ISO `YYYY-MM-DD` text, whose string order is the calendar order. */
  datatype Criterion =
    | SearchFor(query: string)
    | StatusIs(filter: FilterType)
    | PriorityIn(priorities: seq<string>)
    | OwnerIn(owners: seq<string>)
    | TypeIn(types: seq<string>)
    | DueFrom(start: string)
    | DueUntil(end: string)

  predicate Holds(c: Criterion, t: Task) {
    match c
    case SearchFor(q) => MatchesSearch(t, q)
    case StatusIs(f) => MatchesStatus(t, f)
    case PriorityIn(ps) => PriorityName(t.priority) in ps
    case OwnerIn(os) => t.owner in os
    case TypeIn(ts) => t.taskType in ts
    case DueFrom(start) => !Less(t.dueDate, start)
    case DueUntil(end) => !Less(end, t.dueDate)
  }

  function HoldsFor(c: Criterion): Task -> bool {
    (t: Task) => Holds(c, t)
  }

  /** `[c]` when the guard is truthy, nothing otherwise. */
  function Guarded(fires: bool, c: Criterion): seq<Criterion> {
    if fires then [c] else []
  }

  function ListOr(l: Option<seq<string>>): seq<string> {
    if l.Some? then l.value else []
  }

  function BoundOr(b: Option<string>): string {
    if b.Some? then b.value else []
  }

  /** The criteria whose guard is truthy, in the order the page applies them. */
  function Fired(query: string, f: FilterType, adv: AdvancedFilters): seq<Criterion> {
    Guarded(query != [], SearchFor(query)) +
    Guarded(f != AllTasks, StatusIs(f)) +
    Guarded(ListActive(adv.priority), PriorityIn(ListOr(adv.priority))) +
    Guarded(ListActive(adv.owner), OwnerIn(ListOr(adv.owner))) +
    Guarded(ListActive(adv.taskType), TypeIn(ListOr(adv.taskType))) +
    Guarded(BoundActive(StartOf(adv)), DueFrom(BoundOr(StartOf(adv)))) +
    Guarded(BoundActive(EndOf(adv)), DueUntil(BoundOr(EndOf(adv))))
  }

  /** The fired criteria applied one `filter` after another. */
  function ApplyAll(s: seq<Task>, cs: seq<Criterion>): seq<Task>
    decreases |cs|
  {
    if cs == [] then s else ApplyAll(Filter(s, HoldsFor(cs[0])), cs[1..])
  }

  /** The list the page hands to the sort. */
  function Narrow(tasks: seq<Task>, query: string, f: FilterType, adv: AdvancedFilters): seq<Task> {
    ApplyAll(tasks, Fired(query, f, adv))
  }

  /** A task survives when it meets every fired criterion. */
  predicate Passes(t: Task, query: string, f: FilterType, adv: AdvancedFilters) {
    forall c :: c in Fired(query, f, adv) ==> Holds(c, t)
  }

  function PassesFor(query: string, f: FilterType, adv: AdvancedFilters): Task -> bool {
    (t: Task) => Passes(t, query, f, adv)
  }

  // ---- What the criteria mean ----

  /** A task matches the search iff the lower-cased query occurs in one of
      the five lower-cased fields. */
  lemma SearchHitFound(t: Task, query: string) returns (j: int, i: int)
    requires MatchesSearch(t, query)
    ensures 0 <= j < 5 && OccursAt(Lower(SearchedFields(t)[j]), Lower(query), i)
  {
    var fs, q := SearchedFields(t), Lower(query);
    if Contains(Lower(t.customerName), q) { j := 0; }
    else if Contains(Lower(t.taskId), q) { j := 1; }
    else if Contains(Lower(t.title), q) { j := 2; }
    else if Contains(Lower(t.description), q) { j := 3; }
    else { j := 4; }
    assert Contains(Lower(fs[j]), q);
    ContainsIff(Lower(fs[j]), q);
    i :| OccursAt(Lower(fs[j]), q, i);
  }

  lemma SearchHitMatches(t: Task, query: string, j: int, i: int)
    requires 0 <= j < 5 && OccursAt(Lower(SearchedFields(t)[j]), Lower(query), i)
    ensures MatchesSearch(t, query)
  {
    var fs, q := SearchedFields(t), Lower(query);
    ContainsIff(Lower(fs[j]), q);
    assert Contains(Lower(fs[j]), q);
    if j == 0 { assert fs[j] == t.customerName; }
    else if j == 1 { assert fs[j] == t.taskId; }
    else if j == 2 { assert fs[j] == t.title; }
    else if j == 3 { assert fs[j] == t.description; }
    else { assert fs[j] == t.owner; }
  }

  /** A task matches the search iff the lower-cased query occurs in one of
      the five lower-cased fields. */
  lemma SearchMeaning(t: Task, query: string)
    ensures MatchesSearch(t, query) ==>
      exists j, i :: 0 <= j < 5 && OccursAt(Lower(SearchedFields(t)[j]), Lower(query), i)
    ensures (exists j, i :: 0 <= j < 5 && OccursAt(Lower(SearchedFields(t)[j]), Lower(query), i)) ==>
      MatchesSearch(t, query)
  {
    if MatchesSearch(t, query) {
      var j, i := SearchHitFound(t, query);
    }
    if exists j, i :: 0 <= j < 5 && OccursAt(Lower(SearchedFields(t)[j]), Lower(query), i) {
      var j, i :| 0 <= j < 5 && OccursAt(Lower(SearchedFields(t)[j]), Lower(query), i);
      SearchHitMatches(t, query, j, i);
    }
  }

  /** The search is insensitive to the case of the query. */
  lemma SearchIgnoresQueryCase(t: Task, query: string)
    ensures MatchesSearch(t, Lower(query)) == MatchesSearch(t, query)
  {
    LowerIdempotent(query);
  }

  /** customerCode and type play no part in the search. */
  lemma SearchIgnoresCodeAndType(t: Task, query: string, code: string, kind: string)
    ensures MatchesSearch(t.(customerCode := code, taskType := kind), query) == MatchesSearch(t, query)
  {
    assert SearchedFields(t.(customerCode := code, taskType := kind)) == SearchedFields(t);
  }

  lemma FilterKeys(f: FilterType)
    ensures Lower(FilterName(f)) == FilterName(f)
  {
    match f
    case AllTasks => LowerPointwise("all", "all");
    case PendingTasks => LowerPointwise("pending", "pending");
    case OverdueTasks => LowerPointwise("overdue", "overdue");
    case CompletedTasks => LowerPointwise("completed", "completed");
    case CancelledTasks => LowerPointwise("cancelled", "cancelled");
  }

  /** Any filter other than `all` keeps exactly the tasks with its status. */
  lemma StatusFilterMeaning(t: Task, f: FilterType)
    requires f != AllTasks
    ensures MatchesStatus(t, f) <==> FilterStatus(f) == Some(t.status)
  {
    StatusKeys(t.status);
    FilterKeys(f);
  }

  /** An "In Progress" task passes no status filter but `all`. */
  lemma InProgressOnlyInAll(t: Task, f: FilterType)
    requires t.status == InProgress
    ensures StatusIs(f) !in Fired([], f, NoFilters) <==> f == AllTasks
    ensures f != AllTasks ==> !MatchesStatus(t, f)
  {
    if f != AllTasks {
      StatusFilterMeaning(t, f);
    }
  }

  /** Both date bounds are inclusive. */
  lemma DueBoundsInclusive(t: Task)
    ensures Holds(DueFrom(t.dueDate), t) && Holds(DueUntil(t.dueDate), t)
  {
    LessIrreflexive(t.dueDate);
  }

  /** The fired criteria spelled out: each guard switches its criterion on,
      and nothing else fires. */
  lemma FiredMeaning(query: string, f: FilterType, adv: AdvancedFilters, c: Criterion)
    ensures c in Fired(query, f, adv) <==>
      || (query != [] && c == SearchFor(query))
      || (f != AllTasks && c == StatusIs(f))
      || (ListActive(adv.priority) && c == PriorityIn(adv.priority.value))
      || (ListActive(adv.owner) && c == OwnerIn(adv.owner.value))
      || (ListActive(adv.taskType) && c == TypeIn(adv.taskType.value))
      || (BoundActive(StartOf(adv)) && c == DueFrom(StartOf(adv).value))
      || (BoundActive(EndOf(adv)) && c == DueUntil(EndOf(adv).value))
  {
  }

  /** Each active criterion, stated on the task's own fields. */
  predicate ActiveCriteriaHold(t: Task, query: string, f: FilterType, adv: AdvancedFilters) {
    && (query != [] ==> MatchesSearch(t, query))
    && (f != AllTasks ==> MatchesStatus(t, f))
    && (ListActive(adv.priority) ==> PriorityName(t.priority) in adv.priority.value)
    && (ListActive(adv.owner) ==> t.owner in adv.owner.value)
    && (ListActive(adv.taskType) ==> t.taskType in adv.taskType.value)
    && (BoundActive(StartOf(adv)) ==> !Less(t.dueDate, StartOf(adv).value))
    && (BoundActive(EndOf(adv)) ==> !Less(EndOf(adv).value, t.dueDate))
  }

  lemma PassesSound(t: Task, query: string, f: FilterType, adv: AdvancedFilters)
    requires Passes(t, query, f, adv)
    ensures ActiveCriteriaHold(t, query, f, adv)
  {
    if query != [] { FiredMeaning(query, f, adv, SearchFor(query)); }
    if f != AllTasks { FiredMeaning(query, f, adv, StatusIs(f)); }
    if ListActive(adv.priority) { FiredMeaning(query, f, adv, PriorityIn(adv.priority.value)); }
    if ListActive(adv.owner) { FiredMeaning(query, f, adv, OwnerIn(adv.owner.value)); }
    if ListActive(adv.taskType) { FiredMeaning(query, f, adv, TypeIn(adv.taskType.value)); }
    if BoundActive(StartOf(adv)) {
      FiredMeaning(query, f, adv, DueFrom(StartOf(adv).value));
      assert Holds(DueFrom(StartOf(adv).value), t);
    }
    if BoundActive(EndOf(adv)) {
      FiredMeaning(query, f, adv, DueUntil(EndOf(adv).value));
      assert Holds(DueUntil(EndOf(adv).value), t);
    }
  }

  lemma PassesComplete(t: Task, query: string, f: FilterType, adv: AdvancedFilters)
    requires ActiveCriteriaHold(t, query, f, adv)
    ensures Passes(t, query, f, adv)
  {
    forall c | c in Fired(query, f, adv)
      ensures Holds(c, t)
    {
      FiredMeaning(query, f, adv, c);
    }
  }

  /** All active criteria combine by AND; an inactive one is skipped. */
  lemma PassesMeaning(t: Task, query: string, f: FilterType, adv: AdvancedFilters)
    ensures Passes(t, query, f, adv) <==>
      && (query != [] ==> MatchesSearch(t, query))
      && (f != AllTasks ==> MatchesStatus(t, f))
      && (ListActive(adv.priority) ==> PriorityName(t.priority) in adv.priority.value)
      && (ListActive(adv.owner) ==> t.owner in adv.owner.value)
      && (ListActive(adv.taskType) ==> t.taskType in adv.taskType.value)
      && (BoundActive(StartOf(adv)) ==> !Less(t.dueDate, StartOf(adv).value))
      && (BoundActive(EndOf(adv)) ==> !Less(EndOf(adv).value, t.dueDate))
  {
    if Passes(t, query, f, adv) {
      PassesSound(t, query, f, adv);
    } else if ActiveCriteriaHold(t, query, f, adv) {
      PassesComplete(t, query, f, adv);
    }
  }

  // ---- The pipeline is one filter ----

  lemma {:induction false} ApplyAllSnoc(s: seq<Task>, cs: seq<Criterion>, c: Criterion)
    ensures ApplyAll(s, cs + [c]) == Filter(ApplyAll(s, cs), HoldsFor(c))
    decreases |cs|
  {
    if cs == [] {
      assert [] + [c] == [c];
    } else {
      assert (cs + [c])[1..] == cs[1..] + [c];
      ApplyAllSnoc(Filter(s, HoldsFor(cs[0])), cs[1..], c);
    }
  }

  function AllHold(cs: seq<Criterion>): Task -> bool {
    (t: Task) => forall c :: c in cs ==> Holds(c, t)
  }

  lemma {:induction false} ApplyAllIsFilter(s: seq<Task>, cs: seq<Criterion>)
    ensures ApplyAll(s, cs) == Filter(s, AllHold(cs))
    decreases |cs|
  {
    if cs == [] {
      FilterKeepsAll(s, AllHold(cs));
    } else {
      ApplyAllIsFilter(Filter(s, HoldsFor(cs[0])), cs[1..]);
      forall t
        ensures AllHold(cs)(t) == (HoldsFor(cs[0])(t) && AllHold(cs[1..])(t))
      {
        assert cs == [cs[0]] + cs[1..];
      }
      FilterFuse(s, HoldsFor(cs[0]), AllHold(cs[1..]), AllHold(cs));
    }
  }

  /** The chain of filters is one filter by the conjunction of the fired
      criteria: the survivors are exactly the passing tasks, in their
      original order, each kept as often as it occurs. */
  lemma NarrowIsFilter(tasks: seq<Task>, query: string, f: FilterType, adv: AdvancedFilters)
    ensures Narrow(tasks, query, f, adv) == Filter(tasks, PassesFor(query, f, adv))
    ensures forall t :: t in Narrow(tasks, query, f, adv) <==> t in tasks && Passes(t, query, f, adv)
  {
    ApplyAllIsFilter(tasks, Fired(query, f, adv));
    FilterExt(tasks, AllHold(Fired(query, f, adv)), PassesFor(query, f, adv));
  }

  /** No criterion fires exactly when every guard is falsy. */
  lemma FiredEmptyIff(query: string, f: FilterType, adv: AdvancedFilters)
    ensures Fired(query, f, adv) == [] <==>
      !(query != [] || f != AllTasks || ListActive(adv.priority) || ListActive(adv.owner) ||
        ListActive(adv.taskType) || BoundActive(StartOf(adv)) || BoundActive(EndOf(adv)))
  {
  }

  /** With no guard truthy nothing is filtered out. */
  lemma NothingFiredKeepsAll(tasks: seq<Task>, query: string, f: FilterType, adv: AdvancedFilters)
    requires Fired(query, f, adv) == []
    ensures Narrow(tasks, query, f, adv) == tasks
  {
  }

  /** Monotonicity: a configuration that lets fewer tasks through yields
      the other configuration's result filtered once more, so adding a
      filter never enlarges the list. */
  lemma NarrowStricter(tasks: seq<Task>, q1: string, f1: FilterType, adv1: AdvancedFilters,
                       q2: string, f2: FilterType, adv2: AdvancedFilters)
    requires forall t :: Passes(t, q2, f2, adv2) ==> Passes(t, q1, f1, adv1)
    ensures Narrow(tasks, q2, f2, adv2) == Filter(Narrow(tasks, q1, f1, adv1), PassesFor(q2, f2, adv2))
    ensures |Narrow(tasks, q2, f2, adv2)| <= |Narrow(tasks, q1, f1, adv1)|
  {
    NarrowIsFilter(tasks, q1, f1, adv1);
    NarrowIsFilter(tasks, q2, f2, adv2);
    var both := (t: Task) => Passes(t, q1, f1, adv1) && Passes(t, q2, f2, adv2);
    FilterFuse(tasks, PassesFor(q1, f1, adv1), PassesFor(q2, f2, adv2), both);
    FilterExt(tasks, both, PassesFor(q2, f2, adv2));
  }

  /** Setting a previously inactive priority list is one more AND. */
  lemma AddPriorityFilter(tasks: seq<Task>, query: string, f: FilterType, adv: AdvancedFilters, ps: seq<string>)
    requires !ListActive(adv.priority) && ps != []
    ensures Narrow(tasks, query, f, adv.(priority := Some(ps))) ==
            Filter(Narrow(tasks, query, f, adv), HoldsFor(PriorityIn(ps)))
  {
    var adv2 := adv.(priority := Some(ps));
    forall t
      ensures Passes(t, query, f, adv2) == (Passes(t, query, f, adv) && Holds(PriorityIn(ps), t))
    {
      PassesMeaning(t, query, f, adv);
      PassesMeaning(t, query, f, adv2);
    }
    NarrowIsFilter(tasks, query, f, adv);
    NarrowIsFilter(tasks, query, f, adv2);
    FilterFuse(tasks, PassesFor(query, f, adv), HoldsFor(PriorityIn(ps)), PassesFor(query, f, adv2));
  }

  // ---- Counts ----

  /** `taskCounts`: computed from the whole task list. */
  datatype TaskCounts = TaskCounts(all: nat, completed: nat, pending: nat, overdue: nat, cancelled: nat)

  function HasStatus(st: Status): Task -> bool {
    (t: Task) => t.status == st
  }

  function CountStatus(s: seq<Task>, st: Status): nat {
    |Filter(s, HasStatus(st))|
  }

  function CountsOf(s: seq<Task>): TaskCounts {
    TaskCounts(|s|, CountStatus(s, Completed), CountStatus(s, Pending),
               CountStatus(s, Overdue), CountStatus(s, Cancelled))
  }

  /** Every task is in exactly one status, so the four buckets and the
      "In Progress" tasks, which have no bucket, add up to `all`. */
  lemma {:induction false} CountsPartition(s: seq<Task>)
    ensures CountsOf(s).completed + CountsOf(s).pending + CountsOf(s).overdue +
            CountsOf(s).cancelled + CountStatus(s, InProgress) == CountsOf(s).all
  {
    if s != [] {
      CountsPartition(s[1..]);
      CountStatusCons(s, Completed);
      CountStatusCons(s, Pending);
      CountStatusCons(s, Overdue);
      CountStatusCons(s, Cancelled);
      CountStatusCons(s, InProgress);
    }
  }

  lemma CountStatusCons(s: seq<Task>, st: Status)
    requires s != []
    ensures CountStatus(s, st) == (if s[0].status == st then 1 else 0) + CountStatus(s[1..], st)
  {
  }

  lemma FilterLengthByMultiset(a: seq<Task>, b: seq<Task>, p: Task -> bool)
    requires multiset(a) == multiset(b)
    ensures |Filter(a, p)| == |Filter(b, p)|
  {
    assert multiset(Filter(a, p)) == multiset(Filter(b, p)) by {
      forall x
        ensures multiset(Filter(a, p))[x] == multiset(Filter(b, p))[x]
      {
        if p(x) {
          assert multiset(a)[x] == multiset(b)[x];
        }
      }
    }
    assert |multiset(Filter(a, p))| == |Filter(a, p)|;
    assert |multiset(Filter(b, p))| == |Filter(b, p)|;
  }

  /** The counts only depend on which tasks there are, not on their order,
      so reordering the list (as the in-place sort may) leaves them alone. */
  lemma CountsPermutationInvariant(a: seq<Task>, b: seq<Task>)
    requires multiset(a) == multiset(b)
    ensures CountsOf(a) == CountsOf(b)
  {
    assert |multiset(a)| == |a| && |multiset(b)| == |b|;
    FilterLengthByMultiset(a, b, HasStatus(Completed));
    FilterLengthByMultiset(a, b, HasStatus(Pending));
    FilterLengthByMultiset(a, b, HasStatus(Overdue));
    FilterLengthByMultiset(a, b, HasStatus(Cancelled));
  }

  lemma FiredStatusOnly(f: FilterType)
    requires f != AllTasks
    ensures Fired([], f, NoFilters) == [StatusIs(f)]
  {
    assert !ListActive(NoFilters.priority) && !BoundActive(StartOf(NoFilters)) && !BoundActive(EndOf(NoFilters));
  }

  lemma NarrowStatusOnly(tasks: seq<Task>, f: FilterType)
    requires f != AllTasks
    ensures Narrow(tasks, [], f, NoFilters) == Filter(tasks, HoldsFor(StatusIs(f)))
  {
    FiredStatusOnly(f);
    ApplyAllSnoc(tasks, [], StatusIs(f));
    assert [] + [StatusIs(f)] == [StatusIs(f)];
  }

  lemma StatusCriterionIsHasStatus(f: FilterType)
    requires f != AllTasks
    ensures forall t :: HoldsFor(StatusIs(f))(t) == HasStatus(FilterStatus(f).value)(t)
  {
    forall t
      ensures HoldsFor(StatusIs(f))(t) == HasStatus(FilterStatus(f).value)(t)
    {
      StatusFilterMeaning(t, f);
    }
  }

  /** A status count is the length of the list the matching status filter
      leaves when nothing else filters. */
  lemma CountIsStatusFilter(tasks: seq<Task>, f: FilterType)
    requires f != AllTasks
    ensures CountStatus(tasks, FilterStatus(f).value) == |Narrow(tasks, [], f, NoFilters)|
  {
    NarrowStatusOnly(tasks, f);
    StatusCriterionIsHasStatus(f);
    FilterExt(tasks, HoldsFor(StatusIs(f)), HasStatus(FilterStatus(f).value));
  }
}
