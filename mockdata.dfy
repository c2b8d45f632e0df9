/** The nine sample tasks the dashboard starts with (data/mockData.ts), and
    what the page's query, counters and sort make of them. */
module MockData {
  import opened Types
  import opened Strings
  import opened Lists
  import opened Sorting
  import opened Query
  import opened Store

  const T1: Task := Task("1", "AVF", "VBN-5264", "TS-6465", "Test task",
    Cancelled, Medium, "Audit",
    "This is a test task for testing purposes",
    "2024-07-23", "2024-07-20", "Rishi",
    Some([Note("1", "Task assigned to team", "Rishi", "2024-07-23T12:20:00Z", NoteEntry)]),
    Some([Event("1", "Task Created", "Task was created and assigned", "2024-07-20T10:00:00Z", CreatedEvent)]),
    Some([]))

  const T2: Task := Task("2", "AVF", "VBN-5264", "TS-6468",
    "Test ticket for account care",
    Completed, Low, "Support",
    "Account care support ticket for customer inquiry",
    "2024-07-25", "2024-07-22", "John Doe",
    Some([Note("2", "Customer inquiry resolved successfully", "John Doe", "2024-07-25T14:30:00Z", UpdateEntry)]),
    Some([Event("2", "Task Completed", "Customer inquiry was resolved", "2024-07-25T14:30:00Z", CompletedEvent)]),
    Some([Ticket("T-001", "Account Access Issue", "Resolved", "Medium", "John Doe", "2024-07-22")]))

  const T3: Task := Task("3", "AVF", "VBN-5264", "TS-6474", "Hello",
    Completed, High, "General",
    "General hello task for customer engagement",
    "2024-07-24", "2024-07-21", "Jane Smith",
    Some([]), Some([]), Some([]))

  const T4: Task := Task("4", "AVF", "VBN-5264", "TS-6475", "Shadow testing",
    Pending, High, "Testing",
    "Shadow testing for system validation",
    "2024-08-01", "2024-07-26", "Mike Johnson",
    Some([Note("3", "Testing environment setup completed", "Mike Johnson", "2024-07-26T09:15:00Z", NoteEntry)]),
    Some([Event("3", "Testing Started", "Shadow testing phase initiated", "2024-07-26T09:00:00Z", CreatedEvent)]),
    Some([]))

  const T5: Task := Task("5", "AVF", "VBN-5264", "TS-6468", "qa test",
    Pending, Critical, "QA",
    "Quality assurance testing for product release",
    "2024-07-30", "2024-07-25", "Sarah Wilson",
    Some([]), Some([]), Some([]))

  const T6: Task := Task("6", "Instances", "INSTANCES", "TS-6405",
    "Office Health Audit - Immediate Action Required",
    Pending, High, "Health Impact",
    "Urgent office health audit requiring immediate attention and action",
    "2024-07-28", "2024-07-23", "Health Team",
    Some([Note("4", "Initial assessment completed, critical issues identified", "Health Team",
               "2024-07-23T16:45:00Z", NoteEntry)]),
    Some([Event("4", "Audit Initiated", "Office health audit process started", "2024-07-23T08:00:00Z", CreatedEvent)]),
    Some([Ticket("T-002", "Air Quality Concern", "Open", "High", "Health Team", "2024-07-23")]))

  const T7: Task := Task("7", "Instances", "INSTANCES", "TS-6406",
    "Office Metric: DM Health",
    Pending, High, "Health Impact",
    "Data management health metrics analysis and reporting",
    "2024-08-02", "2024-07-24", "Analytics Team",
    Some([]), Some([]), Some([]))

  const T8: Task := Task("8", "Instances", "INSTANCES", "TS-6407",
    "Office Metric consumption > 80%",
    Pending, High, "Health Impact",
    "Office metric consumption has exceeded 80% threshold requiring immediate attention",
    "2024-07-29", "2024-07-25", "Operations Team",
    Some([Note("5", "Consumption spike detected, investigating root cause", "Operations Team",
               "2024-07-25T11:30:00Z", NoteEntry)]),
    Some([Event("5", "Alert Triggered", "Consumption threshold exceeded", "2024-07-25T11:00:00Z", CreatedEvent)]),
    Some([]))

  const T9: Task := Task("9", "AVF", "VBN-5264", "TS-6468", "Testing component A",
    Overdue, Medium, "Testing",
    "Component A testing phase for system integration",
    "2024-07-20", "2024-07-15", "QA Team",
    Some([Note("6", "Testing delayed due to environment issues", "QA Team", "2024-07-21T10:00:00Z", UpdateEntry)]),
    Some([Event("6", "Task Overdue", "Task has passed its due date", "2024-07-21T00:00:00Z", UpdatedEvent)]),
    Some([]))

  /** `mockTasks`. */
  const MockTasks: seq<Task> := [T1, T2, T3, T4, T5, T6, T7, T8, T9]

  /** The fields the page's query, counters and sort compare, task by
      task. */
  lemma T1Facts()
    ensures T1.id == "1" && T1.taskId == "TS-6465" && T1.status == Cancelled && T1.priority == Medium
    ensures T1.customerName == "AVF" && T1.dueDate == "2024-07-23" && T1.taskType == "Audit"
  {
  }

  lemma T2Facts()
    ensures T2.id == "2" && T2.taskId == "TS-6468" && T2.status == Completed && T2.priority == Low
    ensures T2.customerName == "AVF" && T2.dueDate == "2024-07-25" && T2.taskType == "Support"
  {
  }

  lemma T3Facts()
    ensures T3.id == "3" && T3.taskId == "TS-6474" && T3.status == Completed && T3.priority == High
    ensures T3.customerName == "AVF" && T3.dueDate == "2024-07-24" && T3.taskType == "General"
  {
  }

  lemma T4Facts()
    ensures T4.id == "4" && T4.taskId == "TS-6475" && T4.status == Pending && T4.priority == High
    ensures T4.customerName == "AVF" && T4.dueDate == "2024-08-01" && T4.taskType == "Testing"
  {
  }

  lemma T5Facts()
    ensures T5.id == "5" && T5.taskId == "TS-6468" && T5.status == Pending && T5.priority == Critical
    ensures T5.customerName == "AVF" && T5.dueDate == "2024-07-30" && T5.taskType == "QA"
  {
  }

  lemma T6Facts()
    ensures T6.id == "6" && T6.taskId == "TS-6405" && T6.status == Pending && T6.priority == High
    ensures T6.customerName == "Instances" && T6.dueDate == "2024-07-28" && T6.taskType == "Health Impact"
  {
  }

  lemma T7Facts()
    ensures T7.id == "7" && T7.taskId == "TS-6406" && T7.status == Pending && T7.priority == High
    ensures T7.customerName == "Instances" && T7.dueDate == "2024-08-02" && T7.taskType == "Health Impact"
  {
  }

  lemma T8Facts()
    ensures T8.id == "8" && T8.taskId == "TS-6407" && T8.status == Pending && T8.priority == High
    ensures T8.customerName == "Instances" && T8.dueDate == "2024-07-29" && T8.taskType == "Health Impact"
  {
  }

  lemma T9Facts()
    ensures T9.id == "9" && T9.taskId == "TS-6468" && T9.status == Overdue && T9.priority == Medium
    ensures T9.customerName == "AVF" && T9.dueDate == "2024-07-20" && T9.taskType == "Testing"
  {
  }

  /** Nine tasks with the ids "1" to "9", in order, so no two share an id. */
  lemma FixtureShape()
    ensures |MockTasks| == 9
    ensures Ids(MockTasks) == SeedIds
    ensures forall i, j :: 0 <= i < j < |MockTasks| ==> MockTasks[i].id != MockTasks[j].id
  {
    T1Facts(); T2Facts(); T3Facts(); T4Facts(); T5Facts(); T6Facts(); T7Facts(); T8Facts(); T9Facts();
  }

  /** The task number TS-6468 is shared by the tasks with ids 2, 5 and 9, so
      the task number is not a key. */
  lemma DuplicateTaskId()
    ensures forall i :: 0 <= i < |MockTasks| ==>
      (MockTasks[i].taskId == "TS-6468" <==> MockTasks[i].id in {"2", "5", "9"})
  {
    T1Facts(); T2Facts(); T3Facts(); T4Facts(); T5Facts(); T6Facts(); T7Facts(); T8Facts(); T9Facts();
  }


  /** The priorities of the seed tasks, in order. */
  const SeedPriorities: seq<Priority> :=
    [Medium, Low, High, High, Critical, High, High, High, Medium]

  lemma PriorityFacts()
    ensures |MockTasks| == |SeedPriorities|
    ensures forall i :: 0 <= i < |MockTasks| ==> MockTasks[i].priority == SeedPriorities[i]
  {
    T1Facts(); T2Facts(); T3Facts(); T4Facts(); T5Facts(); T6Facts(); T7Facts(); T8Facts(); T9Facts();
  }

  /** The statuses of the seed tasks, in order. */
  const SeedStatuses: seq<Status> :=
    [Cancelled, Completed, Completed, Pending, Pending, Pending, Pending, Pending, Overdue]

  lemma SeedStatusesAgree()
    ensures |MockTasks| == |SeedStatuses|
    ensures forall i :: 0 <= i < |MockTasks| ==> MockTasks[i].status == SeedStatuses[i]
  {
    T1Facts(); T2Facts(); T3Facts(); T4Facts(); T5Facts(); T6Facts(); T7Facts(); T8Facts(); T9Facts();
  }

  lemma TallyCompleted()
    ensures multiset(SeedStatuses)[Completed] == 2
  {
  }

  lemma TallyPending()
    ensures multiset(SeedStatuses)[Pending] == 5
  {
  }

  lemma TallyOverdue()
    ensures multiset(SeedStatuses)[Overdue] == 1
  {
  }

  lemma TallyCancelled()
    ensures multiset(SeedStatuses)[Cancelled] == 1
  {
  }

  lemma TallyInProgress()
    ensures multiset(SeedStatuses)[InProgress] == 0
  {
  }

  lemma SeedStatusTally()
    ensures multiset(SeedStatuses)[Completed] == 2 && multiset(SeedStatuses)[Pending] == 5
    ensures multiset(SeedStatuses)[Overdue] == 1 && multiset(SeedStatuses)[Cancelled] == 1
    ensures multiset(SeedStatuses)[InProgress] == 0
  {
    TallyCompleted(); TallyPending(); TallyOverdue(); TallyCancelled(); TallyInProgress();
  }

  /** Counting one status over a task list only looks at the statuses. */
  lemma {:induction false} CountByStatuses(s: seq<Task>, sts: seq<Status>, st: Status)
    requires |s| == |sts|
    requires forall i :: 0 <= i < |s| ==> s[i].status == sts[i]
    ensures CountStatus(s, st) == multiset(sts)[st]
  {
    if s != [] {
      CountByStatuses(s[1..], sts[1..], st);
      assert sts == [sts[0]] + sts[1..];
    }
  }

  /** The counters over the seed: nine tasks, two completed, five pending,
      one overdue, one cancelled and none in progress. */
  lemma SeedCounts()
    ensures CountsOf(MockTasks) == TaskCounts(9, 2, 5, 1, 1)
    ensures CountStatus(MockTasks, InProgress) == 0
  {
    SeedStatusesAgree();
    SeedStatusTally();
    CountByStatuses(MockTasks, SeedStatuses, Completed);
    CountByStatuses(MockTasks, SeedStatuses, Pending);
    CountByStatuses(MockTasks, SeedStatuses, Overdue);
    CountByStatuses(MockTasks, SeedStatuses, Cancelled);
    CountByStatuses(MockTasks, SeedStatuses, InProgress);
  }

  // ---- Combined filter: status `pending` and priority High or Critical ----

  const UrgentOnly: AdvancedFilters := AdvancedFilters(Some(["High", "Critical"]), None, None, None)

  /** Under this configuration a task passes iff it is pending and its
      priority is High or Critical. */
  lemma PendingUrgentPasses(t: Task)
    ensures Passes(t, "", PendingTasks, UrgentOnly) <==>
            t.status == Pending && (t.priority == High || t.priority == Critical)
  {
    PassesMeaning(t, "", PendingTasks, UrgentOnly);
    StatusFilterMeaning(t, PendingTasks);
    assert PriorityName(t.priority) in ["High", "Critical"] <==> t.priority == High || t.priority == Critical;
  }

  /** The ids a filter keeps, given the verdict on each position. */
  function Kept(ids: seq<string>, keep: seq<bool>): seq<string>
    requires |ids| == |keep|
  {
    if ids == [] then [] else (if keep[0] then [ids[0]] else []) + Kept(ids[1..], keep[1..])
  }

  lemma KeptCons(ids: seq<string>, keep: seq<bool>)
    requires |ids| == |keep| && ids != []
    ensures Kept(ids, keep) == (if keep[0] then [ids[0]] else []) + Kept(ids[1..], keep[1..])
  {
  }

  lemma IdsCons(s: seq<Task>)
    requires s != []
    ensures Ids(s) == [s[0].id] + Ids(s[1..])
  {
  }

  /** Filtering tasks keeps exactly the ids at the positions where the
      predicate holds. */
  lemma {:induction false} IdsOfFilter(s: seq<Task>, p: Task -> bool, keep: seq<bool>)
    requires |keep| == |s|
    requires forall i :: 0 <= i < |s| ==> p(s[i]) == keep[i]
    ensures Ids(Filter(s, p)) == Kept(Ids(s), keep)
  {
    if s != [] {
      var rest := Filter(s[1..], p);
      assert forall i :: 0 <= i < |s[1..]| ==> p(s[1..][i]) == keep[1..][i] by {
        forall i | 0 <= i < |s[1..]| ensures p(s[1..][i]) == keep[1..][i] {
          assert s[1..][i] == s[i + 1];
        }
      }
      IdsOfFilter(s[1..], p, keep[1..]);
      IdsCons(s);
      KeptCons(Ids(s), keep);
      if p(s[0]) {
        assert Filter(s, p) == [s[0]] + rest;
        IdsAppend([s[0]], rest);
      } else {
        assert Filter(s, p) == rest;
      }
    }
  }

  /** Tasks 4 to 8 pass the configuration; 1, 2, 3 and 9 do not. */
  const UrgentKeep: seq<bool> := [false, false, false, true, true, true, true, true, false]

  lemma UrgentVerdicts()
    ensures |UrgentKeep| == |MockTasks|
    ensures forall i :: 0 <= i < |MockTasks| ==>
      PassesFor("", PendingTasks, UrgentOnly)(MockTasks[i]) == UrgentKeep[i]
  {
    SeedStatusesAgree();
    PriorityFacts();
    UrgentKeepFromColumns();
    forall i | 0 <= i < |MockTasks|
      ensures PassesFor("", PendingTasks, UrgentOnly)(MockTasks[i]) == UrgentKeep[i]
    {
      PendingUrgentPasses(MockTasks[i]);
    }
  }

  /** The verdicts follow from the status and priority columns alone. */
  lemma UrgentKeepFromColumns()
    ensures |UrgentKeep| == |SeedStatuses| == |SeedPriorities|
    ensures forall i :: 0 <= i < |UrgentKeep| ==>
      UrgentKeep[i] == (SeedStatuses[i] == Pending && (SeedPriorities[i] == High || SeedPriorities[i] == Critical))
  {
  }

  const SeedIds: seq<string> := ["1", "2", "3", "4", "5", "6", "7", "8", "9"]

  lemma UrgentKept()
    ensures Kept(SeedIds, UrgentKeep) == ["4", "5", "6", "7", "8"]
  {
  }

  /** Pending and High-or-Critical leaves exactly ids 4 to 8, in seed order. */
  lemma CombinedFilterScenario()
    ensures Ids(Narrow(MockTasks, "", PendingTasks, UrgentOnly)) == ["4", "5", "6", "7", "8"]
  {
    UrgentVerdicts();
    NarrowIsFilter(MockTasks, "", PendingTasks, UrgentOnly);
    IdsOfFilter(MockTasks, PassesFor("", PendingTasks, UrgentOnly), UrgentKeep);
    FixtureShape();
    UrgentKept();
  }

  // ---- Sort scenarios ----

  /** The ids at the positions whose key is `k`. */
  function KeyIds(ids: seq<string>, keys: seq<string>, k: string): seq<string>
    requires |ids| == |keys|
  {
    if ids == [] then [] else (if keys[0] == k then [ids[0]] else []) + KeyIds(ids[1..], keys[1..], k)
  }

  /** The ids of each key in `ks`, group after group. */
  function GroupIds(ids: seq<string>, keys: seq<string>, ks: seq<string>): seq<string>
    requires |ids| == |keys|
  {
    if ks == [] then [] else KeyIds(ids, keys, ks[0]) + GroupIds(ids, keys, ks[1..])
  }

  lemma {:induction false} IdsAppend(a: seq<Task>, b: seq<Task>)
    ensures Ids(a + b) == Ids(a) + Ids(b)
  {
  }

  lemma {:induction false} IdsOfKeyed(s: seq<Task>, f: SortField, keys: seq<string>, k: string)
    requires |keys| == |s|
    requires forall i :: 0 <= i < |s| ==> SortKey(s[i], f) == keys[i]
    ensures Ids(WithKey(s, k, f)) == KeyIds(Ids(s), keys, k)
  {
    if s != [] {
      IdsOfKeyed(s[1..], f, keys[1..], k);
      assert Ids(s)[1..] == Ids(s[1..]);
      IdsAppend(if keys[0] == k then [s[0]] else [], WithKey(s[1..], k, f));
    }
  }

  lemma {:induction false} IdsOfGrouped(s: seq<Task>, f: SortField, keys: seq<string>, ks: seq<string>)
    requires |keys| == |s|
    requires forall i :: 0 <= i < |s| ==> SortKey(s[i], f) == keys[i]
    ensures Ids(Grouped(s, ks, f)) == GroupIds(Ids(s), keys, ks)
    decreases |ks|
  {
    if ks != [] {
      IdsOfGrouped(s, f, keys, ks[1..]);
      IdsOfKeyed(s, f, keys, ks[0]);
      IdsAppend(WithKey(s, ks[0], f), Grouped(s, ks[1..], f));
    }
  }

  /** The ids at the positions of rank `j`. */
  function RankIds(ids: seq<string>, ranks: seq<nat>, j: nat): seq<string>
    requires |ids| == |ranks|
  {
    if ids == [] then [] else (if ranks[0] == j then [ids[0]] else []) + RankIds(ids[1..], ranks[1..], j)
  }

  /** The ids of rank `lo`, then of rank `lo + 1`, and so on below `hi`. */
  function RankGroups(ids: seq<string>, ranks: seq<nat>, lo: nat, hi: nat): seq<string>
    requires |ids| == |ranks|
    decreases hi - lo
  {
    if lo >= hi then [] else RankIds(ids, ranks, lo) + RankGroups(ids, ranks, lo + 1, hi)
  }

  lemma {:induction false} RankGroupsSplit(ids: seq<string>, ranks: seq<nat>, lo: nat, mid: nat, hi: nat)
    requires |ids| == |ranks| && lo <= mid <= hi
    ensures RankGroups(ids, ranks, lo, hi) == RankGroups(ids, ranks, lo, mid) + RankGroups(ids, ranks, mid, hi)
    decreases mid - lo
  {
    if lo < mid {
      RankGroupsSplit(ids, ranks, lo + 1, mid, hi);
    }
  }

  lemma RankGroupsOne(ids: seq<string>, ranks: seq<nat>, j: nat)
    requires |ids| == |ranks|
    ensures RankGroups(ids, ranks, j, j + 1) == RankIds(ids, ranks, j)
  {
  }

  /** Three consecutive ranks of one id each. */
  lemma RankGroupsThree(ids: seq<string>, ranks: seq<nat>, lo: nat, x: string, y: string, z: string)
    requires |ids| == |ranks|
    requires RankIds(ids, ranks, lo) == [x] && RankIds(ids, ranks, lo + 1) == [y]
    requires RankIds(ids, ranks, lo + 2) == [z]
    ensures RankGroups(ids, ranks, lo, lo + 3) == [x, y, z]
  {
    assert RankGroups(ids, ranks, lo + 2, lo + 3) == [z];
  }

  lemma RankGroupsJoin(ids: seq<string>, ranks: seq<nat>, lo: nat, mid: nat, hi: nat,
                       a: seq<string>, b: seq<string>, ab: seq<string>)
    requires |ids| == |ranks| && lo <= mid <= hi && a + b == ab
    requires RankGroups(ids, ranks, lo, mid) == a && RankGroups(ids, ranks, mid, hi) == b
    ensures RankGroups(ids, ranks, lo, hi) == ab
  {
    RankGroupsSplit(ids, ranks, lo, mid, hi);
  }

  /** When each key is named by its rank in an increasing key list, picking
      a key is picking a rank: distinct ranks name distinct keys. */
  lemma {:induction false} KeyIdsByRank(ids: seq<string>, keys: seq<string>, ranks: seq<nat>, ks: seq<string>, j: nat)
    requires |ids| == |keys| == |ranks| && Increasing(ks) && j < |ks|
    requires forall i :: 0 <= i < |keys| ==> ranks[i] < |ks| && keys[i] == ks[ranks[i]]
    ensures KeyIds(ids, keys, ks[j]) == RankIds(ids, ranks, j)
  {
    if ids != [] {
      KeyIdsByRank(ids[1..], keys[1..], ranks[1..], ks, j);
      var r := ranks[0];
      if r < j {
        assert Less(ks[r], ks[j]);
        LessIrreflexive(ks[j]);
      } else if j < r {
        assert Less(ks[j], ks[r]);
        LessIrreflexive(ks[j]);
      }
    }
  }

  lemma {:induction false} GroupIdsByRank(ids: seq<string>, keys: seq<string>, ranks: seq<nat>, ks: seq<string>, m: nat)
    requires |ids| == |keys| == |ranks| && Increasing(ks) && m <= |ks|
    requires forall i :: 0 <= i < |keys| ==> ranks[i] < |ks| && keys[i] == ks[ranks[i]]
    ensures GroupIds(ids, keys, ks[m..]) == RankGroups(ids, ranks, m, |ks|)
    decreases |ks| - m
  {
    if m < |ks| {
      GroupIdsByRank(ids, keys, ranks, ks, m + 1);
      KeyIdsByRank(ids, keys, ranks, ks, m);
      assert ks[m..][1..] == ks[m + 1..];
    }
  }

  /** An ascending sort over keys named by rank in an increasing key list
      yields the ids of rank 0, then of rank 1, and so on. */
  lemma SortByRanks(s: seq<Task>, f: SortField, ks: seq<string>, ranks: seq<nat>)
    requires Increasing(ks) && |ranks| == |s|
    requires forall i :: 0 <= i < |s| ==> ranks[i] < |ks| && SortKey(s[i], f) == ks[ranks[i]]
    ensures Ids(StableSort(s, f, Asc)) == RankGroups(Ids(s), ranks, 0, |ks|)
  {
    forall i | 0 <= i < |s| ensures SortKey(s[i], f) in ks {
      assert ks[ranks[i]] in ks;
    }
    AscendingGroups(s, ks, f);
    GroupedIdsByRank(s, f, ks, ranks);
  }

  lemma GroupedIdsByRank(s: seq<Task>, f: SortField, ks: seq<string>, ranks: seq<nat>)
    requires Increasing(ks) && |ranks| == |s|
    requires forall i :: 0 <= i < |s| ==> ranks[i] < |ks| && SortKey(s[i], f) == ks[ranks[i]]
    ensures Ids(Grouped(s, ks, f)) == RankGroups(Ids(s), ranks, 0, |ks|)
  {
    var keys := seq(|s|, i requires 0 <= i < |s| => SortKey(s[i], f));
    IdsOfGrouped(s, f, keys, ks);
    GroupIdsByRank(Ids(s), keys, ranks, ks, 0);
    assert ks[0..] == ks;
  }

  // Default sort: customer name, ascending.

  const CustomerKeys: seq<string> := [Lower("AVF"), Lower("Instances")]
  const CustomerRanks: seq<nat> := [0, 0, 0, 0, 0, 1, 1, 1, 0]

  lemma CustomerKeyFacts()
    ensures Increasing(CustomerKeys) && |CustomerRanks| == |MockTasks|
    ensures forall i :: 0 <= i < |MockTasks| ==>
      CustomerRanks[i] < |CustomerKeys| && SortKey(MockTasks[i], ByCustomerName) == CustomerKeys[CustomerRanks[i]]
  {
    T1Facts(); T2Facts(); T3Facts(); T4Facts(); T5Facts(); T6Facts(); T7Facts(); T8Facts(); T9Facts();
    LessAtLower("AVF", "Instances", 0);
  }

  lemma AvfIds()
    ensures RankIds(SeedIds, CustomerRanks, 0) == ["1", "2", "3", "4", "5", "9"]
  {
  }

  lemma InstancesIds()
    ensures RankIds(SeedIds, CustomerRanks, 1) == ["6", "7", "8"]
  {
  }

  lemma DefaultRankGroups()
    ensures RankGroups(SeedIds, CustomerRanks, 0, 2) == ["1", "2", "3", "4", "5", "9", "6", "7", "8"]
  {
    AvfIds();
    InstancesIds();
    RankGroupsOne(SeedIds, CustomerRanks, 0);
    RankGroupsOne(SeedIds, CustomerRanks, 1);
    RankGroupsJoin(SeedIds, CustomerRanks, 0, 1, 2, ["1", "2", "3", "4", "5", "9"], ["6", "7", "8"],
                   ["1", "2", "3", "4", "5", "9", "6", "7", "8"]);
  }

  /** The initial sort (customer name, ascending) keeps the AVF tasks in seed
      order, 9 after 5, ahead of the three Instances tasks: stability shows. */
  lemma DefaultSortScenario()
    ensures Ids(StableSort(MockTasks, ByCustomerName, Asc)) == ["1", "2", "3", "4", "5", "9", "6", "7", "8"]
  {
    CustomerKeyFacts();
    SortByRanks(MockTasks, ByCustomerName, CustomerKeys, CustomerRanks);
    FixtureShape();
    DefaultRankGroups();
  }

  // Priority, ascending.

  const PriorityKeyList: seq<string> := [Lower("Critical"), Lower("High"), Lower("Low"), Lower("Medium")]
  const PriorityRanks: seq<nat> := [3, 2, 1, 1, 0, 1, 1, 1, 3]

  lemma PriorityOrderIncreasing()
    ensures Increasing(PriorityKeyList)
  {
    LessAtLower("Critical", "High", 0);
    LessAtLower("High", "Low", 0);
    LessAtLower("Low", "Medium", 0);
    IncreasingFromChain(PriorityKeyList);
  }

  lemma PriorityKeyFacts()
    ensures |PriorityRanks| == |MockTasks|
    ensures forall i :: 0 <= i < |MockTasks| ==>
      PriorityRanks[i] < |PriorityKeyList| && SortKey(MockTasks[i], ByPriority) == PriorityKeyList[PriorityRanks[i]]
  {
    PriorityFacts();
  }

  lemma CriticalIds()
    ensures RankIds(SeedIds, PriorityRanks, 0) == ["5"]
  {
  }

  lemma HighIds()
    ensures RankIds(SeedIds, PriorityRanks, 1) == ["3", "4", "6", "7", "8"]
  {
  }

  lemma LowIds()
    ensures RankIds(SeedIds, PriorityRanks, 2) == ["2"]
  {
  }

  lemma MediumIds()
    ensures RankIds(SeedIds, PriorityRanks, 3) == ["1", "9"]
  {
  }

  lemma PriorityRankGroupsLow()
    ensures RankGroups(SeedIds, PriorityRanks, 0, 2) == ["5", "3", "4", "6", "7", "8"]
  {
    CriticalIds(); HighIds();
    RankGroupsOne(SeedIds, PriorityRanks, 0);
    RankGroupsOne(SeedIds, PriorityRanks, 1);
    RankGroupsJoin(SeedIds, PriorityRanks, 0, 1, 2, ["5"], ["3", "4", "6", "7", "8"], ["5", "3", "4", "6", "7", "8"]);
  }

  lemma PriorityRankGroupsHigh()
    ensures RankGroups(SeedIds, PriorityRanks, 2, 4) == ["2", "1", "9"]
  {
    LowIds(); MediumIds();
    RankGroupsOne(SeedIds, PriorityRanks, 2);
    RankGroupsOne(SeedIds, PriorityRanks, 3);
    RankGroupsJoin(SeedIds, PriorityRanks, 2, 3, 4, ["2"], ["1", "9"], ["2", "1", "9"]);
  }

  lemma PriorityConcat()
    ensures ["5", "3", "4", "6", "7", "8"] + ["2", "1", "9"] == ["5", "3", "4", "6", "7", "8", "2", "1", "9"]
  {
  }

  lemma PriorityRankGroups()
    ensures RankGroups(SeedIds, PriorityRanks, 0, 4) == ["5", "3", "4", "6", "7", "8", "2", "1", "9"]
  {
    PriorityRankGroupsLow();
    PriorityRankGroupsHigh();
    PriorityConcat();
    RankGroupsJoin(SeedIds, PriorityRanks, 0, 2, 4, ["5", "3", "4", "6", "7", "8"], ["2", "1", "9"],
                   ["5", "3", "4", "6", "7", "8", "2", "1", "9"]);
  }

  /** Priority ascending is alphabetical: the Critical task, then the five
      High ones in seed order, then the Low one, then the two Medium ones. */
  lemma PrioritySortScenario()
    ensures Ids(StableSort(MockTasks, ByPriority, Asc)) == ["5", "3", "4", "6", "7", "8", "2", "1", "9"]
  {
    PriorityOrderIncreasing();
    PriorityKeyFacts();
    SortByRanks(MockTasks, ByPriority, PriorityKeyList, PriorityRanks);
    FixtureShape();
    PriorityRankGroups();
  }

  // Due date, ascending.

  /** The sort keys of the seed's due dates, in calendar order. */
  const DateKeys: seq<string> :=
    [Lower("2024-07-20"),
     Lower("2024-07-23"),
     Lower("2024-07-24"),
     Lower("2024-07-25"),
     Lower("2024-07-28"),
     Lower("2024-07-29"),
     Lower("2024-07-30"),
     Lower("2024-08-01"),
     Lower("2024-08-02")]

  /** The calendar position of each seed task's due date, in seed order. */
  const DateRanks: seq<nat> := [1, 3, 2, 7, 6, 4, 8, 5, 0]

  lemma DateStep0()
    ensures Less(DateKeys[0], DateKeys[1])
  {
    LessAtLower("2024-07-20", "2024-07-23", 9);
  }

  lemma DateStep1()
    ensures Less(DateKeys[1], DateKeys[2])
  {
    LessAtLower("2024-07-23", "2024-07-24", 9);
  }

  lemma DateStep2()
    ensures Less(DateKeys[2], DateKeys[3])
  {
    LessAtLower("2024-07-24", "2024-07-25", 9);
  }

  lemma DateStep3()
    ensures Less(DateKeys[3], DateKeys[4])
  {
    LessAtLower("2024-07-25", "2024-07-28", 9);
  }

  lemma DateStep4()
    ensures Less(DateKeys[4], DateKeys[5])
  {
    LessAtLower("2024-07-28", "2024-07-29", 9);
  }

  lemma DateStep5()
    ensures Less(DateKeys[5], DateKeys[6])
  {
    LessAtLower("2024-07-29", "2024-07-30", 8);
  }

  lemma DateStep6()
    ensures Less(DateKeys[6], DateKeys[7])
  {
    LessAtLower("2024-07-30", "2024-08-01", 6);
  }

  lemma DateStep7()
    ensures Less(DateKeys[7], DateKeys[8])
  {
    LessAtLower("2024-08-01", "2024-08-02", 9);
  }

  lemma DateChainEarly()
    ensures forall j :: 0 <= j < 4 ==> Less(DateKeys[j], DateKeys[j + 1])
  {
    DateStep0(); DateStep1(); DateStep2(); DateStep3();
  }

  lemma DateChainLate()
    ensures forall j :: 4 <= j < 8 ==> Less(DateKeys[j], DateKeys[j + 1])
  {
    DateStep4(); DateStep5(); DateStep6(); DateStep7();
  }

  lemma DatesIncreasing()
    ensures Increasing(DateKeys)
  {
    DateChainEarly();
    DateChainLate();
    IncreasingFromChain(DateKeys);
  }

  lemma DateKeyFacts()
    ensures |DateRanks| == |MockTasks|
    ensures forall i :: 0 <= i < |MockTasks| ==>
      DateRanks[i] < |DateKeys| && SortKey(MockTasks[i], ByDueDate) == DateKeys[DateRanks[i]]
  {
    T1Facts(); T2Facts(); T3Facts(); T4Facts(); T5Facts(); T6Facts(); T7Facts(); T8Facts(); T9Facts();
  }

  lemma DateRankIds0()
    ensures RankIds(SeedIds, DateRanks, 0) == ["9"]
  {
  }

  lemma DateRankIds1()
    ensures RankIds(SeedIds, DateRanks, 1) == ["1"]
  {
  }

  lemma DateRankIds2()
    ensures RankIds(SeedIds, DateRanks, 2) == ["3"]
  {
  }

  lemma DateRankIds3()
    ensures RankIds(SeedIds, DateRanks, 3) == ["2"]
  {
  }

  lemma DateRankIds4()
    ensures RankIds(SeedIds, DateRanks, 4) == ["6"]
  {
  }

  lemma DateRankIds5()
    ensures RankIds(SeedIds, DateRanks, 5) == ["8"]
  {
  }

  lemma DateRankIds6()
    ensures RankIds(SeedIds, DateRanks, 6) == ["5"]
  {
  }

  lemma DateRankIds7()
    ensures RankIds(SeedIds, DateRanks, 7) == ["4"]
  {
  }

  lemma DateRankIds8()
    ensures RankIds(SeedIds, DateRanks, 8) == ["7"]
  {
  }

  lemma DateRankGroupsFirst()
    ensures RankGroups(SeedIds, DateRanks, 0, 3) == ["9", "1", "3"]
  {
    DateRankIds0(); DateRankIds1(); DateRankIds2();
    RankGroupsThree(SeedIds, DateRanks, 0, "9", "1", "3");
  }

  lemma DateRankGroupsSecond()
    ensures RankGroups(SeedIds, DateRanks, 3, 6) == ["2", "6", "8"]
  {
    DateRankIds3(); DateRankIds4(); DateRankIds5();
    RankGroupsThree(SeedIds, DateRanks, 3, "2", "6", "8");
  }

  lemma DateRankGroupsThird()
    ensures RankGroups(SeedIds, DateRanks, 6, 9) == ["5", "4", "7"]
  {
    DateRankIds6(); DateRankIds7(); DateRankIds8();
    RankGroupsThree(SeedIds, DateRanks, 6, "5", "4", "7");
  }

  lemma DateConcat()
    ensures ["2", "6", "8"] + ["5", "4", "7"] == ["2", "6", "8", "5", "4", "7"]
    ensures ["9", "1", "3"] + ["2", "6", "8", "5", "4", "7"] == ["9", "1", "3", "2", "6", "8", "5", "4", "7"]
  {
  }

  lemma DateRankGroups()
    ensures RankGroups(SeedIds, DateRanks, 0, 9) == ["9", "1", "3", "2", "6", "8", "5", "4", "7"]
  {
    DateRankGroupsFirst();
    DateRankGroupsSecond();
    DateRankGroupsThird();
    DateConcat();
    RankGroupsJoin(SeedIds, DateRanks, 3, 6, 9, ["2", "6", "8"], ["5", "4", "7"], ["2", "6", "8", "5", "4", "7"]);
    RankGroupsJoin(SeedIds, DateRanks, 0, 3, 9, ["9", "1", "3"], ["2", "6", "8", "5", "4", "7"],
                   ["9", "1", "3", "2", "6", "8", "5", "4", "7"]);
  }

  /** Due date ascending puts task 9 (due 2024-07-20) first and task 7 (due
      2024-08-02) last; all nine dates differ, so the whole order is fixed. */
  lemma DueDateSortScenario()
    ensures Ids(StableSort(MockTasks, ByDueDate, Asc)) == ["9", "1", "3", "2", "6", "8", "5", "4", "7"]
  {
    DatesIncreasing();
    DateKeyFacts();
    SortByRanks(MockTasks, ByDueDate, DateKeys, DateRanks);
    FixtureShape();
    DateRankGroups();
  }
}
