/** The task table (components/dashboard/TaskTable.tsx): the select-all
    checkbox and the row checkboxes, which report to the page through
    `onTaskSelect`; the sort icon; the column table that decides which
    headers sort; and the option lists of the row dropdowns. */
module Table {
  import opened Types
  import opened Lists
  import opened Store

  // ---- Dropdown options ----

  const StatusOptions: seq<Status> := [Pending, InProgress, Completed, Cancelled, Overdue]
  const PriorityOptions: seq<Priority> := [Low, Medium, High, Critical]

  /** The row dropdowns offer every status and every priority, each once. */
  lemma OptionsComplete()
    ensures forall s :: s in StatusOptions
    ensures forall p :: p in PriorityOptions
    ensures |StatusOptions| == 5 && |PriorityOptions| == 4
    ensures forall i, j :: 0 <= i < j < |StatusOptions| ==> StatusOptions[i] != StatusOptions[j]
    ensures forall i, j :: 0 <= i < j < |PriorityOptions| ==> PriorityOptions[i] != PriorityOptions[j]
  {
    forall s ensures s in StatusOptions {
      match s
      case Pending => assert StatusOptions[0] == s;
      case InProgress => assert StatusOptions[1] == s;
      case Completed => assert StatusOptions[2] == s;
      case Cancelled => assert StatusOptions[3] == s;
      case Overdue => assert StatusOptions[4] == s;
    }
    forall p ensures p in PriorityOptions {
      match p
      case Low => assert PriorityOptions[0] == p;
      case Medium => assert PriorityOptions[1] == p;
      case High => assert PriorityOptions[2] == p;
      case Critical => assert PriorityOptions[3] == p;
    }
  }

  // ---- Columns and the sort header ----

  datatype Column = Column(key: string, heading: string, sortable: bool)

  /** `columns`, in display order. */
  const Columns: seq<Column> := [
    Column("customerName", "Customer Name", true),
    Column("customerCode", "Customer Code", false),
    Column("taskId", "Task ID", true),
    Column("title", "Title", true),
    Column("status", "Status", true),
    Column("priority", "Priority", true),
    Column("type", "Type", false),
    Column("description", "Description", false),
    Column("action", "Action", false)
  ]

  /** A field whose header is a sort button. */
  predicate Clickable(f: SortField) {
    exists i :: 0 <= i < |Columns| && Columns[i].sortable && Columns[i].key == SortFieldName(f)
  }

  /** Exactly customerName, taskId, title, status and priority sort from the
      header; dueDate does not. */
  lemma ClickableFields(f: SortField)
    ensures Clickable(f) <==> f != ByDueDate
  {
    match f
    case ByCustomerName => assert Columns[0].sortable && Columns[0].key == SortFieldName(f);
    case ByTaskId => assert Columns[2].sortable && Columns[2].key == SortFieldName(f);
    case ByTitle => assert Columns[3].sortable && Columns[3].key == SortFieldName(f);
    case ByStatus => assert Columns[4].sortable && Columns[4].key == SortFieldName(f);
    case ByPriority => assert Columns[5].sortable && Columns[5].key == SortFieldName(f);
    case ByDueDate =>
      forall i | 0 <= i < |Columns| && Columns[i].sortable
        ensures Columns[i].key != "dueDate"
      {
      }
  }

  /** A run of header clicks, as `handleSort` applies them. */
  function AfterClicks(s: SortState, clicks: seq<SortField>): SortState
    decreases |clicks|
  {
    if clicks == [] then s else AfterClicks(SortAfterClick(s, clicks[0]), clicks[1..])
  }

  /** The dueDate order cannot be reached from the header: starting from any
      other field, header clicks never sort by due date. */
  lemma {:induction false} DueDateUnreachable(s: SortState, clicks: seq<SortField>)
    requires s.field != ByDueDate
    requires forall i :: 0 <= i < |clicks| ==> Clickable(clicks[i])
    ensures AfterClicks(s, clicks).field != ByDueDate
    decreases |clicks|
  {
    if clicks != [] {
      ClickableFields(clicks[0]);
      DueDateUnreachable(SortAfterClick(s, clicks[0]), clicks[1..]);
    }
  }

  datatype Arrow = Up | Down

  /** `SortIcon`: only on the current field, up for asc and down for desc. */
  function SortIcon(s: SortState, field: SortField): Option<Arrow> {
    if s.field != field then None else if s.order == Asc then Some(Up) else Some(Down)
  }

  /** After a header click the icon sits on the clicked column only, it
      points up on a newly chosen column, and a second click on it turns the
      arrow round. */
  lemma SortIconAfterClick(s: SortState, clicked: SortField, other: SortField)
    requires other != clicked
    ensures SortIcon(SortAfterClick(s, clicked), clicked).Some?
    ensures s.field != clicked ==> SortIcon(SortAfterClick(s, clicked), clicked) == Some(Up)
    ensures SortIcon(SortAfterClick(s, clicked), other) == None
    ensures SortIcon(SortAfterClick(SortAfterClick(s, clicked), clicked), clicked) !=
            SortIcon(SortAfterClick(s, clicked), clicked)
  {
  }

  // ---- Selection ----

  /** One `onTaskSelect(taskId, selected)` call. */
  datatype SelectCall = SelectCall(id: string, selected: bool)

  /** The calls `handleSelectAll` issues: one per displayed task, in order. */
  function SelectAllCalls(tasks: seq<Task>, on: bool): seq<SelectCall> {
    seq(|tasks|, i requires 0 <= i < |tasks| => SelectCall(tasks[i].id, on))
  }

  /** The page's `handleTaskSelect` applied to each call in turn. */
  function ApplyCalls(selected: seq<string>, calls: seq<SelectCall>): seq<string>
    decreases |calls|
  {
    if calls == [] then selected
    else ApplyCalls(SelectionAfter(selected, calls[0].id, calls[0].selected), calls[1..])
  }

  /** Select-all appends every displayed id, so a row that was already
      selected is listed twice. */
  lemma {:induction false} SelectAllAppends(selected: seq<string>, tasks: seq<Task>)
    ensures ApplyCalls(selected, SelectAllCalls(tasks, true)) == selected + Ids(tasks)
    decreases |tasks|
  {
    if tasks != [] {
      assert SelectAllCalls(tasks, true)[1..] == SelectAllCalls(tasks[1..], true);
      SelectAllAppends(selected + [tasks[0].id], tasks[1..]);
      assert Ids(tasks) == [tasks[0].id] + Ids(tasks[1..]);
    }
  }

  /** Un-selecting all drops every displayed id, however often it was
      listed, and keeps every other id as often as it was listed. */
  lemma {:induction false} SelectAllOffRemoves(selected: seq<string>, tasks: seq<Task>)
    ensures forall x :: x in Ids(tasks) ==> x !in ApplyCalls(selected, SelectAllCalls(tasks, false))
    ensures forall x :: x !in Ids(tasks) ==>
      multiset(ApplyCalls(selected, SelectAllCalls(tasks, false)))[x] == multiset(selected)[x]
    decreases |tasks|
  {
    if tasks != [] {
      assert SelectAllCalls(tasks, false)[1..] == SelectAllCalls(tasks[1..], false);
      var next := RemoveAll(selected, tasks[0].id);
      SelectAllOffRemoves(next, tasks[1..]);
      assert Ids(tasks) == [tasks[0].id] + Ids(tasks[1..]);
      var r := ApplyCalls(selected, SelectAllCalls(tasks, false));
      assert r == ApplyCalls(next, SelectAllCalls(tasks[1..], false));
      if tasks[0].id in r {
        RemovedStaysOut(next, tasks[1..], tasks[0].id);
      }
    }
  }

  /** An id absent before un-selecting a batch stays absent. */
  lemma {:induction false} RemovedStaysOut(selected: seq<string>, tasks: seq<Task>, id: string)
    requires id !in selected
    ensures id !in ApplyCalls(selected, SelectAllCalls(tasks, false))
    decreases |tasks|
  {
    if tasks != [] {
      assert SelectAllCalls(tasks, false)[1..] == SelectAllCalls(tasks[1..], false);
      var next := RemoveAll(selected, tasks[0].id);
      assert multiset(next)[id] == 0 by {
        if id != tasks[0].id {
          assert multiset(selected)[id] == 0;
        }
      }
      RemovedStaysOut(next, tasks[1..], id);
    }
  }

  /** The table's own state. */
  class TaskTable {
    var selectAll: bool

    constructor ()
      ensures !selectAll
    {
      selectAll := false;
    }

    /** `handleSelectAll`: flips `selectAll` and reports every displayed
        task with the new value, in order. */
    method HandleSelectAll(tasks: seq<Task>) returns (calls: seq<SelectCall>)
      modifies this
      ensures selectAll == !old(selectAll)
      ensures calls == SelectAllCalls(tasks, selectAll)
    {
      var newSelectAll := !selectAll;
      selectAll := newSelectAll;
      calls := [];
      for i := 0 to |tasks|
        invariant calls == SelectAllCalls(tasks[..i], newSelectAll)
      {
        calls := calls + [SelectCall(tasks[i].id, newSelectAll)];
      }
      assert tasks[..|tasks|] == tasks;
    }

    /** `handleTaskSelect`: forwards the choice; deselecting a row clears
        `selectAll`, selecting one never sets it. */
    method HandleTaskSelect(id: string, selected: bool) returns (call: SelectCall)
      modifies this
      ensures call == SelectCall(id, selected)
      ensures selectAll == (old(selectAll) && selected)
    {
      call := SelectCall(id, selected);
      if !selected {
        selectAll := false;
      }
    }
  }
}
