/** The task-store updates of the page (app/page.tsx:95-155) as functions
    on values: the new `selectedTasks`, sort state and task list each
    handler computes. The page object that stores them is in module Page. */
module Store {
  import opened Types
  import opened Strings
  import opened Lists

  // ---- Row selection ----

  /** `handleTaskSelect`: selecting appends the id, deselecting drops every
      occurrence of it. */
  function SelectionAfter(selected: seq<string>, id: string, on: bool): seq<string> {
    if on then selected + [id] else RemoveAll(selected, id)
  }

  /** Selecting puts the id in the list; deselecting takes it out, and other
      ids keep their number of occurrences either way. */
  lemma SelectionMeaning(selected: seq<string>, id: string, on: bool)
    ensures id in SelectionAfter(selected, id, on) <==> on
    ensures forall x :: x != id ==> multiset(SelectionAfter(selected, id, on))[x] == multiset(selected)[x]
    ensures on ==> multiset(SelectionAfter(selected, id, on))[id] == multiset(selected)[id] + 1
  {
  }

  /** Selecting an unselected row and deselecting it again restores the list. */
  lemma SelectDeselectRestores(selected: seq<string>, id: string)
    requires id !in selected
    ensures SelectionAfter(SelectionAfter(selected, id, true), id, false) == selected
  {
    RemoveAllAppend(selected, [id], id);
    RemoveAllAbsent(selected, id);
    assert RemoveAll([id], id) == [];
  }

  // ---- Sort header ----

  datatype SortState = SortState(field: SortField, order: SortOrder)

  function Flip(o: SortOrder): SortOrder {
    if o == Asc then Desc else Asc
  }

  /** `handleSort`: the current field flips the order; another field becomes
      current, ascending. */
  function SortAfterClick(s: SortState, clicked: SortField): SortState {
    if s.field == clicked then SortState(s.field, Flip(s.order)) else SortState(clicked, Asc)
  }

  /** After a click the clicked field is current; the order flips exactly
      when it already was, and is `asc` otherwise. */
  lemma SortClickMeaning(s: SortState, clicked: SortField)
    ensures SortAfterClick(s, clicked).field == clicked
    ensures s.field == clicked ==> SortAfterClick(s, clicked).order != s.order
    ensures s.field != clicked ==> SortAfterClick(s, clicked).order == Asc
  {
  }

  /** Two clicks on the same header restore the sort state. */
  lemma SortClickTwice(s: SortState, clicked: SortField)
    requires s.field == clicked
    ensures SortAfterClick(SortAfterClick(s, clicked), clicked) == s
  {
  }

  /** Two clicks on a new header leave it sorted descending. */
  lemma SortNewFieldTwice(s: SortState, clicked: SortField)
    requires s.field != clicked
    ensures SortAfterClick(SortAfterClick(s, clicked), clicked) == SortState(clicked, Desc)
  {
  }

  // ---- Creation ----

  /** The one event a new task carries. */
  function CreatedEventAt(timestamp: string): Event {
    Event("1", "Task Created", "Task was created and assigned", timestamp, CreatedEvent)
  }

  /** The task `handleCreateTask` builds. The clock is a parameter: `nowMs`
      is `Date.now()`, and `createdAt`/`eventAt` are the two ISO strings of
      the two `new Date().toISOString()` reads. */
  function BuildTask(n: NewTask, nowMs: int, createdAt: string, eventAt: string): Task {
    Task(IntToString(nowMs), n.customerName, n.customerCode, n.taskId, n.title, n.status,
         n.priority, n.taskType, n.description, n.dueDate, createdAt, n.owner,
         Some([]), Some([CreatedEventAt(eventAt)]), Some([]))
  }

  /** The form-visible part of a task. */
  function Omit(t: Task): NewTask {
    NewTask(t.customerName, t.customerCode, t.taskId, t.title, t.status, t.priority,
            t.taskType, t.description, t.dueDate, t.owner)
  }

  /** The built task carries exactly the given fields, the clock reading as
      its id, no notes, no tickets and one `created` event. */
  lemma BuildTaskMeaning(n: NewTask, nowMs: int, createdAt: string, eventAt: string)
    ensures Omit(BuildTask(n, nowMs, createdAt, eventAt)) == n
    ensures ParseInt(BuildTask(n, nowMs, createdAt, eventAt).id) == nowMs
    ensures BuildTask(n, nowMs, createdAt, eventAt).createdDate == createdAt
    ensures NotesOf(BuildTask(n, nowMs, createdAt, eventAt)) == []
    ensures TicketsOf(BuildTask(n, nowMs, createdAt, eventAt)) == []
    ensures |EventsOf(BuildTask(n, nowMs, createdAt, eventAt))| == 1
    ensures EventsOf(BuildTask(n, nowMs, createdAt, eventAt))[0].kind == CreatedEvent
  {
    IntToStringRoundTrip(nowMs);
  }

  /** `[...prev, task]`. */
  function Appended(tasks: seq<Task>, n: NewTask, nowMs: int, createdAt: string, eventAt: string): seq<Task> {
    tasks + [BuildTask(n, nowMs, createdAt, eventAt)]
  }

  /** Creation adds exactly one task, at the end, and leaves the others
      untouched. */
  lemma AppendedMeaning(tasks: seq<Task>, n: NewTask, nowMs: int, createdAt: string, eventAt: string)
    ensures |Appended(tasks, n, nowMs, createdAt, eventAt)| == |tasks| + 1
    ensures Appended(tasks, n, nowMs, createdAt, eventAt)[..|tasks|] == tasks
    ensures Omit(Appended(tasks, n, nowMs, createdAt, eventAt)[|tasks|]) == n
    ensures multiset(Appended(tasks, n, nowMs, createdAt, eventAt)) ==
            multiset(tasks) + multiset{BuildTask(n, nowMs, createdAt, eventAt)}
  {
    BuildTaskMeaning(n, nowMs, createdAt, eventAt);
    assert Appended(tasks, n, nowMs, createdAt, eventAt)[..|tasks|] == tasks;
  }

  // ---- Updates ----

  /** `Partial<Task>`: a present key overrides the task's value. */
  datatype TaskPatch = TaskPatch(
    id: Option<string>,
    customerName: Option<string>,
    customerCode: Option<string>,
    taskId: Option<string>,
    title: Option<string>,
    status: Option<Status>,
    priority: Option<Priority>,
    taskType: Option<string>,
    description: Option<string>,
    dueDate: Option<string>,
    createdDate: Option<string>,
    owner: Option<string>,
    notes: Option<Option<seq<Note>>>,
    events: Option<Option<seq<Event>>>,
    tickets: Option<Option<seq<Ticket>>>)

  /** `{}`. */
  const EmptyPatch: TaskPatch := TaskPatch(None, None, None, None, None, None, None, None,
                                          None, None, None, None, None, None, None)

  function Or<T>(o: Option<T>, d: T): T {
    if o.Some? then o.value else d
  }

  /** `{ ...task, ...updates }`. */
  function Merge(t: Task, p: TaskPatch): Task {
    Task(Or(p.id, t.id), Or(p.customerName, t.customerName), Or(p.customerCode, t.customerCode),
         Or(p.taskId, t.taskId), Or(p.title, t.title), Or(p.status, t.status),
         Or(p.priority, t.priority), Or(p.taskType, t.taskType), Or(p.description, t.description),
         Or(p.dueDate, t.dueDate), Or(p.createdDate, t.createdDate), Or(p.owner, t.owner),
         Or(p.notes, t.notes), Or(p.events, t.events), Or(p.tickets, t.tickets))
  }

  /** `{ ...p, ...q }` on patches: the later patch wins. */
  function Then(p: TaskPatch, q: TaskPatch): TaskPatch {
    TaskPatch(if q.id.Some? then q.id else p.id,
              if q.customerName.Some? then q.customerName else p.customerName,
              if q.customerCode.Some? then q.customerCode else p.customerCode,
              if q.taskId.Some? then q.taskId else p.taskId,
              if q.title.Some? then q.title else p.title,
              if q.status.Some? then q.status else p.status,
              if q.priority.Some? then q.priority else p.priority,
              if q.taskType.Some? then q.taskType else p.taskType,
              if q.description.Some? then q.description else p.description,
              if q.dueDate.Some? then q.dueDate else p.dueDate,
              if q.createdDate.Some? then q.createdDate else p.createdDate,
              if q.owner.Some? then q.owner else p.owner,
              if q.notes.Some? then q.notes else p.notes,
              if q.events.Some? then q.events else p.events,
              if q.tickets.Some? then q.tickets else p.tickets)
  }

  /** The empty patch changes nothing, a patch applied twice is applied once,
      and two patches in a row are one combined patch. */
  lemma MergeLaws(t: Task, p: TaskPatch, q: TaskPatch)
    ensures Merge(t, EmptyPatch) == t
    ensures Merge(Merge(t, p), p) == Merge(t, p)
    ensures Merge(Merge(t, p), q) == Merge(t, Then(p, q))
  {
  }

  /** `tasks.map(task => task.id === id ? { ...task, ...updates } : task)`. */
  function UpdateWhere(tasks: seq<Task>, id: string, p: TaskPatch): seq<Task> {
    seq(|tasks|, i requires 0 <= i < |tasks| => if tasks[i].id == id then Merge(tasks[i], p) else tasks[i])
  }

  /** The update keeps the length, patches every task with the id and only
      those, and is a no-op when no task has the id. */
  lemma UpdateWhereMeaning(tasks: seq<Task>, id: string, p: TaskPatch)
    ensures |UpdateWhere(tasks, id, p)| == |tasks|
    ensures forall i :: 0 <= i < |tasks| && tasks[i].id == id ==> UpdateWhere(tasks, id, p)[i] == Merge(tasks[i], p)
    ensures forall i :: 0 <= i < |tasks| && tasks[i].id != id ==> UpdateWhere(tasks, id, p)[i] == tasks[i]
    ensures (forall t :: t in tasks ==> t.id != id) ==> UpdateWhere(tasks, id, p) == tasks
  {
  }

  function Ids(tasks: seq<Task>): seq<string> {
    seq(|tasks|, i requires 0 <= i < |tasks| => tasks[i].id)
  }

  /** A patch without an `id` key keeps every id where it was. */
  lemma UpdateWhereKeepsIds(tasks: seq<Task>, id: string, p: TaskPatch)
    requires p.id.None?
    ensures Ids(UpdateWhere(tasks, id, p)) == Ids(tasks)
  {
  }

  /** `{ ...task, status }`. */
  function StatusPatch(s: Status): TaskPatch {
    EmptyPatch.(status := Some(s))
  }

  function PriorityPatch(p: Priority): TaskPatch {
    EmptyPatch.(priority := Some(p))
  }

  /** `handleStatusChange`. */
  function StatusChanged(tasks: seq<Task>, id: string, s: Status): seq<Task> {
    UpdateWhere(tasks, id, StatusPatch(s))
  }

  /** `handlePriorityChange`. */
  function PriorityChanged(tasks: seq<Task>, id: string, p: Priority): seq<Task> {
    UpdateWhere(tasks, id, PriorityPatch(p))
  }

  /** A status change gives every task with the id that status and changes
      nothing else about any task. */
  lemma StatusChangedMeaning(tasks: seq<Task>, id: string, s: Status)
    ensures |StatusChanged(tasks, id, s)| == |tasks|
    ensures forall i :: 0 <= i < |tasks| ==>
      StatusChanged(tasks, id, s)[i] == (if tasks[i].id == id then tasks[i].(status := s) else tasks[i])
  {
  }

  lemma PriorityChangedMeaning(tasks: seq<Task>, id: string, p: Priority)
    ensures |PriorityChanged(tasks, id, p)| == |tasks|
    ensures forall i :: 0 <= i < |tasks| ==>
      PriorityChanged(tasks, id, p)[i] == (if tasks[i].id == id then tasks[i].(priority := p) else tasks[i])
  {
  }
}
