/** The records and closed enumerations of the dashboard (types/index.ts),
    plus the advanced-filter object shared by the filter panel and the page. */
module Types {

  datatype Option<T> = None | Some(value: T)

  /** `Task['status']`: exactly five values. */
  datatype Status = Pending | InProgress | Overdue | Completed | Cancelled

  /** The string each status value is at run time. */
  function StatusName(s: Status): string {
    match s
    case Pending => "Pending"
    case InProgress => "In Progress"
    case Overdue => "Overdue"
    case Completed => "Completed"
    case Cancelled => "Cancelled"
  }

  const StatusLiterals: set<string> := {"Pending", "In Progress", "Overdue", "Completed", "Cancelled"}

  /** `Task['priority']`: exactly four values. */
  datatype Priority = Low | Medium | High | Critical

  function PriorityName(p: Priority): string {
    match p
    case Low => "Low"
    case Medium => "Medium"
    case High => "High"
    case Critical => "Critical"
  }

  const PriorityLiterals: set<string> := {"Low", "Medium", "High", "Critical"}

  /** The run-time strings of the two enumerations are exactly their literal
      sets, and distinct values have distinct strings. */
  lemma EnumNamesExact()
    ensures forall s :: StatusName(s) in StatusLiterals
    ensures forall n :: n in StatusLiterals ==> exists s :: StatusName(s) == n
    ensures forall s, t :: StatusName(s) == StatusName(t) ==> s == t
    ensures forall p :: PriorityName(p) in PriorityLiterals
    ensures forall n :: n in PriorityLiterals ==> exists p :: PriorityName(p) == n
    ensures forall p, q :: PriorityName(p) == PriorityName(q) ==> p == q
  {
    assert StatusName(Pending) == "Pending" && StatusName(InProgress) == "In Progress";
    assert StatusName(Overdue) == "Overdue" && StatusName(Completed) == "Completed";
    assert StatusName(Cancelled) == "Cancelled";
    assert PriorityName(Low) == "Low" && PriorityName(Medium) == "Medium";
    assert PriorityName(High) == "High" && PriorityName(Critical) == "Critical";
  }

  /** `Note['type']`: 'note' | 'update'. */
  datatype NoteKind = NoteEntry | UpdateEntry

  /** `Event['type']`: 'created' | 'updated' | 'completed' | 'cancelled'. */
  datatype EventKind = CreatedEvent | UpdatedEvent | CompletedEvent | CancelledEvent

  function NoteKindName(k: NoteKind): string {
    match k
    case NoteEntry => "note"
    case UpdateEntry => "update"
  }

  function EventKindName(k: EventKind): string {
    match k
    case CreatedEvent => "created"
    case UpdatedEvent => "updated"
    case CompletedEvent => "completed"
    case CancelledEvent => "cancelled"
  }

  datatype Note = Note(id: string, content: string, author: string, timestamp: string, kind: NoteKind)

  datatype Event = Event(id: string, title: string, description: string, timestamp: string, kind: EventKind)

  /** Tickets carry free-form status and priority strings. */
  datatype Ticket = Ticket(id: string, title: string, status: string, priority: string,
                           assignee: string, createdDate: string)

  /** A task; `notes`, `events` and `tickets` are optional properties. */
  datatype Task = Task(
    id: string,
    customerName: string,
    customerCode: string,
    taskId: string,
    title: string,
    status: Status,
    priority: Priority,
    taskType: string,
    description: string,
    dueDate: string,
    createdDate: string,
    owner: string,
    notes: Option<seq<Note>>,
    events: Option<seq<Event>>,
    tickets: Option<seq<Ticket>>)

  /** `task.notes || []`: consumers read an absent list as empty; likewise
      for events and tickets. */
  function NotesOf(t: Task): seq<Note> {
    if t.notes.Some? then t.notes.value else []
  }

  function EventsOf(t: Task): seq<Event> {
    if t.events.Some? then t.events.value else []
  }

  function TicketsOf(t: Task): seq<Ticket> {
    if t.tickets.Some? then t.tickets.value else []
  }

  /** `Omit<Task, 'id' | 'createdDate' | 'notes' | 'events' | 'tickets'>`:
      what the new-task form hands to the page. */
  datatype NewTask = NewTask(
    customerName: string,
    customerCode: string,
    taskId: string,
    title: string,
    status: Status,
    priority: Priority,
    taskType: string,
    description: string,
    dueDate: string,
    owner: string)

  /** `FilterType`: the status categories of the filter bar. */
  datatype FilterType = AllTasks | PendingTasks | OverdueTasks | CompletedTasks | CancelledTasks

  function FilterName(f: FilterType): string {
    match f
    case AllTasks => "all"
    case PendingTasks => "pending"
    case OverdueTasks => "overdue"
    case CompletedTasks => "completed"
    case CancelledTasks => "cancelled"
  }

  /** `SortField`: the keys the page can sort by. */
  datatype SortField = ByCustomerName | ByTaskId | ByTitle | ByStatus | ByPriority | ByDueDate

  function SortFieldName(f: SortField): string {
    match f
    case ByCustomerName => "customerName"
    case ByTaskId => "taskId"
    case ByTitle => "title"
    case ByStatus => "status"
    case ByPriority => "priority"
    case ByDueDate => "dueDate"
  }

  datatype SortOrder = Asc | Desc

  /** `dateRange`: either bound may be missing, since the panel spreads a
      possibly empty object before setting one of them. */
  datatype DateRange = DateRange(start: Option<string>, end: Option<string>)

  /** The advanced-filter object; an absent key is `None`. */
  datatype AdvancedFilters = AdvancedFilters(
    priority: Option<seq<string>>,
    owner: Option<seq<string>>,
    dateRange: Option<DateRange>,
    taskType: Option<seq<string>>)

  /** `{}`. */
  const NoFilters: AdvancedFilters := AdvancedFilters(None, None, None, None)
}
