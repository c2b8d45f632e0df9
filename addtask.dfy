/** The new-task form (components/modals/AddTaskModal.tsx): its defaults,
    the option lists of its selects, `validateForm`, `handleSubmit`,
    `handleClose` and `handleInputChange`. The form data has exactly the
    shape the page receives, so it is kept as a `NewTask`. */
module AddTask {
  import opened Types
  import opened Strings

  const FormPriorities: seq<Priority> := [Low, Medium, High, Critical]
  /** A new task can only start out pending or in progress. */
  const FormStatuses: seq<Status> := [Pending, InProgress]
  const TypeOptions: seq<string> := ["Audit", "Support", "General", "Testing", "QA", "Health Impact", "Maintenance"]
  const OwnerOptions: seq<string> := ["Rishi", "John Doe", "Jane Smith", "Mike Johnson", "Sarah Wilson",
                                      "Health Team", "Analytics Team", "Operations Team", "QA Team"]

  /** The initial form, and the one `handleClose` restores. */
  const DefaultForm: NewTask := NewTask("", "", "", "", Pending, Medium, "General", "", "", "Rishi")

  /** The form's keys, as `handleInputChange` names them. */
  datatype Field = CustomerName | CustomerCode | TaskIdField | Title | Description
                 | PriorityField | StatusField | TypeField | OwnerField | DueDate

  /** The check `validateForm` makes of one field: the five text fields must
      be non-blank once trimmed; the due date only non-empty. */
  predicate Missing(form: NewTask, f: Field) {
    match f
    case CustomerName => IsBlank(form.customerName)
    case CustomerCode => IsBlank(form.customerCode)
    case TaskIdField => IsBlank(form.taskId)
    case Title => IsBlank(form.title)
    case Description => IsBlank(form.description)
    case DueDate => form.dueDate == ""
    case _ => false
  }

  function Message(f: Field): string {
    match f
    case CustomerName => "Customer name is required"
    case CustomerCode => "Customer code is required"
    case TaskIdField => "Task ID is required"
    case Title => "Title is required"
    case Description => "Description is required"
    case DueDate => "Due date is required"
    case _ => ""
  }

  /** One check of `validateForm`: a field found missing gets its message. */
  function Check(errors: map<Field, string>, missing: bool, f: Field): map<Field, string> {
    if missing then errors[f := Message(f)] else errors
  }

  /** The errors `validateForm` records, the checks made in source order:
      exactly the missing fields, each with its own message. */
  function ErrorsFor(form: NewTask): map<Field, string> {
    var e1 := Check(map[], IsBlank(form.customerName), CustomerName);
    var e2 := Check(e1, IsBlank(form.customerCode), CustomerCode);
    var e3 := Check(e2, IsBlank(form.taskId), TaskIdField);
    var e4 := Check(e3, IsBlank(form.title), Title);
    var e5 := Check(e4, IsBlank(form.description), Description);
    Check(e5, form.dueDate == "", DueDate)
  }

  /** A check adds its own field, with its message, and leaves the rest. */
  lemma CheckMeaning(errors: map<Field, string>, missing: bool, f: Field, g: Field)
    ensures g in Check(errors, missing, f) <==> (g in errors || (missing && g == f))
    ensures g in Check(errors, missing, f) && g != f ==> Check(errors, missing, f)[g] == errors[g]
    ensures missing ==> Check(errors, missing, f)[f] == Message(f)
  {
  }

  /** The recorded errors are exactly the missing fields, each with its own
      message. */
  lemma {:induction false} ErrorsMeaning(form: NewTask, f: Field)
    ensures f in ErrorsFor(form) <==> Missing(form, f)
    ensures f in ErrorsFor(form) ==> ErrorsFor(form)[f] == Message(f)
  {
    var e1 := Check(map[], IsBlank(form.customerName), CustomerName);
    var e2 := Check(e1, IsBlank(form.customerCode), CustomerCode);
    var e3 := Check(e2, IsBlank(form.taskId), TaskIdField);
    var e4 := Check(e3, IsBlank(form.title), Title);
    var e5 := Check(e4, IsBlank(form.description), Description);
    CheckMeaning(map[], IsBlank(form.customerName), CustomerName, f);
    CheckMeaning(e1, IsBlank(form.customerCode), CustomerCode, f);
    CheckMeaning(e2, IsBlank(form.taskId), TaskIdField, f);
    CheckMeaning(e3, IsBlank(form.title), Title, f);
    CheckMeaning(e4, IsBlank(form.description), Description, f);
    CheckMeaning(e5, form.dueDate == "", DueDate, f);
  }

  /** The form passes validation exactly when the five text fields hold a
      non-space character and a due date is chosen; the selects never fail,
      and every recorded message is non-empty, so every error is shown. */
  lemma ValidIff(form: NewTask)
    ensures ErrorsFor(form) == map[] <==>
      !IsBlank(form.customerName) && !IsBlank(form.customerCode) && !IsBlank(form.taskId)
      && !IsBlank(form.title) && !IsBlank(form.description) && form.dueDate != ""
    ensures forall f :: f in ErrorsFor(form) ==> ErrorsFor(form)[f] != ""
  {
    forall f ensures f in ErrorsFor(form) <==> Missing(form, f) {
      ErrorsMeaning(form, f);
    }
    forall f | f in ErrorsFor(form) ensures ErrorsFor(form)[f] != "" {
      ErrorsMeaning(form, f);
    }
    if ErrorsFor(form) == map[] {
      assert !Missing(form, CustomerName) && !Missing(form, CustomerCode) && !Missing(form, TaskIdField);
      assert !Missing(form, Title) && !Missing(form, Description) && !Missing(form, DueDate);
    } else {
      var f :| f in ErrorsFor(form);
      assert Missing(form, f);
    }
  }

  /** The untouched form fails on all six required fields, and a due date
      of spaces is accepted although a customer name of spaces is not. */
  lemma DefaultsAndSpaces(form: NewTask)
    ensures ErrorsFor(DefaultForm).Keys == {CustomerName, CustomerCode, TaskIdField, Title, Description, DueDate}
    ensures form.dueDate == " " ==> DueDate !in ErrorsFor(form)
    ensures form.customerName == " " ==> CustomerName in ErrorsFor(form)
  {
    BlankIff("");
    BlankIff(" ");
  }

  /** One change reported by an input or select. The selects carry the
      chosen option's value. */
  datatype Edit =
    | TextEdit(field: Field, value: string)
    | PriorityEdit(priority: Priority)
    | StatusEdit(status: Status)
    | TypeEdit(taskType: string)
    | OwnerEdit(owner: string)

  /** `{ ...prev, [field]: value }`. */
  function WithEdit(form: NewTask, e: Edit): NewTask {
    match e
    case TextEdit(f, v) =>
      (match f
       case CustomerName => form.(customerName := v)
       case CustomerCode => form.(customerCode := v)
       case TaskIdField => form.(taskId := v)
       case Title => form.(title := v)
       case Description => form.(description := v)
       case DueDate => form.(dueDate := v)
       case _ => form)
    case PriorityEdit(p) => form.(priority := p)
    case StatusEdit(s) => form.(status := s)
    case TypeEdit(t) => form.(taskType := t)
    case OwnerEdit(o) => form.(owner := o)
  }

  /** The key an edit writes. */
  function FieldOf(e: Edit): Field {
    match e
    case TextEdit(f, _) => f
    case PriorityEdit(_) => PriorityField
    case StatusEdit(_) => StatusField
    case TypeEdit(_) => TypeField
    case OwnerEdit(_) => OwnerField
  }

  /** An edit the form's controls can produce: a select only offers its
      options, and text inputs only write text fields. */
  predicate Offered(e: Edit) {
    match e
    case TextEdit(f, _) => f in {CustomerName, CustomerCode, TaskIdField, Title, Description, DueDate}
    case PriorityEdit(p) => p in FormPriorities
    case StatusEdit(s) => s in FormStatuses
    case TypeEdit(t) => t in TypeOptions
    case OwnerEdit(o) => o in OwnerOptions
  }

  /** The selects hold one of their options. */
  predicate SelectsOffered(form: NewTask) {
    form.status in FormStatuses && form.priority in FormPriorities
    && form.taskType in TypeOptions && form.owner in OwnerOptions
  }

  function ApplyEdits(form: NewTask, edits: seq<Edit>): NewTask
    decreases |edits|
  {
    if edits == [] then form else ApplyEdits(WithEdit(form, edits[0]), edits[1..])
  }

  /** Whatever the user does with the controls, the form's status stays
      pending or in progress and every select holds one of its options, so
      a task created from the form is never completed, cancelled or
      overdue. */
  lemma {:induction false} EditsKeepSelectsOffered(form: NewTask, edits: seq<Edit>)
    requires SelectsOffered(form)
    requires forall i :: 0 <= i < |edits| ==> Offered(edits[i])
    ensures SelectsOffered(ApplyEdits(form, edits))
    ensures ApplyEdits(form, edits).status !in {Completed, Cancelled, Overdue}
    decreases |edits|
  {
    if edits != [] {
      assert Offered(edits[0]);
      EditsKeepSelectsOffered(WithEdit(form, edits[0]), edits[1..]);
    }
  }

  /** The defaults are among the offered options. */
  lemma DefaultsOffered()
    ensures SelectsOffered(DefaultForm)
  {
    assert FormStatuses[0] == Pending && FormPriorities[1] == Medium;
    assert TypeOptions[2] == "General" && OwnerOptions[0] == "Rishi";
  }

  /** What a field of the form holds, as the text its control shows. */
  function FieldValueOf(form: NewTask, g: Field): string {
    match g
    case CustomerName => form.customerName
    case CustomerCode => form.customerCode
    case TaskIdField => form.taskId
    case Title => form.title
    case Description => form.description
    case PriorityField => PriorityName(form.priority)
    case StatusField => StatusName(form.status)
    case TypeField => form.taskType
    case OwnerField => form.owner
    case DueDate => form.dueDate
  }

  /** The text an edit carries. */
  function EditText(e: Edit): string {
    match e
    case TextEdit(_, v) => v
    case PriorityEdit(p) => PriorityName(p)
    case StatusEdit(st) => StatusName(st)
    case TypeEdit(t) => t
    case OwnerEdit(o) => o
  }

  /** A form is determined by what its ten fields hold. */
  lemma FormIsItsFields(a: NewTask, b: NewTask)
    requires forall g :: FieldValueOf(a, g) == FieldValueOf(b, g)
    ensures a == b
  {
    EnumNamesExact();
    assert a.customerName == FieldValueOf(a, CustomerName) == FieldValueOf(b, CustomerName) == b.customerName;
    assert a.customerCode == FieldValueOf(a, CustomerCode) == FieldValueOf(b, CustomerCode) == b.customerCode;
    assert a.taskId == FieldValueOf(a, TaskIdField) == FieldValueOf(b, TaskIdField) == b.taskId;
    assert a.title == FieldValueOf(a, Title) == FieldValueOf(b, Title) == b.title;
    assert a.description == FieldValueOf(a, Description) == FieldValueOf(b, Description) == b.description;
    assert PriorityName(a.priority) == FieldValueOf(a, PriorityField) == FieldValueOf(b, PriorityField) == PriorityName(b.priority);
    assert StatusName(a.status) == FieldValueOf(a, StatusField) == FieldValueOf(b, StatusField) == StatusName(b.status);
    assert a.taskType == FieldValueOf(a, TypeField) == FieldValueOf(b, TypeField) == b.taskType;
    assert a.owner == FieldValueOf(a, OwnerField) == FieldValueOf(b, OwnerField) == b.owner;
    assert a.dueDate == FieldValueOf(a, DueDate) == FieldValueOf(b, DueDate) == b.dueDate;
  }

  /** An edit writes its own field, which then holds the edit's value, and
      no other field changes; with FormIsItsFields the rest of the form is
      the same record. */
  lemma WithEditMeaning(form: NewTask, e: Edit, g: Field)
    requires Offered(e)
    ensures FieldValueOf(WithEdit(form, e), FieldOf(e)) == EditText(e)
    ensures g != FieldOf(e) ==> FieldValueOf(WithEdit(form, e), g) == FieldValueOf(form, g)
  {
  }

  /** The error map `validateForm` builds, one check per field in the
      order of the source. */
  method CollectErrors(form: NewTask) returns (newErrors: map<Field, string>)
    ensures newErrors == ErrorsFor(form)
  {
    newErrors := map[];
    if IsBlank(form.customerName) {
      newErrors := newErrors[CustomerName := Message(CustomerName)];
    }
    ghost var done := Check(map[], IsBlank(form.customerName), CustomerName);
    assert newErrors == done;
    if IsBlank(form.customerCode) {
      newErrors := newErrors[CustomerCode := Message(CustomerCode)];
    }
    done := Check(done, IsBlank(form.customerCode), CustomerCode);
    assert newErrors == done;
    if IsBlank(form.taskId) {
      newErrors := newErrors[TaskIdField := Message(TaskIdField)];
    }
    done := Check(done, IsBlank(form.taskId), TaskIdField);
    assert newErrors == done;
    if IsBlank(form.title) {
      newErrors := newErrors[Title := Message(Title)];
    }
    done := Check(done, IsBlank(form.title), Title);
    assert newErrors == done;
    if IsBlank(form.description) {
      newErrors := newErrors[Description := Message(Description)];
    }
    done := Check(done, IsBlank(form.description), Description);
    assert newErrors == done;
    if form.dueDate == "" {
      newErrors := newErrors[DueDate := Message(DueDate)];
    }
    done := Check(done, form.dueDate == "", DueDate);
    assert newErrors == done == ErrorsFor(form);
  }

  /** A call the form makes to the page: `onAddTask(formData)` or
      `onClose()`. */
  datatype FormCall = OnAddTask(task: NewTask) | OnClose

  /** The form's state, with the calls it has made to the page so far in
      the order it made them. */
  class AddTaskForm {
    var formData: NewTask
    var errors: map<Field, string>
    var requested: seq<FormCall>

    constructor ()
      ensures formData == DefaultForm && errors == map[] && requested == []
    {
      formData := DefaultForm;
      errors := map[];
      requested := [];
    }

    /** `validateForm`: records the errors of the current form, replacing
        the old ones, and answers whether there are none. */
    method ValidateForm() returns (ok: bool)
      modifies this
      ensures errors == ErrorsFor(formData) && formData == old(formData)
      ensures ok <==> errors == map[]
      ensures requested == old(requested)
    {
      var newErrors := CollectErrors(formData);
      errors := newErrors;
      ok := |newErrors| == 0;
    }

    /** `handleClose`: back to the defaults with no errors, and the page is
        asked to close the modal. */
    method HandleClose()
      modifies this
      ensures formData == DefaultForm && errors == map[]
      ensures requested == old(requested) + [OnClose]
    {
      formData := DefaultForm;
      errors := map[];
      requested := requested + [OnClose];
    }

    /** `handleSubmit`: an invalid form keeps its data, shows its errors and
        calls nothing; a valid one is handed to the page, then the form is
        reset and the modal closed. */
    method HandleSubmit()
      modifies this
      ensures old(ErrorsFor(formData)) != map[] ==>
        formData == old(formData) && errors == ErrorsFor(formData) && requested == old(requested)
      ensures old(ErrorsFor(formData)) == map[] ==>
        formData == DefaultForm && errors == map[]
        && requested == old(requested) + [OnAddTask(old(formData)), OnClose]
    {
      var ok := ValidateForm();
      if !ok {
        return;
      }
      requested := requested + [OnAddTask(formData)];
      HandleClose();
    }

    /** `handleInputChange`: writes the field, and blanks that field's
        error message if one is showing. */
    method HandleInputChange(e: Edit)
      modifies this
      ensures formData == WithEdit(old(formData), e)
      ensures FieldOf(e) in old(errors) && old(errors)[FieldOf(e)] != "" ==>
        errors == old(errors)[FieldOf(e) := ""]
      ensures !(FieldOf(e) in old(errors) && old(errors)[FieldOf(e)] != "") ==> errors == old(errors)
      ensures requested == old(requested)
    {
      formData := WithEdit(formData, e);
      var f := FieldOf(e);
      if f in errors && errors[f] != "" {
        errors := errors[f := ""];
      }
    }
  }

  /** An error that is showing: a present, non-empty message. */
  predicate Shown(errors: map<Field, string>, f: Field) {
    f in errors && errors[f] != ""
  }

  /** After an edit the edited field shows no error and every other field
      shows the error it showed before. */
  lemma EditHidesOwnError(errors: map<Field, string>, e: Edit, g: Field)
    ensures !Shown(if Shown(errors, FieldOf(e)) then errors[FieldOf(e) := ""] else errors, FieldOf(e))
    ensures g != FieldOf(e) ==>
      (Shown(if Shown(errors, FieldOf(e)) then errors[FieldOf(e) := ""] else errors, g) <==> Shown(errors, g))
  {
  }
}
