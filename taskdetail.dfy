/** The task detail modal (components/dashboard/EnhancedTaskModal.tsx): the
    tab counters, the note editor and `handleSaveNote`, which hands the page
    a patch carrying the task's notes with the new note appended. */
module TaskDetail {
  import opened Types
  import opened Strings
  import opened Store

  /** A tab header; the description tab has no counter. */
  datatype Tab = Tab(name: string, count: Option<nat>)

  /** The tabs shown for a task, or nothing when no task is selected (the
      modal renders `null`). */
  function TabsFor(task: Option<Task>): (r: Option<seq<Tab>>)
    ensures r.Some? <==> task.Some?
  {
    if task.None? then None
    else
      var t := task.value;
      Some([Tab("Description", None), Tab("Notes", Some(|NotesOf(t)|)),
            Tab("Events", Some(|EventsOf(t)|)), Tab("Tickets", Some(|TicketsOf(t)|))])
  }

  /** The counters are the list lengths, and 0 where a list is absent. */
  lemma TabCounts(t: Task)
    ensures TabsFor(Some(t)).value[0].count == None
    ensures TabsFor(Some(t)).value[1].count == Some(if t.notes.Some? then |t.notes.value| else 0)
    ensures TabsFor(Some(t)).value[2].count == Some(if t.events.Some? then |t.events.value| else 0)
    ensures TabsFor(Some(t)).value[3].count == Some(if t.tickets.Some? then |t.tickets.value| else 0)
  {
  }

  /** The note `handleSaveNote` builds: its id is the clock in milliseconds,
      the author is fixed and the kind is a plain note. */
  function NoteFor(content: string, nowMs: int, timestamp: string): Note {
    Note(IntToString(nowMs), content, "Current User", timestamp, NoteEntry)
  }

  /** `{ notes: updatedNotes }`. */
  function NotesPatch(notes: seq<Note>): TaskPatch {
    EmptyPatch.(notes := Some(Some(notes)))
  }

  /** The patch saved for `shown`, the task the modal displays. */
  function SavePatch(shown: Task, note: Note): TaskPatch {
    NotesPatch(NotesOf(shown) + [note])
  }

  /** Merging the save patch appends the note to the displayed task's notes
      and changes nothing else. */
  lemma SavePatchMeaning(shown: Task, note: Note)
    ensures NotesOf(Merge(shown, SavePatch(shown, note))) == NotesOf(shown) + [note]
    ensures Merge(shown, SavePatch(shown, note)).(notes := shown.notes) == shown
  {
  }

  /** The note carries what was typed and reads back its creation time. */
  lemma NoteForMeaning(content: string, nowMs: int, timestamp: string)
    ensures NoteFor(content, nowMs, timestamp).content == content
    ensures NoteFor(content, nowMs, timestamp).author == "Current User"
    ensures NoteFor(content, nowMs, timestamp).timestamp == timestamp
    ensures ParseInt(NoteFor(content, nowMs, timestamp).id) == nowMs
    ensures NoteKindName(NoteFor(content, nowMs, timestamp).kind) == "note"
  {
    IntToStringRoundTrip(nowMs);
  }

  /** A request to the page's `onUpdateTask`. */
  datatype NoteUpdate = NoteUpdate(taskId: string, patch: TaskPatch)

  /** The modal's own state. */
  class TaskDetailModal {
    var isExpanded: bool
    var newNote: string
    var isEditingNote: bool

    constructor ()
      ensures !isExpanded && newNote == "" && !isEditingNote
    {
      isExpanded := false;
      newNote := "";
      isEditingNote := false;
    }

    /** The expand / minimise button. */
    method ToggleExpanded()
      modifies this
      ensures isExpanded == !old(isExpanded)
      ensures newNote == old(newNote) && isEditingNote == old(isEditingNote)
    {
      isExpanded := !isExpanded;
    }

    /** The "Add Note" / "Cancel" button above the editor. */
    method ToggleEditing()
      modifies this
      ensures isEditingNote == !old(isEditingNote)
      ensures newNote == old(newNote) && isExpanded == old(isExpanded)
    {
      isEditingNote := !isEditingNote;
    }

    /** The editor's `onChange`: an undefined value clears the draft. */
    method EditNote(value: Option<string>)
      modifies this
      ensures newNote == (if value.Some? then value.value else "")
      ensures isEditingNote == old(isEditingNote) && isExpanded == old(isExpanded)
    {
      newNote := if value.Some? then value.value else "";
    }

    /** The "Cancel" button under the editor: drops the draft and closes it. */
    method CancelNote()
      modifies this
      ensures newNote == "" && !isEditingNote && isExpanded == old(isExpanded)
    {
      newNote := "";
      isEditingNote := false;
    }

    /** `handleSaveNote`: a blank draft does nothing; otherwise the page is
        asked to set the displayed task's notes to those notes plus the new
        one, and the editor is cleared and closed. */
    method HandleSaveNote(shown: Task, nowMs: int, timestamp: string) returns (update: Option<NoteUpdate>)
      modifies this
      ensures IsBlank(old(newNote)) ==>
        update == None && newNote == old(newNote) && isEditingNote == old(isEditingNote)
      ensures !IsBlank(old(newNote)) ==>
        update == Some(NoteUpdate(shown.id, SavePatch(shown, NoteFor(old(newNote), nowMs, timestamp))))
        && newNote == "" && !isEditingNote
      ensures isExpanded == old(isExpanded)
    {
      if IsBlank(newNote) {
        return None;
      }
      var note := NoteFor(newNote, nowMs, timestamp);
      update := Some(NoteUpdate(shown.id, NotesPatch(NotesOf(shown) + [note])));
      newNote := "";
      isEditingNote := false;
    }
  }

  // ---- Saving against the page's store ----

  /** One save, as the page applies it: every task with the displayed task's
      id gets the patch built from the displayed task. */
  function SaveNote(tasks: seq<Task>, shown: Task, note: Note): seq<Task> {
    UpdateWhere(tasks, shown.id, SavePatch(shown, note))
  }

  /** The displayed task after a save when the page keeps its selected task
      in step with the store. */
  function Refreshed(shown: Task, note: Note): Task {
    Merge(shown, SavePatch(shown, note))
  }

  /** As written, the displayed task is the one captured when the row was
      clicked, and `handleUpdateTask` does not touch it: after a second save
      from the same modal the store holds the first snapshot's notes plus
      only the second note; the first note is gone. */
  lemma SnapshotLosesNote(tasks: seq<Task>, shown: Task, i: int, a: Note, b: Note)
    requires 0 <= i < |tasks| && tasks[i] == shown
    requires a != b && a !in NotesOf(shown)
    ensures NotesOf(SaveNote(SaveNote(tasks, shown, a), shown, b)[i]) == NotesOf(shown) + [b]
    ensures a !in NotesOf(SaveNote(SaveNote(tasks, shown, a), shown, b)[i])
    ensures SaveNote(tasks, shown, a)[i] != shown
  {
    var once := SaveNote(tasks, shown, a);
    UpdateWhereMeaning(tasks, shown.id, SavePatch(shown, a));
    assert once[i] == Merge(shown, SavePatch(shown, a));
    assert |NotesOf(once[i])| == |NotesOf(shown)| + 1;
    UpdateWhereMeaning(once, shown.id, SavePatch(shown, b));
    var twice := SaveNote(once, shown, b);
    assert twice[i] == Merge(once[i], SavePatch(shown, b));
    assert NotesOf(twice[i]) == NotesOf(shown) + [b];
  }

  /** Corrected: with the displayed task refreshed after each save, two
      saves leave both notes, in order, after the task's original notes. */
  lemma RefreshedKeepsNotes(tasks: seq<Task>, shown: Task, i: int, a: Note, b: Note)
    requires 0 <= i < |tasks| && tasks[i] == shown
    ensures NotesOf(SaveNote(SaveNote(tasks, shown, a), Refreshed(shown, a), b)[i]) == NotesOf(shown) + [a, b]
    ensures SaveNote(tasks, shown, a)[i] == Refreshed(shown, a)
  {
    var once := SaveNote(tasks, shown, a);
    UpdateWhereMeaning(tasks, shown.id, SavePatch(shown, a));
    var shown' := Refreshed(shown, a);
    assert once[i] == shown';
    UpdateWhereMeaning(once, shown'.id, SavePatch(shown', b));
    assert NotesOf(shown') == NotesOf(shown) + [a];
  }

  /** The displayed task agrees with every stored task that has its id. */
  ghost predicate InStep(tasks: seq<Task>, shown: Task) {
    forall i :: 0 <= i < |tasks| && tasks[i].id == shown.id ==> tasks[i] == shown
  }

  /** Refreshing after a save keeps the displayed task in step with the
      store, whatever note is saved. */
  lemma RefreshKeepsInStep(tasks: seq<Task>, shown: Task, note: Note)
    requires InStep(tasks, shown)
    ensures InStep(SaveNote(tasks, shown, note), Refreshed(shown, note))
  {
    UpdateWhereMeaning(tasks, shown.id, SavePatch(shown, note));
  }

  /** As written the snapshot falls out of step after the first save of a
      task that is in the store. */
  lemma SnapshotFallsOutOfStep(tasks: seq<Task>, shown: Task, note: Note)
    requires InStep(tasks, shown) && shown in tasks
    ensures !InStep(SaveNote(tasks, shown, note), shown)
  {
    var i :| 0 <= i < |tasks| && tasks[i] == shown;
    UpdateWhereMeaning(tasks, shown.id, SavePatch(shown, note));
    assert |NotesOf(SaveNote(tasks, shown, note)[i])| == |NotesOf(shown)| + 1;
  }
}
