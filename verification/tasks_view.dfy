/**
 * The task page, src/pages/Tasks.tsx, with the dialog behaviour of the
 * TaskForm it hosts: `open`, `tasks`, `editingTask`, the form's current
 * values, and the fetch effect keyed on `reloadKey`.
 */
module TasksView {
  import opened Wrappers
  import opened TaskTypes
  import opened Api
  import opened TaskForm

  /** The body of `GET tasks/`: its `results` property, when that holds a task list. */
  datatype TaskListBody = TaskListBody(results: Option<seq<Task>>)

  const TasksUrl: string := "tasks/"

  /**
   * `setTasks(response.results)` as written; None stands for `undefined`.
   * A 204 makes `null.results` throw, which the catch logs; an Error value
   * returned by `request` has no `results`, so the list becomes undefined.
   */
  function FetchedTasksAsWritten(prev: seq<Task>, o: Outcome<TaskListBody>): (r: Option<seq<Task>>)
    ensures r.None? <==> o.ReturnedError? || (o.Json? && o.value.results.None?)
    ensures r.Some? ==> r.value == prev || (o.Json? && o.value.results == r)
  {
    match o
    case Json(body) => body.results
    case NoContent => Some(prev)
    case ReturnedError => None
    case Throws => Some(prev)
  }

  /** A server error on the list request leaves `tasks` undefined, which `tasks.map` then fails on. */
  lemma FailedFetchLeavesTasksUndefined(prev: seq<Task>)
    ensures FetchedTasksAsWritten(prev, ReturnedError).None?
  {
  }

  /** The fetch as intended: a result list replaces `tasks`; anything else keeps it. */
  function FetchedTasks(prev: seq<Task>, o: Outcome<TaskListBody>): (r: seq<Task>)
    ensures r == prev || (o.Json? && o.value.results == Some(r))
    ensures o.Json? && o.value.results.Some? ==> r == o.value.results.value
  {
    if o.Json? && o.value.results.Some? then o.value.results.value else prev
  }

  /** The correction agrees with the source wherever the source keeps a list. */
  lemma FetchCorrection(prev: seq<Task>, o: Outcome<TaskListBody>)
    ensures FetchedTasksAsWritten(prev, o).Some? ==> FetchedTasks(prev, o) == FetchedTasksAsWritten(prev, o).value
    ensures FetchedTasksAsWritten(prev, o).None? ==> FetchedTasks(prev, o) == prev
    ensures forall l :: o == Json(TaskListBody(Some(l))) ==> FetchedTasks(prev, o) == l
    ensures o.Throws? || o.NoContent? || o.ReturnedError? ==> FetchedTasks(prev, o) == prev
  {
  }

  /** The key of each card rendered, one per task, in list order. */
  function CardKeys(tasks: seq<Task>): (keys: seq<Id>)
    ensures |keys| == |tasks|
    ensures forall i :: 0 <= i < |tasks| ==> keys[i] == tasks[i].id
  {
    if tasks == [] then [] else [tasks[0].id] + CardKeys(tasks[1..])
  }

  /** An empty result list renders no cards. */
  lemma EmptyResultsNoCards(prev: seq<Task>)
    ensures CardKeys(FetchedTasks(prev, Json(TaskListBody(Some([]))))) == []
  {
  }

  /** The id the form receives for the task being edited. */
  function EditingId(editingTask: Option<Task>): (id: Option<Id>)
    ensures id.Some? <==> editingTask.Some?
    ensures id.Some? ==> id.value == editingTask.value.id
  {
    match editingTask
    case Some(t) => Some(t.id)
    case None => None
  }

  class TasksPage {
    var open: bool
    var tasks: seq<Task>
    var editingTask: Option<Task>
    /** The TaskForm's current field values. */
    var form: FormValues
    /** The `reloadKey` the fetch effect last ran for; None before mount. */
    var effectKey: Option<int>

    constructor ()
      ensures !open && tasks == [] && editingTask == None
      ensures form == Defaults() && effectKey == None
    {
      open := false;
      tasks := [];
      editingTask := None;
      form := Defaults();
      effectKey := None;
    }

    /** "+ Nueva tarea". */
    method NewTask()
      modifies this
      ensures open && editingTask == None
      ensures tasks == old(tasks) && form == old(form) && effectKey == old(effectKey)
    {
      open := true;
      editingTask := None;
    }

    /** A card's "Editar": the card passes its task unchanged. */
    method EditFromCard(t: Task)
      modifies this
      ensures open && editingTask == Some(t)
      ensures tasks == old(tasks) && form == old(form) && effectKey == old(effectKey)
    {
      open := true;
      editingTask := Some(t);
    }

    /** The form's `onClose`. */
    method OnClose()
      modifies this
      ensures !open && editingTask == None
      ensures tasks == old(tasks) && form == old(form) && effectKey == old(effectKey)
    {
      open := false;
      editingTask := None;
    }

    /** The user edits the form's fields. */
    method FormInput(v: FormValues)
      modifies this
      ensures form == v
      ensures open == old(open) && tasks == old(tasks) && editingTask == old(editingTask) && effectKey == old(effectKey)
    {
      form := v;
    }

    /** The form dialog's `onOpenChange(val)`: closing also calls `onClose` and resets the form. */
    method FormOpenChange(val: bool)
      modifies this
      ensures open == val
      ensures !val ==> editingTask == None && form == Defaults()
      ensures val ==> editingTask == old(editingTask) && form == old(form)
      ensures tasks == old(tasks) && effectKey == old(effectKey)
    {
      open := val;
      if !val {
        OnClose();
        form := Defaults();
      }
    }

    /** The form's "Cancelar" button: only `setOpen(false)`. */
    method FormCancel()
      modifies this
      ensures !open
      ensures editingTask == old(editingTask) && form == old(form)
      ensures tasks == old(tasks) && effectKey == old(effectKey)
    {
      open := false;
    }

    /**
     * Submitting the form: the schema runs first; only valid data reaches
     * `onSubmit`, which issues exactly one PUT or POST and, unless the
     * awaited request throws, closes the dialog and resets the form.
     */
    method FormSubmit<J>(today: string, outcome: Outcome<J>)
      returns (sent: seq<Request<FormValues>>, errors: set<Field>)
      modifies this
      ensures errors == Errors(old(form), today)
      ensures errors != {} ==> sent == []
      ensures errors == {} ==> sent == [SubmitRequest(EditingId(old(editingTask)), old(form))]
      ensures errors == {} && outcome.Completes() ==>
        !open && editingTask == None && form == Defaults()
      ensures errors != {} || !outcome.Completes() ==>
        open == old(open) && editingTask == old(editingTask) && form == old(form)
      ensures tasks == old(tasks) && effectKey == old(effectKey)
    {
      errors := Errors(form, today);
      if errors != {} {
        sent := [];
        return;
      }
      var data := form;
      sent := [SubmitRequest(EditingId(editingTask), data)];
      if outcome.Completes() {
        open := false;
        OnClose();
        form := Defaults();
      }
    }

    /**
     * A render with the current `reloadKey`. The fetch effect runs on mount
     * and whenever the key differs from the one it last ran for; its GET
     * then completes with `outcome`.
     */
    method FetchEffect(reloadKey: int, outcome: Outcome<TaskListBody>)
      returns (sent: seq<Request<FormValues>>)
      modifies this
      ensures effectKey == Some(reloadKey)
      ensures old(effectKey) == Some(reloadKey) ==> sent == [] && tasks == old(tasks)
      ensures old(effectKey) != Some(reloadKey) ==>
        sent == [Request(Get, TasksUrl, None)] && tasks == FetchedTasks(old(tasks), outcome)
      ensures open == old(open) && editingTask == old(editingTask) && form == old(form)
    {
      if effectKey == Some(reloadKey) {
        sent := [];
      } else {
        effectKey := Some(reloadKey);
        sent := [Request(Get, TasksUrl, None)];
        tasks := FetchedTasks(tasks, outcome);
      }
    }
  }
}
