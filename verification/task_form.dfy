/**
 * The task form of src/components/TaskForm.tsx: the validation schema, the
 * default values, and the request `onSubmit` issues. The dialog's state
 * changes live with the page that owns them (module TasksView).
 */
module TaskForm {
  import opened Wrappers
  import opened TaskTypes
  import opened Api
  import opened JsString

  /** What the form submits. */
  datatype FormValues = FormValues(
    title: string,
    description: string,
    dueDate: string,
    priority: string,
    status: string,
    tags: seq<string>)

  datatype Field = Title | Description | DueDate | Priority | Status | Tags

  const PriorityValues: set<string> := {"1", "2", "3"}
  const StatusValues: set<string> := {"To Do", "In Progress", "Done"}
  /** The tag buttons the form offers. */
  const TagChoices: seq<string> := ["Hogar", "Trabajo", "Universidad", "Social"]
  /** The priority select: value and label of each item. */
  const PriorityItems: seq<(string, string)> := [("1", "Baja"), ("2", "Media"), ("3", "Alta")]

  /** The values a fresh or reset form holds: the two selects hold accepted values, the text fields and tags are empty. */
  function Defaults(): (v: FormValues)
    ensures v.priority in PriorityValues && v.status in StatusValues
    ensures v.title == [] && v.description == [] && v.dueDate == [] && v.tags == []
  {
    FormValues("", "", "", "1", "To Do", [])
  }

  /** The schema's rule for one field; `today` is the UTC date `YYYY-MM-DD`. */
  predicate FieldOk(f: Field, v: FormValues, today: string)
  {
    match f
    case Title => |v.title| >= 3
    case Description => |v.description| >= 5
    case DueDate => AtLeast(v.dueDate, today)
    case Priority => v.priority in PriorityValues
    case Status => v.status in StatusValues
    case Tags => true
  }

  /** The fields the schema rejects. */
  function Errors(v: FormValues, today: string): (errs: set<Field>)
    ensures Title in errs <==> |v.title| < 3
    ensures Description in errs <==> |v.description| < 5
    ensures DueDate in errs <==> Compare(v.dueDate, today) == Lt
    ensures Priority in errs <==> v.priority !in {"1", "2", "3"}
    ensures Status in errs <==> v.status !in {"To Do", "In Progress", "Done"}
    ensures Tags !in errs
  {
    set f | f in {Title, Description, DueDate, Priority, Status, Tags} && !FieldOk(f, v, today)
  }

  /** Due dates: a date equal to today passes; the empty default never does. */
  lemma DueDateEdges(today: string)
    ensures DueDate !in Errors(Defaults().(dueDate := today), today)
    ensures today != "" ==> DueDate in Errors(Defaults(), today)
  {
    CompareReflexive(today);
  }

  /** For `YYYY-MM-DD` dates, the due date passes exactly when it is not before today in the calendar. */
  lemma DueDateIsCalendarRule(v: FormValues, today: string)
    requires IsIsoDate(v.dueDate) && IsIsoDate(today)
    ensures DueDate !in Errors(v, today) <==> DayNumber(v.dueDate) >= DayNumber(today)
  {
    IsoDateStringOrder(v.dueDate, today);
    DayNumberOrder(v.dueDate, today);
  }

  /** Any list of strings is a valid tag list, the empty list and names the form does not offer included. */
  lemma AnyTagsAccepted(v: FormValues, today: string, tags: seq<string>)
    ensures Errors(v.(tags := tags), today) == Errors(v, today)
    ensures Tags !in Errors(v.(tags := ["Urgente"]), today) && "Urgente" !in TagChoices
  {
  }

  /** The defaults fail only on title, description and due date. */
  lemma DefaultsErrors(today: string)
    requires today != ""
    ensures Errors(Defaults(), today) == {Title, Description, DueDate}
  {
  }

  /** The status enumeration is the set of state labels; the select labels are the priority labels. */
  lemma FormAgreesWithLabelMaps()
    ensures StatusValues == TaskStateMap.Values
    ensures PriorityItems == [("1", TaskPriorityMap[1]), ("2", TaskPriorityMap[2]), ("3", TaskPriorityMap[3])]
    ensures forall k :: 0 <= k < |PriorityItems| ==> PriorityItems[k].0 in PriorityValues
  {
    StateMapContents();
    assert TaskStateMap.Values == {TaskStateMap[1], TaskStateMap[2], TaskStateMap[3]} by {
      forall x | x in TaskStateMap.Values
        ensures x in {TaskStateMap[1], TaskStateMap[2], TaskStateMap[3]}
      {
        var k :| k in TaskStateMap && TaskStateMap[k] == x;
      }
    }
  }

  /**
   * The PUT path as the page actually wires it: the page hands over the
   * Task object itself, and a template literal renders any plain object
   * as "[object Object]".
   */
  function EditUrlAsWritten(t: Task): string
  {
    "tasks/" + "[object Object]" + "/"
  }

  /** As wired, every edit goes to one path, and that path is no task's path. */
  lemma EditUrlAsWrittenNamesNoTask(a: Task, b: Task)
    ensures EditUrlAsWritten(a) == EditUrlAsWritten(b)
    ensures forall id: Id :: EditUrlAsWritten(a) != TaskUrl(id)
  {
    forall id: Id
      ensures EditUrlAsWritten(a) != TaskUrl(id)
    {
      assert TaskUrl(id)[6] == Decimal(id)[0];
      assert EditUrlAsWritten(a)[6] == '[';
    }
  }

  /** `if (editingTask)`: editing when a task is set. */
  predicate IsEditing(editingTask: Option<Id>) { editingTask.Some? }

  /** The one request `onSubmit` issues for validated data. */
  function SubmitRequest(editingTask: Option<Id>, data: FormValues): (req: Request<FormValues>)
    ensures req.body == Some(data)
    ensures IsEditing(editingTask) ==> req.verb == Put && req.url == TaskUrl(editingTask.value)
    ensures !IsEditing(editingTask) ==> req.verb == Post && req.url == "tasks/"
  {
    match editingTask
    case Some(id) => Request(Put, TaskUrl(id), Some(data))
    case None => Request(Post, "tasks/", Some(data))
  }

  /**
   * Under the declared numeric `editingTask`, an edit request reaches the
   * edited task and no other.
   */
  lemma SubmitTargetsEditedTask(a: Id, b: Id, data: FormValues)
    ensures SubmitRequest(Some(a), data).url == SubmitRequest(Some(b), data).url <==> a == b
    ensures SubmitRequest(Some(a), data).url != SubmitRequest(None, data).url
  {
    TaskUrlInjective(a, b);
    assert SubmitRequest(Some(a), data).url[..6] == "tasks/";
    assert |SubmitRequest(Some(a), data).url| > |"tasks/"|;
  }
}
