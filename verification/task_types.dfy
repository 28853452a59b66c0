/**
 * The task record and the two label tables of src/types/Task.ts.
 */
module TaskTypes {

  /** Server-assigned task identifiers (JavaScript numbers; the API issues non-negative integers). */
  type Id = nat

  /** One task as the list endpoint returns it. */
  datatype Task = Task(
    id: Id,
    title: string,
    description: string,
    dueDate: string,
    postedBy: Id,
    priority: int,
    state: int,
    homeTag: bool,
    workTag: bool,
    universityTag: bool,
    socialTag: bool)

  /** Display label of each numeric priority. */
  const TaskPriorityMap: map<int, string> := map[1 := "Baja", 2 := "Media", 3 := "Alta"]

  /** Display label of each numeric state. */
  const TaskStateMap: map<int, string> := map[1 := "To Do", 2 := "In Progress", 3 := "Done"]

  /** No two keys share a label. */
  predicate Injective(m: map<int, string>)
  {
    forall a, b :: a in m && b in m && a != b ==> m[a] != m[b]
  }

  lemma PriorityMapContents()
    ensures TaskPriorityMap.Keys == {1, 2, 3}
    ensures TaskPriorityMap[1] == "Baja" && TaskPriorityMap[2] == "Media" && TaskPriorityMap[3] == "Alta"
    ensures Injective(TaskPriorityMap)
  {
  }

  lemma StateMapContents()
    ensures TaskStateMap.Keys == {1, 2, 3}
    ensures TaskStateMap[1] == "To Do" && TaskStateMap[2] == "In Progress" && TaskStateMap[3] == "Done"
    ensures Injective(TaskStateMap)
  {
  }
}
