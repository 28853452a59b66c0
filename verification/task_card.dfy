/**
 * One task card, src/components/TaskCard.tsx: the tag labels it shows, its
 * `deleteTaskId` state, `handleDelete`, and the delete dialog's events
 * applied to that state.
 */
module TaskCard {
  import opened Wrappers
  import opened TaskTypes
  import opened Api
  import TaskDelete
  import Reload

  /** Tag names in the order the card lists them. */
  const TagNames: seq<string> := ["Hogar", "Trabajo", "Universidad", "Social"]

  function TagFlags(t: Task): seq<bool>
  {
    [t.homeTag, t.workTag, t.universityTag, t.socialTag]
  }

  /** The names whose flag is set, in their original order. */
  function Shown(names: seq<string>, flags: seq<bool>): (r: seq<string>)
    requires |names| == |flags|
    ensures |r| <= |names|
    ensures forall x :: x in r ==> x in names
    ensures forall i :: 0 <= i < |names| && flags[i] ==> names[i] in r
  {
    if names == [] then []
    else (if flags[0] then [names[0]] else []) + Shown(names[1..], flags[1..])
  }

  /** Every name the filter keeps is one whose flag is set. */
  lemma {:induction false} ShownOnlyFlagged(names: seq<string>, flags: seq<bool>)
    requires |names| == |flags|
    ensures forall x :: x in Shown(names, flags) ==>
      exists i {:trigger names[i]} :: 0 <= i < |names| && flags[i] && names[i] == x
  {
    if names != [] {
      ShownOnlyFlagged(names[1..], flags[1..]);
      forall x | x in Shown(names, flags)
        ensures exists i {:trigger names[i]} :: 0 <= i < |names| && flags[i] && names[i] == x
      {
        if x !in Shown(names[1..], flags[1..]) {
          assert flags[0] && names[0] == x;
        } else {
          var j :| 0 <= j < |names| - 1 && flags[1..][j] && names[1..][j] == x;
          assert names[j + 1] == x && flags[j + 1];
        }
      }
    }
  }

  /** The card's four tags, unfolded. */
  lemma ShownTags(t: Task)
    ensures Shown(TagNames, TagFlags(t)) ==
      (if t.homeTag then ["Hogar"] else []) + (if t.workTag then ["Trabajo"] else []) +
      (if t.universityTag then ["Universidad"] else []) + (if t.socialTag then ["Social"] else [])
  {
    var n, f := TagNames, TagFlags(t);
    var home := if t.homeTag then ["Hogar"] else [];
    var work := if t.workTag then ["Trabajo"] else [];
    var uni := if t.universityTag then ["Universidad"] else [];
    var social := if t.socialTag then ["Social"] else [];
    assert n[3..][1..] == [] && f[3..][1..] == [];
    assert Shown(n[3..], f[3..]) == social + [];
    assert n[2..][1..] == n[3..] && f[2..][1..] == f[3..];
    assert Shown(n[2..], f[2..]) == uni + social;
    assert n[1..][1..] == n[2..] && f[1..][1..] == f[2..];
    assert Shown(n[1..], f[1..]) == work + (uni + social);
    assert Shown(n, f) == home + (work + (uni + social));
  }

  /**
   * The tag labels a card shows: exactly the names whose flag is set, in the
   * fixed order Hogar, Trabajo, Universidad, Social.
   */
  function TagLabels(t: Task): (labels: seq<string>)
    ensures labels ==
      (if t.homeTag then ["Hogar"] else []) + (if t.workTag then ["Trabajo"] else []) +
      (if t.universityTag then ["Universidad"] else []) + (if t.socialTag then ["Social"] else [])
    ensures forall i :: 0 <= i < |TagNames| ==> (TagNames[i] in labels <==> TagFlags(t)[i])
    ensures forall x :: x in labels ==> x in TagNames
  {
    ShownTags(t);
    Shown(TagNames, TagFlags(t))
  }

  class TaskCard {
    const task: Task
    var deleteTaskId: Option<Id>

    constructor (task: Task)
      ensures this.task == task && deleteTaskId == None
    {
      this.task := task;
      deleteTaskId := None;
    }

    /** The card's "Eliminar" button. */
    method AskDelete()
      modifies this
      ensures deleteTaskId == Some(task.id)
    {
      deleteTaskId := Some(task.id);
    }

    /**
     * `handleDelete`: one DELETE for this card's task, whatever id it is
     * called with. Unless the awaited request throws, the dialog closes and
     * the list reloads, also when the server answered with an error status.
     */
    method HandleDelete<J>(ignored: Id, outcome: Outcome<J>, reload: Reload.ReloadProvider)
      returns (sent: Request<()>)
      requires reload.Valid()
      modifies this, reload
      ensures reload.Valid()
      ensures sent == Request(Delete, TaskUrl(task.id), None)
      ensures outcome.Completes() ==>
        deleteTaskId == None && reload.reloadKey == old(reload.reloadKey) + 1
      ensures !outcome.Completes() ==>
        deleteTaskId == old(deleteTaskId) && unchanged(reload)
    {
      sent := Request(Delete, TaskUrl(task.id), None);
      if outcome.Completes() {
        deleteTaskId := None;
        reload.TriggerReload();
      }
    }

    /** The dialog reports an open change. */
    method DialogOpenChange(open: bool)
      modifies this
      ensures deleteTaskId == TaskDelete.OnOpenChange(open).to
      ensures deleteTaskId == None
    {
      deleteTaskId := TaskDelete.OnOpenChange(open).to;
    }

    /** The dialog's "Cancelar". */
    method DialogCancel()
      modifies this
      ensures deleteTaskId == TaskDelete.OnCancel().to
      ensures deleteTaskId == None
    {
      deleteTaskId := TaskDelete.OnCancel().to;
    }

    /** The dialog's "Eliminar": calls `handleDelete` only while an id is set. */
    method DialogConfirm<J>(outcome: Outcome<J>, reload: Reload.ReloadProvider)
      returns (sent: seq<Request<()>>)
      requires reload.Valid()
      modifies this, reload
      ensures reload.Valid()
      ensures old(deleteTaskId).None? ==> sent == [] && deleteTaskId == None && unchanged(reload)
      ensures old(deleteTaskId).Some? ==> sent == [Request(Delete, TaskUrl(task.id), None)]
      ensures old(deleteTaskId).Some? && outcome.Completes() ==>
        deleteTaskId == None && reload.reloadKey == old(reload.reloadKey) + 1
      ensures old(deleteTaskId).Some? && !outcome.Completes() ==>
        deleteTaskId == old(deleteTaskId) && unchanged(reload)
    {
      match TaskDelete.OnConfirm(deleteTaskId)
      case HandleDelete(id) =>
        var r := HandleDelete(id, outcome, reload);
        sent := [r];
      case _ =>
        sent := [];
    }
  }
}
