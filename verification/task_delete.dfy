/**
 * The delete confirmation dialog of src/components/TaskDelete.tsx. It owns
 * no state: it reads its parent's `deleteTaskId` and reports each event as
 * the call it makes on its parent.
 */
module TaskDelete {
  import opened Wrappers
  import opened TaskTypes

  /** The parent callback an event invokes. */
  datatype Call = SetDeleteTaskId(to: Option<Id>) | HandleDelete(arg: Id) | NoCall

  /** `open={deleteTaskId !== null}`. */
  function DialogOpen(deleteTaskId: Option<Id>): (open: bool)
    ensures open <==> deleteTaskId != None
  {
    deleteTaskId.Some?
  }

  /** Any open-change event, whichever way: clear the id. */
  function OnOpenChange(open: bool): (c: Call)
    ensures c == SetDeleteTaskId(None)
  {
    SetDeleteTaskId(None)
  }

  /** "Cancelar". */
  function OnCancel(): (c: Call)
    ensures c == SetDeleteTaskId(None)
  {
    SetDeleteTaskId(None)
  }

  /** "Eliminar": delete only when an id is set. */
  function OnConfirm(deleteTaskId: Option<Id>): (c: Call)
    ensures deleteTaskId.None? <==> c == NoCall
    ensures deleteTaskId.Some? ==> c == HandleDelete(deleteTaskId.value)
    ensures !c.SetDeleteTaskId?
  {
    match deleteTaskId
    case Some(id) => HandleDelete(id)
    case None => NoCall
  }

  /** Cancelling or any open change closes the dialog; confirming acts exactly while it is open, on the id it shows. */
  lemma DialogEvents(deleteTaskId: Option<Id>, open: bool)
    ensures !DialogOpen(OnCancel().to) && !DialogOpen(OnOpenChange(open).to)
    ensures OnConfirm(deleteTaskId) != NoCall <==> DialogOpen(deleteTaskId)
    ensures OnConfirm(deleteTaskId).HandleDelete? ==> deleteTaskId == Some(OnConfirm(deleteTaskId).arg)
  {
  }

  /** The dialog never sets a non-null id. */
  lemma NeverSetsAnId(deleteTaskId: Option<Id>, open: bool)
    ensures forall c :: c in [OnOpenChange(open), OnCancel(), OnConfirm(deleteTaskId)] && c.SetDeleteTaskId? ==> c.to == None
  {
  }
}
