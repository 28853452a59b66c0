/**
 * The reload signal of src/context/ReloadContext.tsx: a counter whose only
 * mutator is `triggerReload`.
 */
module Reload {

  class ReloadProvider {
    var reloadKey: int
    /** Every value `reloadKey` has held, oldest first. */
    ghost var history: seq<int>

    ghost predicate Valid()
      reads this
    {
      && |history| > 0
      && history[|history| - 1] == reloadKey
      && forall i :: 0 <= i < |history| ==> history[i] == i
    }

    constructor ()
      ensures Valid()
      ensures reloadKey == 0 && history == [0]
    {
      reloadKey := 0;
      history := [0];
    }

    method TriggerReload()
      requires Valid()
      modifies this
      ensures Valid()
      ensures reloadKey == old(reloadKey) + 1
      ensures history == old(history) + [reloadKey]
    {
      reloadKey := reloadKey + 1;
      history := history + [reloadKey];
    }
  }

  /** After n triggers the key is n; it was never negative and rose by exactly one each time. */
  lemma KeyCountsTriggers(p: ReloadProvider)
    requires p.Valid()
    ensures p.reloadKey == |p.history| - 1
    ensures forall i :: 0 <= i < |p.history| ==> p.history[i] >= 0
    ensures forall i, j :: 0 <= i < j < |p.history| ==> p.history[i] < p.history[j]
  {
  }
}
