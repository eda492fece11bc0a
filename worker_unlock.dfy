/**
 * What a worker unlocks (src/app/models/unlocks/worker-unlock.model.ts), and
 * the test every unlock rule shares: a fixed roster slot, owned, at a level
 * threshold.
 */
module WorkerUnlocks {
  import opened Wrappers
  import opened WorkerModel
  import opened WorkerState

  /** A feature unlocked by a worker; with no required level it unlocks on purchase. */
  datatype WorkerUnlock = WorkerUnlock(
    id: string,
    name: string,
    description: string,
    imageUrl: string,
    levelRequired: Option<int>,
    doesAppearInGame: Option<bool>)

  /** The level of the worker in `slot` when that slot exists and is owned. */
  function OwnedSlotLevel(owned: seq<nat>, roster: seq<WorkerAutoData>, slot: nat): (r: Option<nat>)
    ensures r.Some? <==> slot < |roster| && slot in owned
    ensures r.Some? ==> r.value == roster[slot].level
  {
    if slot >= |roster| then None
    else if slot !in owned then None
    else Some(roster[slot].level)
  }

  /** The rule of every unlock: the worker in `slot` is owned and has at least `required` levels. */
  predicate SlotUnlocked(owned: seq<nat>, roster: seq<WorkerAutoData>, slot: nat, required: int)
  {
    match OwnedSlotLevel(owned, roster, slot)
    case None => false
    case Some(level) => level >= required
  }

  /** An unlock only looks at its own slot's record and whether that slot is owned. */
  lemma SlotUnlockedLocal(owned: seq<nat>, roster: seq<WorkerAutoData>,
                          owned': seq<nat>, roster': seq<WorkerAutoData>, slot: nat, required: int)
    requires slot < |roster| <==> slot < |roster'|
    requires slot < |roster| ==> roster'[slot].level == roster[slot].level
    requires slot in owned <==> slot in owned'
    ensures SlotUnlocked(owned', roster', slot, required) == SlotUnlocked(owned, roster, slot, required)
  {
  }

  /** Buying a level of any worker never takes an unlock away. */
  lemma SlotUnlockedSticky(owned: seq<nat>, roster: seq<WorkerAutoData>, i: nat, slot: nat, required: int)
    requires i < |roster|
    requires SlotUnlocked(owned, roster, slot, required)
    ensures SlotUnlocked(AddOwned(owned, i), UpgradeAt(roster, i), slot, required)
  {
    assert slot in AddOwned(owned, i);
  }

  /** Buying the slot's worker up to the threshold unlocks it, whatever it was before. */
  lemma SlotUnlockedByPurchase(owned: seq<nat>, roster: seq<WorkerAutoData>, slot: nat, required: int)
    requires slot < |roster| && roster[slot].level + 1 >= required
    ensures SlotUnlocked(AddOwned(owned, slot), UpgradeAt(roster, slot), slot, required)
  {
  }
}
