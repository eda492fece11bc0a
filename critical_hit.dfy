/**
 * The critical-hit unlock (src/app/models/unlocks/critical-hit.ts), granted by
 * the miner in roster slot 2. The hit roll itself is not part of this model.
 */
module CriticalHit {
  import opened Wrappers
  import opened WorkerModel
  import opened WorkerUnlocks

  const MINER_WORKER_INDEX: nat := 2
  const CRITICAL_HIT_LEVEL_REQUIRED: int := 1

  datatype CriticalHitUnlock = CriticalHitUnlock(unlock: WorkerUnlock, damageMultiplier: real, criticalChance: real)

  /** Double damage with a one-in-a-hundred chance, from the first miner level. */
  const CriticalHitUnlockDefinition: CriticalHitUnlock :=
    CriticalHitUnlock(
      WorkerUnlock("critical-hit", "Coup critique", "Un coup critique : augmente les dégâts.", "",
                   Some(CRITICAL_HIT_LEVEL_REQUIRED), None),
      2.0, 0.01)

  /** The miner's slot must exist and be owned, and the miner must have reached level 1. */
  function IsCriticalHitUnlocked(owned: seq<nat>, roster: seq<WorkerAutoData>): (r: bool)
    ensures MINER_WORKER_INDEX >= |roster| ==> !r
    ensures MINER_WORKER_INDEX < |roster| && MINER_WORKER_INDEX !in owned ==> !r
    ensures MINER_WORKER_INDEX < |roster| && MINER_WORKER_INDEX in owned
            ==> (r <==> roster[MINER_WORKER_INDEX].level >= CRITICAL_HIT_LEVEL_REQUIRED)
  {
    SlotUnlocked(owned, roster, MINER_WORKER_INDEX, CRITICAL_HIT_LEVEL_REQUIRED)
  }

  /** Since an owned worker has been bought at least once, owning the miner is enough. */
  lemma CriticalHitOnceMinerOwned(owned: seq<nat>, roster: seq<WorkerAutoData>)
    requires WorkerState.OwnedWellFormed(owned, roster)
    ensures IsCriticalHitUnlocked(owned, roster) <==> MINER_WORKER_INDEX < |roster| && MINER_WORKER_INDEX in owned
  {
    if MINER_WORKER_INDEX < |roster| && MINER_WORKER_INDEX in owned {
      var k :| 0 <= k < |owned| && owned[k] == MINER_WORKER_INDEX;
    }
  }
}
