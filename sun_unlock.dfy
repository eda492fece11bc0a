/**
 * The sun unlock (src/app/models/unlocks/sun-unlock.ts), granted by the
 * astrologer in roster slot 4. The sun click itself is not part of this model.
 */
module SunUnlock {
  import opened Wrappers
  import opened WorkerModel
  import opened WorkerUnlocks

  const SUN_WORKER_INDEX: nat := 4
  /** Level 1: the sun shows as soon as the astrologer is bought. */
  const SUN_LEVEL_REQUIRED: int := 1
  const SUN_CLICK_MULTIPLIER: real := 2.0

  const SunUnlockDefinition: WorkerUnlock :=
    WorkerUnlock("sun", "Soleil", "Un soleil en orbite : clic = x2 dégâts", "assets/imgUpgrades/Star/Star1.png",
                 Some(SUN_LEVEL_REQUIRED), None)

  /** The astrologer's slot must exist and be owned, at level 1 or more. */
  function IsSunUnlocked(owned: seq<nat>, roster: seq<WorkerAutoData>): (r: bool)
    ensures SUN_WORKER_INDEX >= |roster| ==> !r
    ensures SUN_WORKER_INDEX < |roster| && SUN_WORKER_INDEX !in owned ==> !r
    ensures SUN_WORKER_INDEX < |roster| && SUN_WORKER_INDEX in owned
            ==> (r <==> roster[SUN_WORKER_INDEX].level >= SUN_LEVEL_REQUIRED)
  {
    SlotUnlocked(owned, roster, SUN_WORKER_INDEX, SUN_LEVEL_REQUIRED)
  }

  /** Changing any worker other than the astrologer leaves the answer alone. */
  lemma SunIgnoresOtherWorkers(owned: seq<nat>, roster: seq<WorkerAutoData>, j: nat, w: WorkerAutoData)
    requires j < |roster| && j != SUN_WORKER_INDEX
    ensures IsSunUnlocked(owned, roster[j := w]) == IsSunUnlocked(owned, roster)
  {
    SlotUnlockedLocal(owned, roster, owned, roster[j := w], SUN_WORKER_INDEX, SUN_LEVEL_REQUIRED);
  }
}
