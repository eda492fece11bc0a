/**
 * The streak service (src/app/models/unlocks/streak-state.service.ts): it
 * holds the bar and its phase and delegates every rule to the streak module.
 * Before each tick, click and view it reads the weakness modifiers from the
 * spell engine, which clears an expired weakness buff; the streak rules take
 * no modifiers, so the values read play no further part.
 */
module StreakState {
  import opened Wrappers
  import opened WorkerModel
  import opened PowerEffectTypes
  import opened PowerState
  import opened Streak

  /** The weakness modifiers as the service reports them: none when both multipliers read 1. */
  function ModifiersOf(combo: real, speed: real): (m: Option<(real, real)>)
    ensures m.None? <==> combo == 1.0 && speed == 1.0
    ensures m.Some? ==> m.value == (combo, speed)
  {
    if combo == 1.0 && speed == 1.0 then None else Some((combo, speed))
  }

  class StreakStateService {
    var barCurrent: real
    var phase: StreakPhase
    const powerState: PowerStateService

    ghost predicate Valid()
      reads this, powerState, powerState.resources
    {
      StreakInvariant(barCurrent, phase) && powerState.Valid()
    }

    constructor (powerState: PowerStateService)
      requires powerState.Valid()
      ensures Valid()
      ensures this.powerState == powerState
      ensures barCurrent == 0.0 && phase == Filling
    {
      barCurrent := 0.0;
      phase := Filling;
      this.powerState := powerState;
    }

    /**
     * The weakness multipliers in force at `now`, or nothing when both are 1;
     * an expired weakness buff is cleared on the way.
     */
    method GetWeaknessModifiers(now: int) returns (modifiers: Option<(real, real)>)
      requires Valid()
      modifies powerState
      ensures Valid()
      ensures modifiers == ModifiersOf(WeaknessComboAt(old(powerState.Buffs()), now),
                                       WeaknessSpeedAt(old(powerState.Buffs()), now))
      ensures powerState.Buffs() == ExpireWeakness(old(powerState.Buffs()), now)
      ensures powerState.powersAvailable == old(powerState.powersAvailable)
      ensures powerState.cooldownUntilByPowerId == old(powerState.cooldownUntilByPowerId)
    {
      var combo := powerState.GetWeaknessComboMultiplier(now);
      var speed := powerState.GetWeaknessSpeedMultiplier(now);
      LazyExpiryInvisible(old(powerState.Buffs()), now, now);
      modifiers := ModifiersOf(combo, speed);
    }

    /** One tick at `now`: the bar drains by the smith's stats; the weakness buff is only checked for expiry. */
    method Tick(ticksPerSecond: real, owned: seq<nat>, roster: seq<WorkerAutoData>, now: int)
      requires Valid() && ticksPerSecond > 0.0
      modifies this, powerState
      ensures Valid()
      ensures StreakStep(barCurrent, phase)
              == TickStreak(old(barCurrent), old(phase), ticksPerSecond, GetSmithLevel(owned, roster))
      ensures old(phase) != Active ==> barCurrent == old(barCurrent) && phase == old(phase)
      ensures powerState.Buffs() == ExpireWeakness(old(powerState.Buffs()), now)
      ensures powerState.powersAvailable == old(powerState.powersAvailable)
      ensures powerState.cooldownUntilByPowerId == old(powerState.cooldownUntilByPowerId)
    {
      var smithLevel := GetSmithLevel(owned, roster);
      var modifiers := GetWeaknessModifiers(now);
      var result := TickStreak(barCurrent, phase, ticksPerSecond, smithLevel);
      TickKeepsStreakInvariant(barCurrent, phase, ticksPerSecond, smithLevel);
      barCurrent := result.barCurrent;
      phase := result.phase;
    }

    /** One click at `now`: the bar gains 1 towards its maximum, with no unlock check. */
    method OnClick(owned: seq<nat>, roster: seq<WorkerAutoData>, now: int)
      requires Valid()
      modifies this, powerState
      ensures Valid()
      ensures StreakStep(barCurrent, phase)
              == ProcessStreakOnClick(old(barCurrent), old(phase), GetSmithLevel(owned, roster))
      ensures old(phase) == Active ==> phase == Active
      ensures powerState.Buffs() == ExpireWeakness(old(powerState.Buffs()), now)
      ensures powerState.powersAvailable == old(powerState.powersAvailable)
      ensures powerState.cooldownUntilByPowerId == old(powerState.cooldownUntilByPowerId)
    {
      var smithLevel := GetSmithLevel(owned, roster);
      var modifiers := GetWeaknessModifiers(now);
      var result := ProcessStreakOnClick(barCurrent, phase, smithLevel);
      ClickKeepsStreakInvariant(barCurrent, phase, smithLevel);
      barCurrent := result.barCurrent;
      phase := result.phase;
    }

    /** The streak's damage multiplier: above 1 only while unlocked and active. */
    function GetMultiplier(owned: seq<nat>, roster: seq<WorkerAutoData>): (m: real)
      reads this
      ensures m >= 1.0
      ensures phase != Active ==> m == 1.0
      ensures m == GetStreakMultiplier(owned, roster, phase)
    {
      GetStreakMultiplier(owned, roster, phase)
    }

    /** The streak data for the game state at `now`. */
    method GetView(owned: seq<nat>, roster: seq<WorkerAutoData>, now: int) returns (v: StreakView)
      requires Valid()
      modifies powerState
      ensures Valid()
      ensures v == GetStreakView(owned, roster, barCurrent, phase)
      ensures v.streakUnlocked ==> v.streakBarCurrent == barCurrent && v.streakActive == (phase == Active)
      ensures powerState.Buffs() == ExpireWeakness(old(powerState.Buffs()), now)
      ensures powerState.powersAvailable == old(powerState.powersAvailable)
      ensures powerState.cooldownUntilByPowerId == old(powerState.cooldownUntilByPowerId)
    {
      var modifiers := GetWeaknessModifiers(now);
      v := GetStreakView(owned, roster, barCurrent, phase);
    }
  }
}
