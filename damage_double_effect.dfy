/** The "power" spell (src/app/models/powers/effects/damage-double.effect.ts): damage ×2 for one minute. */
module DamageDoubleEffect {
  import opened PowerEffectTypes

  const DAMAGE_DOUBLE_POWER_ID: string := "power"
  const DURATION_SECONDS: real := 60.0
  const DAMAGE_MULTIPLIER: real := 2.0

  /** One call: the damage buff at ×2 for 60 seconds. */
  const DAMAGE_DOUBLE_EFFECT: PowerEffect := [SetDamageBuff(DAMAGE_MULTIPLIER, DURATION_SECONDS)]

  /**
   * Cast at `now`, the spell doubles damage for the next 60000 ms, whatever
   * was active before, and leaves the weakness buff as it was.
   */
  lemma DamageDoubleCast(s: BuffState, now: int)
    ensures var r := ApplyAll(s, DAMAGE_DOUBLE_EFFECT, now);
            r.damageBuffUntil == now as real + 60000.0
            && r.damageBuffMultiplier == 2.0
            && r.weaknessBuffUntil == s.weaknessBuffUntil
            && r.weaknessComboMultiplier == s.weaknessComboMultiplier
            && r.weaknessSpeedMultiplier == s.weaknessSpeedMultiplier
    ensures forall t: int :: now <= t < now + 60000 ==> DamageMultiplierAt(ApplyAll(s, DAMAGE_DOUBLE_EFFECT, now), t) == 2.0
    ensures forall t: int :: t >= now + 60000 ==> DamageMultiplierAt(ApplyAll(s, DAMAGE_DOUBLE_EFFECT, now), t) == 1.0
  {
    var r := ApplyCommand(s, DAMAGE_DOUBLE_EFFECT[0], now);
    assert ApplyAll(s, DAMAGE_DOUBLE_EFFECT, now) == ApplyAll(r, DAMAGE_DOUBLE_EFFECT[1..], now);
    assert DAMAGE_DOUBLE_EFFECT[1..] == [];
  }
}
