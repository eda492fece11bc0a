/**
 * The "weakness" spell (src/app/models/powers/effects/weakness-power-effect.ts):
 * for one minute the streak bar needs half the clicks and drains at half speed.
 */
module WeaknessPowerEffect {
  import opened Numbers
  import opened PowerEffectTypes

  const WEAKNESS_POWER_ID: string := "weakness"
  /** Half the clicks to fill the streak bar. */
  const COMBO_MULTIPLIER: real := 0.5
  /** The active bar drains at half speed. */
  const SPEED_DECREASE: real := 0.5
  const WEAKNESS_DURATION_SECONDS: real := 60.0

  /** Two calls, in this order: the combo multiplier, then the speed decrease. */
  const WEAKNESS_POWER_EFFECT: PowerEffect :=
    [SetComboMultiplier(COMBO_MULTIPLIER, WEAKNESS_DURATION_SECONDS),
     SetSpeedDecrease(SPEED_DECREASE, WEAKNESS_DURATION_SECONDS)]

  /**
   * Cast at `now`, the spell opens a weakness window of exactly 60000 ms (the
   * speed call cannot stretch it past the combo call's end) with both
   * multipliers at 0.5, and leaves the damage buff as it was.
   */
  lemma WeaknessCast(s: BuffState, now: int)
    ensures var r := ApplyAll(s, WEAKNESS_POWER_EFFECT, now);
            r.weaknessBuffUntil == now as real + 60000.0
            && r.weaknessComboMultiplier == 0.5
            && r.weaknessSpeedMultiplier == 0.5
            && r.damageBuffUntil == s.damageBuffUntil
            && r.damageBuffMultiplier == s.damageBuffMultiplier
    ensures forall t: int :: now <= t < now + 60000 ==>
              var r := ApplyAll(s, WEAKNESS_POWER_EFFECT, now);
              WeaknessComboAt(r, t) == 0.5 && WeaknessSpeedAt(r, t) == 0.5
    ensures forall t: int :: t >= now + 60000 ==>
              var r := ApplyAll(s, WEAKNESS_POWER_EFFECT, now);
              WeaknessComboAt(r, t) == 1.0 && WeaknessSpeedAt(r, t) == 1.0
  {
    var s1 := ApplyCommand(s, WEAKNESS_POWER_EFFECT[0], now);
    var r := ApplyCommand(s1, WEAKNESS_POWER_EFFECT[1], now);
    assert ApplyAll(s, WEAKNESS_POWER_EFFECT, now) == ApplyAll(s1, WEAKNESS_POWER_EFFECT[1..], now);
    assert ApplyAll(s1, WEAKNESS_POWER_EFFECT[1..], now) == ApplyAll(r, WEAKNESS_POWER_EFFECT[2..], now);
    assert r.weaknessBuffUntil == Max(now as real + 60000.0, now as real + 60000.0);
  }
}
