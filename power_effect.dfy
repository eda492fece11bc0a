/**
 * The cast context of src/app/models/powers/power-effect.types.ts, as data: an
 * effect is the list of buff calls it makes, and the power engine applies them
 * in order to its buff fields at the instant of the cast.
 */
module PowerEffectTypes {
  import opened Numbers

  /** One call an effect makes on the cast context. */
  datatype BuffCommand =
    | SetDamageBuff(multiplier: real, durationSeconds: real)
    | SetComboMultiplier(mult: real, durationSeconds: real)
    | SetSpeedDecrease(mult: real, durationSeconds: real)

  /** An effect: the calls it makes, in order. */
  type PowerEffect = seq<BuffCommand>

  /** The power engine's buff fields; the end times are milliseconds. */
  datatype BuffState = BuffState(
    damageBuffUntil: real,
    damageBuffMultiplier: real,
    weaknessBuffUntil: real,
    weaknessComboMultiplier: real,
    weaknessSpeedMultiplier: real)

  const NO_BUFF: BuffState := BuffState(0.0, 1.0, 0.0, 1.0, 1.0)

  /** The end of a window of `durationSeconds` opened at `now`. */
  function EndOf(now: int, durationSeconds: real): real
  {
    now as real + durationSeconds * 1000.0
  }

  /**
   * One context call at time `now`. The damage buff and the combo multiplier
   * overwrite their window; the speed decrease only ever extends the weakness
   * window. The damage and weakness buffs never touch each other's fields.
   */
  function ApplyCommand(s: BuffState, c: BuffCommand, now: int): (r: BuffState)
    ensures c.SetDamageBuff? ==>
              r == s.(damageBuffUntil := EndOf(now, c.durationSeconds), damageBuffMultiplier := c.multiplier)
    ensures c.SetComboMultiplier? ==>
              r == s.(weaknessBuffUntil := EndOf(now, c.durationSeconds), weaknessComboMultiplier := c.mult)
    ensures c.SetSpeedDecrease? ==>
              r == s.(weaknessBuffUntil := Max(s.weaknessBuffUntil, EndOf(now, c.durationSeconds)),
                      weaknessSpeedMultiplier := c.mult)
    ensures c.SetSpeedDecrease? ==> r.weaknessBuffUntil >= s.weaknessBuffUntil
  {
    match c
    case SetDamageBuff(mult, d) =>
      s.(damageBuffUntil := EndOf(now, d), damageBuffMultiplier := mult)
    case SetComboMultiplier(mult, d) =>
      s.(weaknessBuffUntil := EndOf(now, d), weaknessComboMultiplier := mult)
    case SetSpeedDecrease(mult, d) =>
      s.(weaknessBuffUntil := Max(s.weaknessBuffUntil, EndOf(now, d)), weaknessSpeedMultiplier := mult)
  }

  /** Every call of an effect, in order, at the same instant. */
  function ApplyAll(s: BuffState, effect: PowerEffect, now: int): BuffState
    decreases |effect|
  {
    if |effect| == 0 then s else ApplyAll(ApplyCommand(s, effect[0], now), effect[1..], now)
  }

  predicate DamageOnly(effect: PowerEffect)
  {
    forall k :: 0 <= k < |effect| ==> effect[k].SetDamageBuff?
  }

  predicate WeaknessOnly(effect: PowerEffect)
  {
    forall k :: 0 <= k < |effect| ==> !effect[k].SetDamageBuff?
  }

  /** An effect made only of damage calls leaves the weakness fields alone. */
  lemma {:induction false} DamageOnlyKeepsWeakness(s: BuffState, effect: PowerEffect, now: int)
    requires DamageOnly(effect)
    ensures var r := ApplyAll(s, effect, now);
            r.weaknessBuffUntil == s.weaknessBuffUntil
            && r.weaknessComboMultiplier == s.weaknessComboMultiplier
            && r.weaknessSpeedMultiplier == s.weaknessSpeedMultiplier
    decreases |effect|
  {
    if |effect| > 0 {
      assert DamageOnly(effect[1..]) by {
        forall k | 0 <= k < |effect[1..]| ensures effect[1..][k].SetDamageBuff? {
          assert effect[1..][k] == effect[k + 1];
        }
      }
      DamageOnlyKeepsWeakness(ApplyCommand(s, effect[0], now), effect[1..], now);
    }
  }

  /** An effect with no damage call leaves the damage fields alone. */
  lemma {:induction false} WeaknessOnlyKeepsDamage(s: BuffState, effect: PowerEffect, now: int)
    requires WeaknessOnly(effect)
    ensures var r := ApplyAll(s, effect, now);
            r.damageBuffUntil == s.damageBuffUntil && r.damageBuffMultiplier == s.damageBuffMultiplier
    decreases |effect|
  {
    if |effect| > 0 {
      assert WeaknessOnly(effect[1..]) by {
        forall k | 0 <= k < |effect[1..]| ensures !effect[1..][k].SetDamageBuff? {
          assert effect[1..][k] == effect[k + 1];
        }
      }
      WeaknessOnlyKeepsDamage(ApplyCommand(s, effect[0], now), effect[1..], now);
    }
  }

  /** The damage multiplier in force at `now`: the buff's while its window is open, else 1. */
  function DamageMultiplierAt(s: BuffState, now: int): (m: real)
    ensures now as real < s.damageBuffUntil ==> m == s.damageBuffMultiplier
    ensures now as real >= s.damageBuffUntil ==> m == 1.0
  {
    if now as real < s.damageBuffUntil then s.damageBuffMultiplier else 1.0
  }

  /** The weakness combo multiplier in force at `now`. */
  function WeaknessComboAt(s: BuffState, now: int): (m: real)
    ensures now as real < s.weaknessBuffUntil ==> m == s.weaknessComboMultiplier
    ensures now as real >= s.weaknessBuffUntil ==> m == 1.0
  {
    if now as real >= s.weaknessBuffUntil then 1.0 else s.weaknessComboMultiplier
  }

  /** The weakness speed multiplier in force at `now`. */
  function WeaknessSpeedAt(s: BuffState, now: int): (m: real)
    ensures now as real < s.weaknessBuffUntil ==> m == s.weaknessSpeedMultiplier
    ensures now as real >= s.weaknessBuffUntil ==> m == 1.0
  {
    if now as real >= s.weaknessBuffUntil then 1.0 else s.weaknessSpeedMultiplier
  }

  /** The damage fields after the lazy check at `now`: cleared once the window has closed. */
  function ExpireDamage(s: BuffState, now: int): (r: BuffState)
    ensures now as real < s.damageBuffUntil ==> r == s
    ensures now as real >= s.damageBuffUntil ==> r == s.(damageBuffUntil := 0.0, damageBuffMultiplier := 1.0)
  {
    if now as real < s.damageBuffUntil then s else s.(damageBuffUntil := 0.0, damageBuffMultiplier := 1.0)
  }

  /** The weakness fields after the lazy check at `now`: all three cleared once the window has closed. */
  function ExpireWeakness(s: BuffState, now: int): (r: BuffState)
    ensures now as real < s.weaknessBuffUntil ==> r == s
    ensures now as real >= s.weaknessBuffUntil ==>
              r == s.(weaknessBuffUntil := 0.0, weaknessComboMultiplier := 1.0, weaknessSpeedMultiplier := 1.0)
  {
    if now as real >= s.weaknessBuffUntil then
      s.(weaknessBuffUntil := 0.0, weaknessComboMultiplier := 1.0, weaknessSpeedMultiplier := 1.0)
    else s
  }

  /**
   * The lazy clearing is invisible: from the instant of the check on, every
   * multiplier reads as it would have without it.
   */
  lemma LazyExpiryInvisible(s: BuffState, now: int, later: int)
    requires now <= later
    ensures DamageMultiplierAt(ExpireDamage(s, now), later) == DamageMultiplierAt(s, later)
    ensures WeaknessComboAt(ExpireWeakness(s, now), later) == WeaknessComboAt(s, later)
    ensures WeaknessSpeedAt(ExpireWeakness(s, now), later) == WeaknessSpeedAt(s, later)
  {
  }
}
