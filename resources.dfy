/**
 * The resource ledger (src/app/models/game/resources.service.ts): the currency,
 * called `clicks`, and the mana spent on powers.
 */
module Resources {
  import opened Numbers

  const DEFAULT_MAX_MANA: real := 100.0
  /** Base regeneration per tick: 10 ticks per second, so 0.5 mana per second. */
  const DEFAULT_MANA_REGEN_PER_TICK: real := 0.05
  /** Default tolerance of `spendClicks` and `spendMana`. */
  const DEFAULT_EPSILON: real := 0.001

  /** Mana left by `spendMana` as the source writes it: floored at 0, never capped. */
  function SpentManaAsWritten(mana: real, amount: real): real
  {
    Max(0.0, mana - amount)
  }

  /**
   * Under the source's `spendMana`, any amount below `mana - maxMana` (a
   * negative one when mana is full) passes the guard for every tolerance and
   * leaves mana above its cap; no other amount does.
   */
  lemma SpendManaAsWrittenOverfills(mana: real, maxMana: real, amount: real, epsilon: real)
    requires 0.0 <= mana <= maxMana && epsilon >= 0.0
    ensures amount < mana - maxMana ==> mana >= amount - epsilon
    ensures SpentManaAsWritten(mana, amount) > maxMana <==> amount < mana - maxMana
  {
  }

  /**
   * Mana left by a payment, clamped into [0, maxMana] as every other mana
   * mutator is; equal to the source's result for any non-negative amount.
   */
  function SpentMana(mana: real, maxMana: real, amount: real): (r: real)
    requires 0.0 <= mana <= maxMana
    ensures 0.0 <= r <= maxMana
    ensures amount >= 0.0 ==> r == SpentManaAsWritten(mana, amount)
    ensures 0.0 <= amount <= mana ==> r == mana - amount
  {
    Min(maxMana, Max(0.0, mana - amount))
  }

  class ResourcesService {
    var clicks: real
    var mana: real
    var maxMana: real
    var manaRegenPerTick: real

    /** Currency is never negative and mana stays within its cap. */
    ghost predicate Valid()
      reads this
    {
      0.0 <= clicks && 0.0 <= mana <= maxMana && 0.0 <= manaRegenPerTick
    }

    constructor ()
      ensures Valid()
      ensures clicks == 0.0 && mana == 0.0
      ensures maxMana == DEFAULT_MAX_MANA && manaRegenPerTick == DEFAULT_MANA_REGEN_PER_TICK
    {
      clicks := 0.0;
      mana := 0.0;
      maxMana := DEFAULT_MAX_MANA;
      manaRegenPerTick := DEFAULT_MANA_REGEN_PER_TICK;
    }

    method AddClicks(amount: real)
      requires Valid()
      modifies this
      ensures Valid()
      ensures clicks == Max(0.0, old(clicks) + amount)
      ensures mana == old(mana) && maxMana == old(maxMana) && manaRegenPerTick == old(manaRegenPerTick)
    {
      clicks := Max(0.0, clicks + amount);
    }

    /**
     * Exact comparison, without the tolerance `SpendClicks` grants: an
     * affordable amount is taken whole, with no flooring at 0.
     */
    function CanSpend(amount: real): (r: bool)
      reads this
      ensures r <==> clicks - amount >= 0.0
      ensures r ==> Max(0.0, clicks - amount) == clicks - amount
    {
      clicks >= amount
    }

    method SpendClicks(amount: real, epsilon: real) returns (paid: bool)
      requires Valid()
      modifies this
      ensures Valid()
      ensures paid <==> old(clicks) >= amount - epsilon
      ensures paid ==> clicks == Max(0.0, old(clicks) - amount)
      ensures !paid ==> clicks == old(clicks)
      ensures old(CanSpend(amount)) && epsilon >= 0.0 ==> paid
      ensures mana == old(mana) && maxMana == old(maxMana) && manaRegenPerTick == old(manaRegenPerTick)
    {
      if clicks < amount - epsilon {
        return false;
      }
      clicks := Max(0.0, clicks - amount);
      return true;
    }

    method SetMaxMana(value: real)
      requires Valid()
      modifies this
      ensures Valid()
      ensures maxMana == Max(0.0, value)
      ensures mana == Min(old(mana), maxMana)
      ensures clicks == old(clicks) && manaRegenPerTick == old(manaRegenPerTick)
    {
      maxMana := Max(0.0, value);
      mana := Min(mana, maxMana);
    }

    /** Regeneration per tick; the worker and shop bonuses are folded in by the caller. */
    method SetManaRegenPerTick(value: real)
      requires Valid()
      modifies this
      ensures Valid()
      ensures manaRegenPerTick == Max(0.0, value)
      ensures clicks == old(clicks) && mana == old(mana) && maxMana == old(maxMana)
    {
      manaRegenPerTick := Max(0.0, value);
    }

    method AddMana(amount: real)
      requires Valid()
      modifies this
      ensures Valid()
      ensures mana == Min(maxMana, Max(0.0, old(mana) + amount))
      ensures amount >= 0.0 ==> mana >= old(mana)
      ensures clicks == old(clicks) && maxMana == old(maxMana) && manaRegenPerTick == old(manaRegenPerTick)
    {
      mana := Min(maxMana, Max(0.0, mana + amount));
    }

    /** Exact comparison: a payment of an affordable amount is taken whole. */
    function CanSpendMana(amount: real): (r: bool)
      reads this
      ensures r <==> mana - amount >= 0.0
      ensures r && 0.0 <= amount && mana <= maxMana ==> SpentMana(mana, maxMana, amount) == mana - amount
    {
      mana >= amount
    }

    method SpendMana(amount: real, epsilon: real) returns (paid: bool)
      requires Valid()
      modifies this
      ensures Valid()
      ensures paid <==> old(mana) >= amount - epsilon
      ensures paid ==> mana == SpentMana(old(mana), old(maxMana), amount)
      ensures !paid ==> mana == old(mana)
      ensures old(CanSpendMana(amount)) && epsilon >= 0.0 ==> paid
      ensures clicks == old(clicks) && maxMana == old(maxMana) && manaRegenPerTick == old(manaRegenPerTick)
    {
      if mana < amount - epsilon {
        return false;
      }
      mana := SpentMana(mana, maxMana, amount);
      return true;
    }

    /** Called once per tick. */
    method TickManaRegen()
      requires Valid()
      modifies this
      ensures Valid()
      ensures mana == Min(maxMana, old(mana) + manaRegenPerTick)
      ensures clicks == old(clicks) && maxMana == old(maxMana) && manaRegenPerTick == old(manaRegenPerTick)
    {
      AddMana(manaRegenPerTick);
    }

    method AddManaOnClick(amount: real)
      requires Valid()
      modifies this
      ensures Valid()
      ensures mana == Min(maxMana, Max(0.0, old(mana) + amount))
      ensures clicks == old(clicks) && maxMana == old(maxMana) && manaRegenPerTick == old(manaRegenPerTick)
    {
      AddMana(amount);
    }
  }
}
