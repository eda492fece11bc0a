/**
 * The spell engine (src/app/models/game/power-state.service.ts): the catalogue
 * of powers, one cooldown end per power id, and the two timed buffs the
 * effects set. Every buff end and cooldown end is a timestamp in milliseconds.
 */
module PowerState {
  import opened Wrappers
  import opened Numbers
  import opened PowerModel
  import opened PowerUnlock
  import opened Resources
  import opened PowerEffectTypes
  import opened DamageDoubleEffect
  import opened WeaknessPowerEffect

  /** The registry of effects by power id. */
  const POWER_EFFECTS: map<string, PowerEffect> :=
    map[DAMAGE_DOUBLE_POWER_ID := DAMAGE_DOUBLE_EFFECT, WEAKNESS_POWER_ID := WEAKNESS_POWER_EFFECT]

  /** Both shipped powers have an effect. */
  lemma EveryListedPowerHasEffect()
    ensures forall k :: 0 <= k < |LIST_POWER| ==> LIST_POWER[k].id in POWER_EFFECTS
  {
    forall k | 0 <= k < |LIST_POWER| ensures LIST_POWER[k].id in POWER_EFFECTS {
      if k == 0 {
        assert LIST_POWER[k].id == DAMAGE_DOUBLE_POWER_ID;
      } else {
        assert LIST_POWER[k].id == WEAKNESS_POWER_ID;
      }
    }
  }

  /** The end of a power's cooldown; a power never cast has none (0). */
  function CooldownUntil(cooldowns: map<string, real>, id: string): real
  {
    if id in cooldowns then cooldowns[id] else 0.0
  }

  predicate OnCooldownAt(cooldowns: map<string, real>, id: string, now: int)
  {
    now as real < CooldownUntil(cooldowns, id)
  }

  /** Whole seconds left before `until`, rounded up; 0 once it has passed. */
  function RemainingSeconds(until: real, now: int): (r: real)
    ensures IsInteger(r) && r >= 0.0
    ensures r > 0.0 <==> now as real < until
    ensures now as real < until ==> (r - 1.0) * 1000.0 < until - now as real <= r * 1000.0
  {
    if now as real < until then Max(0.0, Ceil((until - now as real) / 1000.0)) else 0.0
  }

  /** A power as the view shows it at `now`. */
  function PowerView(p: Power, clicks: real, powerWorkerLevel: Option<int>, cooldowns: map<string, real>,
                     now: int): Power
  {
    var onCooldown := OnCooldownAt(cooldowns, p.id, now);
    p.(doesAppearInGame := GetPowerDoesAppearInGame(p, clicks, powerWorkerLevel, GetLevelRequiredForPower(p.id)),
       bought := true,
       isOnCooldown := Some(onCooldown),
       cooldownRemainingSeconds := Some(if onCooldown then RemainingSeconds(CooldownUntil(cooldowns, p.id), now) else 0.0))
  }

  /**
   * Once a cast at `now` records the end of a cooldown of `cooldownSeconds`,
   * the power stays on cooldown for every instant before that end.
   */
  lemma RecastBlockedUntilCooldownEnds(cooldowns: map<string, real>, id: string, cooldownSeconds: real, now: int, t: int)
    requires now <= t && (t - now) as real < cooldownSeconds * 1000.0
    ensures OnCooldownAt(cooldowns[id := now as real + cooldownSeconds * 1000.0], id, t)
    ensures forall other :: other != id ==>
              (OnCooldownAt(cooldowns[id := now as real + cooldownSeconds * 1000.0], other, t)
               <==> OnCooldownAt(cooldowns, other, t))
  {
  }

  class PowerStateService {
    var powersAvailable: seq<Power>
    /** Powers owned; no operation fills it, so the catalogue stands in for it. */
    var powers: seq<Power>
    var damageBuffUntil: real
    var damageBuffMultiplier: real
    var weaknessBuffUntil: real
    var weaknessComboMultiplier: real
    var weaknessSpeedMultiplier: real
    var cooldownUntilByPowerId: map<string, real>
    const resources: ResourcesService

    ghost predicate Valid()
      reads this, resources
    {
      resources.Valid() && powers == []
    }

    /** The five buff fields as one value. */
    function Buffs(): BuffState
      reads this
    {
      BuffState(damageBuffUntil, damageBuffMultiplier, weaknessBuffUntil, weaknessComboMultiplier,
                weaknessSpeedMultiplier)
    }

    constructor (resources: ResourcesService)
      requires resources.Valid()
      ensures Valid()
      ensures this.resources == resources
      ensures powersAvailable == LIST_POWER && Buffs() == NO_BUFF && cooldownUntilByPowerId == map[]
    {
      powersAvailable := LIST_POWER;
      powers := [];
      damageBuffUntil := 0.0;
      damageBuffMultiplier := 1.0;
      weaknessBuffUntil := 0.0;
      weaknessComboMultiplier := 1.0;
      weaknessSpeedMultiplier := 1.0;
      cooldownUntilByPowerId := map[];
      this.resources := resources;
    }

    /** The owned powers, or the whole catalogue while none is owned: in practice always the catalogue. */
    function GetPowers(): (r: seq<Power>)
      reads this, resources
      ensures |powers| > 0 ==> r == powers
      ensures Valid() ==> r == powersAvailable
    {
      if |powers| > 0 then powers else powersAvailable
    }

    method SetPowersAvailable(ps: seq<Power>)
      requires Valid()
      modifies this
      ensures Valid()
      ensures powersAvailable == ps
      ensures Buffs() == old(Buffs()) && cooldownUntilByPowerId == old(cooldownUntilByPowerId)
    {
      powersAvailable := ps;
    }

    /** Powers are priced in currency only in principle: the answer is the ledger's. */
    function GetCanBuyPower(price: real): (r: bool)
      reads this, resources
      ensures r <==> resources.clicks >= price
    {
      resources.CanSpend(price)
    }

    /**
     * Every catalogue power, in order, with visibility decided by the
     * magician's level, marked owned, and with its cooldown state at `now`.
     */
    function GetPowersAvailableView(powerWorkerLevel: Option<int>, now: int): (r: seq<Power>)
      reads this, resources
      ensures |r| == |powersAvailable|
      ensures forall k :: 0 <= k < |r| ==>
                r[k] == powersAvailable[k].(doesAppearInGame := r[k].doesAppearInGame, bought := true,
                                            isOnCooldown := r[k].isOnCooldown,
                                            cooldownRemainingSeconds := r[k].cooldownRemainingSeconds)
      ensures forall k :: 0 <= k < |r| ==>
                r[k].isOnCooldown == Some(IsPowerOnCooldown(k, now))
                && r[k].cooldownRemainingSeconds
                   == Some(if IsPowerOnCooldown(k, now)
                           then RemainingSeconds(CooldownUntil(cooldownUntilByPowerId, powersAvailable[k].id), now)
                           else 0.0)
                && (r[k].cooldownRemainingSeconds.value > 0.0 <==> IsPowerOnCooldown(k, now))
      ensures forall k :: 0 <= k < |r| ==>
                var required := GetLevelRequiredForPower(powersAvailable[k].id);
                (required.Some? && powerWorkerLevel.Some? ==>
                   (r[k].doesAppearInGame <==> powerWorkerLevel.value >= required.value))
                && (required.None? || powerWorkerLevel.None? ==>
                      r[k].doesAppearInGame == powersAvailable[k].doesAppearInGame)
    {
      var ps, cooldowns, clicks := powersAvailable, cooldownUntilByPowerId, resources.clicks;
      seq(|ps|, k requires 0 <= k < |ps| => PowerView(ps[k], clicks, powerWorkerLevel, cooldowns, now))
    }

    /** Buying a power is not possible. */
    method BuyPower(powerIndex: int) returns (ok: bool)
      ensures !ok
    {
      return false;
    }

    /**
     * The damage multiplier in force at `now`; an expired buff is cleared on
     * the way, which no later reading can tell apart from keeping it.
     */
    method GetDamageMultiplier(now: int) returns (m: real)
      requires Valid()
      modifies this
      ensures Valid()
      ensures m == DamageMultiplierAt(old(Buffs()), now)
      ensures Buffs() == ExpireDamage(old(Buffs()), now)
      ensures powersAvailable == old(powersAvailable) && cooldownUntilByPowerId == old(cooldownUntilByPowerId)
    {
      if (now as real) < damageBuffUntil {
        return damageBuffMultiplier;
      }
      damageBuffUntil := 0.0;
      damageBuffMultiplier := 1.0;
      return 1.0;
    }

    /** The base mana cost; no shop reduction applies to it yet. */
    function GetEffectiveManaCost(power: Power): (c: real)
      ensures c == power.manaCost
    {
      power.manaCost
    }

    /** The cost a cast of slot `i` pays: the caller's figure when given, else the base cost. */
    function CastCost(i: int, effectiveManaCost: Option<real>): real
      reads this
      requires 0 <= i < |powersAvailable|
    {
      effectiveManaCost.GetOr(GetEffectiveManaCost(powersAvailable[i]))
    }

    /**
     * A cast of slot `i` at `now` goes through exactly when the slot exists,
     * its power is off cooldown, has an effect, and the mana covers the cost.
     */
    predicate CastAllowed(i: int, effectiveManaCost: Option<real>, now: int)
      reads this, resources
    {
      0 <= i < |powersAvailable|
      && !OnCooldownAt(cooldownUntilByPowerId, powersAvailable[i].id, now)
      && powersAvailable[i].id in POWER_EFFECTS
      && resources.mana >= CastCost(i, effectiveManaCost)
    }

    /**
     * Casts slot `i` at `now`. On success the cost is paid, the power's effect
     * is applied to the buffs, and the power's cooldown restarts; on failure
     * nothing changes.
     */
    method CastPower(i: int, effectiveManaCost: Option<real>, now: int) returns (ok: bool)
      requires Valid()
      modifies this, resources
      ensures Valid()
      ensures ok <==> old(CastAllowed(i, effectiveManaCost, now))
      ensures ok ==>
                var id := old(powersAvailable[i].id);
                resources.mana == SpentMana(old(resources.mana), old(resources.maxMana), old(CastCost(i, effectiveManaCost)))
                && Buffs() == ApplyAll(old(Buffs()), POWER_EFFECTS[id], now)
                && cooldownUntilByPowerId
                   == old(cooldownUntilByPowerId)[id := now as real + old(powersAvailable[i].cooldownSeconds) * 1000.0]
      ensures ok && old(powersAvailable[i].cooldownSeconds) > 0.0 ==> IsPowerOnCooldown(i, now)
      ensures !ok ==>
                Buffs() == old(Buffs()) && cooldownUntilByPowerId == old(cooldownUntilByPowerId)
                && resources.mana == old(resources.mana)
      ensures powersAvailable == old(powersAvailable)
      ensures resources.clicks == old(resources.clicks) && resources.maxMana == old(resources.maxMana)
      ensures resources.manaRegenPerTick == old(resources.manaRegenPerTick)
    {
      if i < 0 || i >= |powersAvailable| {
        return false;
      }
      var power := powersAvailable[i];
      if IsPowerOnCooldown(i, now) {
        return false;
      }
      if power.id !in POWER_EFFECTS {
        return false;
      }
      var effect := POWER_EFFECTS[power.id];
      var cost := effectiveManaCost.GetOr(GetEffectiveManaCost(power));
      if !resources.CanSpendMana(cost) {
        return false;
      }
      // After canSpendMana, spendMana's tolerant test cannot refuse.
      var paid := resources.SpendMana(cost, DEFAULT_EPSILON);
      assert paid;
      var b := ApplyAll(Buffs(), effect, now);
      damageBuffUntil, damageBuffMultiplier := b.damageBuffUntil, b.damageBuffMultiplier;
      weaknessBuffUntil, weaknessComboMultiplier, weaknessSpeedMultiplier :=
        b.weaknessBuffUntil, b.weaknessComboMultiplier, b.weaknessSpeedMultiplier;
      cooldownUntilByPowerId := cooldownUntilByPowerId[power.id := now as real + power.cooldownSeconds * 1000.0];
      return true;
    }

    /** Whether the damage buff is running at `now`; when it is not, the multiplier in force is 1. */
    function IsDamageBuffActive(now: int): (r: bool)
      reads this
      ensures r ==> DamageMultiplierAt(Buffs(), now) == damageBuffMultiplier
      ensures !r ==> DamageMultiplierAt(Buffs(), now) == 1.0
      ensures r <==> now as real < damageBuffUntil
    {
      (now as real) < damageBuffUntil
    }

    /** The combo multiplier in force at `now`; an expired weakness buff is cleared on the way. */
    method GetWeaknessComboMultiplier(now: int) returns (m: real)
      requires Valid()
      modifies this
      ensures Valid()
      ensures m == WeaknessComboAt(old(Buffs()), now)
      ensures Buffs() == ExpireWeakness(old(Buffs()), now)
      ensures powersAvailable == old(powersAvailable) && cooldownUntilByPowerId == old(cooldownUntilByPowerId)
    {
      if (now as real) >= weaknessBuffUntil {
        weaknessBuffUntil := 0.0;
        weaknessComboMultiplier := 1.0;
        weaknessSpeedMultiplier := 1.0;
        return 1.0;
      }
      return weaknessComboMultiplier;
    }

    /** The drain-speed multiplier in force at `now`; an expired weakness buff is cleared on the way. */
    method GetWeaknessSpeedMultiplier(now: int) returns (m: real)
      requires Valid()
      modifies this
      ensures Valid()
      ensures m == WeaknessSpeedAt(old(Buffs()), now)
      ensures Buffs() == ExpireWeakness(old(Buffs()), now)
      ensures powersAvailable == old(powersAvailable) && cooldownUntilByPowerId == old(cooldownUntilByPowerId)
    {
      if (now as real) >= weaknessBuffUntil {
        weaknessBuffUntil := 0.0;
        weaknessComboMultiplier := 1.0;
        weaknessSpeedMultiplier := 1.0;
        return 1.0;
      }
      return weaknessSpeedMultiplier;
    }

    /** Whether the weakness buff is running at `now`; when it is not, both its multipliers read 1. */
    function IsWeaknessBuffActive(now: int): (r: bool)
      reads this
      ensures !r ==> WeaknessComboAt(Buffs(), now) == 1.0 && WeaknessSpeedAt(Buffs(), now) == 1.0
      ensures r ==> WeaknessComboAt(Buffs(), now) == weaknessComboMultiplier
                    && WeaknessSpeedAt(Buffs(), now) == weaknessSpeedMultiplier
      ensures r <==> now as real < weaknessBuffUntil
    {
      (now as real) < weaknessBuffUntil
    }

    /** Whether the UI offers the cast: exactly when a cast at the base cost would go through. */
    function GetCanCastPower(i: int, now: int): (r: bool)
      reads this, resources
      ensures r <==> CastAllowed(i, None, now)
    {
      if i < 0 || i >= |powersAvailable| then false
      else
        var power := powersAvailable[i];
        if power.id !in POWER_EFFECTS then false
        else if (now as real) < (if power.id in cooldownUntilByPowerId then cooldownUntilByPowerId[power.id] else 0.0)
        then false
        else resources.CanSpendMana(GetEffectiveManaCost(power))
    }

    /** Whether slot `i` exists and its power has a registered effect (one of the two spells). */
    function HasPowerEffect(i: int): (r: bool)
      reads this
      ensures r <==> 0 <= i < |powersAvailable| && powersAvailable[i].id in POWER_EFFECTS
      ensures r ==> powersAvailable[i].id == "power" || powersAvailable[i].id == "weakness"
    {
      if i < 0 || i >= |powersAvailable| then false else powersAvailable[i].id in POWER_EFFECTS
    }

    /** Whether slot `i` exists and its power's cooldown has not ended at `now`. */
    function IsPowerOnCooldown(i: int, now: int): (r: bool)
      reads this
      ensures r <==> 0 <= i < |powersAvailable| && now as real < CooldownUntil(cooldownUntilByPowerId, powersAvailable[i].id)
      ensures 0 <= i < |powersAvailable| && powersAvailable[i].id !in cooldownUntilByPowerId ==> (r <==> now < 0)
    {
      if i < 0 || i >= |powersAvailable| then false
      else
        var id := powersAvailable[i].id;
        (now as real) < (if id in cooldownUntilByPowerId then cooldownUntilByPowerId[id] else 0.0)
    }

    /** The base mana cost of slot `i`, or nothing when the slot does not exist. */
    function GetPowerManaCost(i: int): (r: Option<real>)
      reads this
      ensures r.None? <==> i < 0 || i >= |powersAvailable|
      ensures r.Some? ==> r.value == powersAvailable[i].manaCost
    {
      if i < 0 || i >= |powersAvailable| then None else Some(GetEffectiveManaCost(powersAvailable[i]))
    }
  }
}
