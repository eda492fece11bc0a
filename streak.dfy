/**
 * The streak bar (src/app/models/unlocks/streak.ts), unlocked by the smith in
 * roster slot 3: clicks fill the bar; once full it turns active, multiplies
 * damage, and drains tick by tick until it is empty again.
 */
module Streak {
  import opened Numbers
  import opened Wrappers
  import opened WorkerModel
  import opened WorkerUnlocks

  const SMITH_WORKER_INDEX: nat := 3
  const STREAK_LEVEL_REQUIRED: int := 10
  /** Clicks needed to fill the bar before any upgrade. */
  const NUMBER_OF_CLICKS_REQUIRED_FOR_BAR: real := 800.0
  /** How many clicks' worth the active bar loses per second before any upgrade. */
  const SPEED_OF_DECREASE_OF_BAR: real := 40.0
  /** Damage and production multiplier while the bar is active, before any upgrade. */
  const DAMAGE_MULTIPLIER: real := 2.0

  datatype StreakPhase = Filling | Active

  datatype StreakView = StreakView(
    streakUnlocked: bool,
    streakBarCurrent: real,
    streakBarMax: real,
    streakActive: bool,
    streakDamageMultiplier: Option<real>)

  /** The bar after a tick or a click. */
  datatype StreakStep = StreakStep(barCurrent: real, phase: StreakPhase)

  datatype StreakUnlock = StreakUnlock(
    unlock: WorkerUnlock,
    speedOfDecreaseOfBar: real,
    numberOfClicksRequiredForBar: real,
    damageMultiplier: real)

  /** An upgrade multiplies the damage, or adds to the drain speed or to the clicks needed. */
  datatype StreakUpgrade = StreakUpgrade(
    unlock: WorkerUnlock,
    damageMultiplier: Option<real>,
    speedOfDecreaseOfBar: Option<real>,
    numberOfClicksRequiredForBar: Option<real>)

  datatype StreakStats = StreakStats(damageMultiplier: real, speedOfDecreaseOfBar: real, numberOfClicksRequiredForBar: real)

  const StreakUnlockDefinition: StreakUnlock :=
    StreakUnlock(
      WorkerUnlock("streak", "Streak", "Ajoute une barre à remplir pour gagner des points.", "",
                   Some(STREAK_LEVEL_REQUIRED), None),
      SPEED_OF_DECREASE_OF_BAR, NUMBER_OF_CLICKS_REQUIRED_FOR_BAR, DAMAGE_MULTIPLIER)

  function Upgrade(id: string, description: string, level: int,
                   damage: Option<real>, speed: Option<real>, clicks: Option<real>): StreakUpgrade
  {
    StreakUpgrade(WorkerUnlock(id, "Amélioration du streak", description, "", Some(level), None), damage, speed, clicks)
  }

  const DAMAGE_TEXT := "Augmente les dégâts du streak."
  const SPEED_TEXT := "Réduit la vitesse de décrémentation de la barre."
  const CLICKS_TEXT := "Réduit le nombre de clicks requis pour remplir la barre."

  /** Every streak upgrade, in the order the stat loop visits them. */
  const STREAK_UPGRADES: seq<StreakUpgrade> := [
    Upgrade("upgrade-streak-damage-1", DAMAGE_TEXT, 25, Some(2.0), None, None),
    Upgrade("upgrade-streak-damage-2", DAMAGE_TEXT, 50, Some(2.0), None, None),
    Upgrade("upgrade-streak-speed-1", SPEED_TEXT, 40, None, Some(-5.0), None),
    Upgrade("upgrade-streak-speed-2", SPEED_TEXT, 60, None, Some(-10.0), None),
    Upgrade("upgrade-streak-clicks-1", CLICKS_TEXT, 20, None, None, Some(-100.0)),
    Upgrade("upgrade-streak-clicks-2", CLICKS_TEXT, 40, None, None, Some(-100.0)),
    Upgrade("upgrade-streak-clicks-3", CLICKS_TEXT, 100, None, None, Some(-200.0))
  ]

  /** The smith's level, or 0 when the slot is missing or not owned. */
  function GetSmithLevel(owned: seq<nat>, roster: seq<WorkerAutoData>): (r: nat)
    ensures SMITH_WORKER_INDEX < |roster| && SMITH_WORKER_INDEX in owned ==> r == roster[SMITH_WORKER_INDEX].level
    ensures !(SMITH_WORKER_INDEX < |roster| && SMITH_WORKER_INDEX in owned) ==> r == 0
  {
    OwnedSlotLevel(owned, roster, SMITH_WORKER_INDEX).GetOr(0)
  }

  /** One pass of the stat loop: an upgrade counts once the smith has reached its level. */
  function ApplyStreakUpgrade(acc: StreakStats, u: StreakUpgrade, smithLevel: int): StreakStats
  {
    if smithLevel < u.unlock.levelRequired.GetOr(0) then acc
    else
      StreakStats(
        match u.damageMultiplier case Some(m) => acc.damageMultiplier * m case None => acc.damageMultiplier,
        match u.speedOfDecreaseOfBar case Some(d) => acc.speedOfDecreaseOfBar + d case None => acc.speedOfDecreaseOfBar,
        match u.numberOfClicksRequiredForBar case Some(d) => acc.numberOfClicksRequiredForBar + d
                                            case None => acc.numberOfClicksRequiredForBar)
  }

  predicate DamageUpgradesAtLeastOne(upgrades: seq<StreakUpgrade>)
  {
    forall k :: 0 <= k < |upgrades| && upgrades[k].damageMultiplier.Some? ==> upgrades[k].damageMultiplier.value >= 1.0
  }

  /**
   * The unclamped stats after visiting `upgrades` in order from the base
   * values. Upgrades whose damage factor is at least 1 never lower the damage
   * below its base.
   */
  function StreakFold(upgrades: seq<StreakUpgrade>, smithLevel: int): (s: StreakStats)
    ensures DamageUpgradesAtLeastOne(upgrades) ==> s.damageMultiplier >= DAMAGE_MULTIPLIER
    decreases |upgrades|
  {
    if |upgrades| == 0 then
      StreakStats(DAMAGE_MULTIPLIER, SPEED_OF_DECREASE_OF_BAR, NUMBER_OF_CLICKS_REQUIRED_FOR_BAR)
    else
      var rest := upgrades[..|upgrades| - 1];
      assert DamageUpgradesAtLeastOne(upgrades) ==> DamageUpgradesAtLeastOne(rest);
      var acc := StreakFold(rest, smithLevel);
      var u := upgrades[|upgrades| - 1];
      assert DamageUpgradesAtLeastOne(upgrades) && u.damageMultiplier.Some? ==> u.damageMultiplier.value >= 1.0;
      assert acc.damageMultiplier >= 0.0 && u.damageMultiplier.Some? && u.damageMultiplier.value >= 1.0
             ==> acc.damageMultiplier * u.damageMultiplier.value >= acc.damageMultiplier;
      ApplyStreakUpgrade(acc, u, smithLevel)
  }

  /** The stats the game uses: the drain speed floored at 0, the clicks needed at 1. */
  function StreakStatsOf(smithLevel: int): (s: StreakStats)
    ensures s.speedOfDecreaseOfBar >= 0.0
    ensures s.numberOfClicksRequiredForBar >= 1.0
    ensures s.damageMultiplier >= DAMAGE_MULTIPLIER
  {
    var raw := StreakFold(STREAK_UPGRADES, smithLevel);
    StreakStats(raw.damageMultiplier, Max(0.0, raw.speedOfDecreaseOfBar), Max(1.0, raw.numberOfClicksRequiredForBar))
  }

  /** The stat loop: each unlocked upgrade scales the damage or shifts the speed and the clicks needed. */
  method GetStreakStats(smithLevel: int) returns (stats: StreakStats)
    ensures stats == StreakStatsOf(smithLevel)
  {
    var damageMultiplier := DAMAGE_MULTIPLIER;
    var speedOfDecreaseOfBar := SPEED_OF_DECREASE_OF_BAR;
    var numberOfClicksRequiredForBar := NUMBER_OF_CLICKS_REQUIRED_FOR_BAR;
    var upgrades := STREAK_UPGRADES;
    for k := 0 to |upgrades|
      invariant StreakStats(damageMultiplier, speedOfDecreaseOfBar, numberOfClicksRequiredForBar)
                == StreakFold(upgrades[..k], smithLevel)
    {
      assert upgrades[..k + 1][..k] == upgrades[..k];
      var upgrade := upgrades[k];
      if smithLevel < upgrade.unlock.levelRequired.GetOr(0) {
        continue;
      }
      if upgrade.damageMultiplier.Some? {
        damageMultiplier := damageMultiplier * upgrade.damageMultiplier.value;
      }
      if upgrade.speedOfDecreaseOfBar.Some? {
        speedOfDecreaseOfBar := speedOfDecreaseOfBar + upgrade.speedOfDecreaseOfBar.value;
      }
      if upgrade.numberOfClicksRequiredForBar.Some? {
        numberOfClicksRequiredForBar := numberOfClicksRequiredForBar + upgrade.numberOfClicksRequiredForBar.value;
      }
    }
    assert upgrades[..|upgrades|] == upgrades;
    stats := StreakStats(damageMultiplier, Max(0.0, speedOfDecreaseOfBar), Max(1.0, numberOfClicksRequiredForBar));
  }

  /** The fold over a prefix one longer is one more pass of the loop. */
  lemma StreakFoldStep(upgrades: seq<StreakUpgrade>, k: nat, smithLevel: int)
    requires k < |upgrades|
    ensures StreakFold(upgrades[..k + 1], smithLevel)
            == ApplyStreakUpgrade(StreakFold(upgrades[..k], smithLevel), upgrades[k], smithLevel)
  {
    assert upgrades[..k + 1][..k] == upgrades[..k];
  }

  /** The unclamped stats over the whole table, pass by pass. */
  lemma StreakFoldTable(smithLevel: int)
    ensures StreakFold(STREAK_UPGRADES, smithLevel) ==
            var u := STREAK_UPGRADES;
            var s0 := StreakStats(DAMAGE_MULTIPLIER, SPEED_OF_DECREASE_OF_BAR, NUMBER_OF_CLICKS_REQUIRED_FOR_BAR);
            var s1 := ApplyStreakUpgrade(s0, u[0], smithLevel);
            var s2 := ApplyStreakUpgrade(s1, u[1], smithLevel);
            var s3 := ApplyStreakUpgrade(s2, u[2], smithLevel);
            var s4 := ApplyStreakUpgrade(s3, u[3], smithLevel);
            var s5 := ApplyStreakUpgrade(s4, u[4], smithLevel);
            var s6 := ApplyStreakUpgrade(s5, u[5], smithLevel);
            ApplyStreakUpgrade(s6, u[6], smithLevel)
  {
    var u := STREAK_UPGRADES;
    assert u[..0] == [];
    StreakFoldStep(u, 0, smithLevel);
    StreakFoldStep(u, 1, smithLevel);
    StreakFoldStep(u, 2, smithLevel);
    StreakFoldStep(u, 3, smithLevel);
    StreakFoldStep(u, 4, smithLevel);
    StreakFoldStep(u, 5, smithLevel);
    StreakFoldStep(u, 6, smithLevel);
    assert u[..7] == u;
  }

  /** Below level 20 no upgrade applies: damage 2, speed 40, 800 clicks. */
  lemma StreakStatsBase(smithLevel: int)
    requires smithLevel < 20
    ensures StreakStatsOf(smithLevel) == StreakStats(2.0, 40.0, 800.0)
  {
    StreakFoldTable(smithLevel);
  }

  /** From level 100 every upgrade applies: damage 8, speed 25, 400 clicks. */
  lemma StreakStatsFull(smithLevel: int)
    requires smithLevel >= 100
    ensures StreakStatsOf(smithLevel) == StreakStats(8.0, 25.0, 400.0)
  {
    StreakFoldTable(smithLevel);
  }

  function IsStreakUnlocked(owned: seq<nat>, roster: seq<WorkerAutoData>): (r: bool)
    ensures r <==> GetSmithLevel(owned, roster) >= STREAK_LEVEL_REQUIRED
    ensures r <==> SlotUnlocked(owned, roster, SMITH_WORKER_INDEX, STREAK_LEVEL_REQUIRED)
  {
    GetSmithLevel(owned, roster) >= STREAK_LEVEL_REQUIRED
  }

  /** The damage multiplier from the streak: the stats' one while unlocked and active, else 1. */
  function GetStreakMultiplier(owned: seq<nat>, roster: seq<WorkerAutoData>, phase: StreakPhase): (r: real)
    ensures r >= 1.0
    ensures !IsStreakUnlocked(owned, roster) || phase != Active ==> r == 1.0
    ensures IsStreakUnlocked(owned, roster) && phase == Active
            ==> r == StreakStatsOf(GetSmithLevel(owned, roster)).damageMultiplier && r >= DAMAGE_MULTIPLIER
  {
    if !IsStreakUnlocked(owned, roster) then 1.0
    else if phase != Active then 1.0
    else StreakStatsOf(GetSmithLevel(owned, roster)).damageMultiplier
  }

  /**
   * One tick: a filling bar is left alone; an active bar drains by the speed
   * divided by the tick rate, floored at 0, and goes back to filling once empty.
   */
  function TickStreak(barCurrent: real, phase: StreakPhase, ticksPerSecond: real, smithLevel: int): (r: StreakStep)
    requires ticksPerSecond > 0.0
    ensures phase != Active ==> r == StreakStep(barCurrent, phase)
    ensures phase == Active ==>
              r.barCurrent == Max(0.0, barCurrent - StreakStatsOf(smithLevel).speedOfDecreaseOfBar / ticksPerSecond)
              && (r.phase == Filling <==> r.barCurrent <= 0.0)
    ensures r.barCurrent <= barCurrent || r.barCurrent == 0.0
    ensures r.phase == Active ==> phase == Active
  {
    if phase != Active then StreakStep(barCurrent, phase)
    else
      var stats := StreakStatsOf(smithLevel);
      var decreasePerTick := stats.speedOfDecreaseOfBar / ticksPerSecond;
      var newCurrent := Max(0.0, barCurrent - decreasePerTick);
      StreakStep(newCurrent, if newCurrent <= 0.0 then Filling else Active)
  }

  /** One click: the bar gains 1 up to its maximum and turns active once full. */
  function ProcessStreakOnClick(barCurrent: real, phase: StreakPhase, smithLevel: int): (r: StreakStep)
    ensures var max := StreakStatsOf(smithLevel).numberOfClicksRequiredForBar;
            && r.barCurrent == Min(max, barCurrent + 1.0)
            && r.barCurrent <= max
            && (r.barCurrent >= max ==> r.phase == Active)
            && (r.barCurrent < max ==> r.phase == phase)
    ensures phase == Active ==> r.phase == Active
  {
    var max := StreakStatsOf(smithLevel).numberOfClicksRequiredForBar;
    var newCurrent := Min(max, barCurrent + 1.0);
    StreakStep(newCurrent, if newCurrent >= max then Active else phase)
  }

  /** A consistent bar: never negative, and never empty while active. */
  predicate StreakInvariant(barCurrent: real, phase: StreakPhase)
  {
    barCurrent >= 0.0 && (phase == Active ==> barCurrent > 0.0)
  }

  lemma TickKeepsStreakInvariant(barCurrent: real, phase: StreakPhase, ticksPerSecond: real, smithLevel: int)
    requires ticksPerSecond > 0.0 && StreakInvariant(barCurrent, phase)
    ensures var r := TickStreak(barCurrent, phase, ticksPerSecond, smithLevel);
            StreakInvariant(r.barCurrent, r.phase)
  {
  }

  lemma ClickKeepsStreakInvariant(barCurrent: real, phase: StreakPhase, smithLevel: int)
    requires StreakInvariant(barCurrent, phase)
    ensures var r := ProcessStreakOnClick(barCurrent, phase, smithLevel);
            StreakInvariant(r.barCurrent, r.phase)
  {
  }

  /**
   * From an empty bar at a fixed level, clicks below the maximum do not fill
   * it: after `n` such clicks the bar holds `n` and is still filling.
   */
  lemma {:induction false} ClicksFillBar(n: nat, smithLevel: int)
    requires (n as real) < StreakStatsOf(smithLevel).numberOfClicksRequiredForBar
    ensures Clicks(n, smithLevel) == StreakStep(n as real, Filling)
  {
    if n > 0 {
      ClicksFillBar(n - 1, smithLevel);
    }
  }

  /**
   * The closing half: once the clicks reach the maximum the bar is full and
   * active, and further clicks keep it so.
   */
  lemma {:induction false} ClicksPastMaxKeepBarFull(n: nat, smithLevel: int)
    requires 0.0 < StreakStatsOf(smithLevel).numberOfClicksRequiredForBar <= n as real
    ensures Clicks(n, smithLevel) == StreakStep(StreakStatsOf(smithLevel).numberOfClicksRequiredForBar, Active)
  {
    if ((n - 1) as real) < StreakStatsOf(smithLevel).numberOfClicksRequiredForBar {
      ClicksFillBar(n - 1, smithLevel);
    } else {
      ClicksPastMaxKeepBarFull(n - 1, smithLevel);
    }
  }

  /** The bar after `n` clicks from an empty, filling bar. */
  function Clicks(n: nat, smithLevel: int): StreakStep
  {
    if n == 0 then StreakStep(0.0, Filling)
    else
      var prev := Clicks(n - 1, smithLevel);
      ProcessStreakOnClick(prev.barCurrent, prev.phase, smithLevel)
  }

  /** The streak data shown to the player; all zero and inactive while locked. */
  function GetStreakView(owned: seq<nat>, roster: seq<WorkerAutoData>, barCurrent: real, phase: StreakPhase): (v: StreakView)
    ensures v.streakUnlocked == IsStreakUnlocked(owned, roster)
    ensures !v.streakUnlocked ==> v == StreakView(false, 0.0, 0.0, false, None)
    ensures v.streakUnlocked ==>
              var stats := StreakStatsOf(GetSmithLevel(owned, roster));
              v == StreakView(true, barCurrent, stats.numberOfClicksRequiredForBar, phase == Active, Some(stats.damageMultiplier))
    ensures v.streakDamageMultiplier.Some? ==> v.streakDamageMultiplier.value == GetStreakMultiplier(owned, roster, Active)
  {
    var unlocked := IsStreakUnlocked(owned, roster);
    var stats := StreakStatsOf(GetSmithLevel(owned, roster));
    StreakView(
      unlocked,
      if unlocked then barCurrent else 0.0,
      if unlocked then stats.numberOfClicksRequiredForBar else 0.0,
      unlocked && phase == Active,
      if unlocked then Some(stats.damageMultiplier) else None)
  }
}
