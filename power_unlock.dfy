/**
 * The magician's unlocks (src/app/models/unlocks/power-unlock.ts), roster slot 5:
 * access to powers from level 1, the level each spell needs, mana bonuses
 * folded from an upgrade table, and the list of spell tiers still ahead.
 */
module PowerUnlock {
  import opened Wrappers
  import opened WorkerModel
  import opened WorkerUnlocks
  import opened PowerModel

  const POWER_WORKER_INDEX: nat := 5
  const POWER_LEVEL_REQUIRED: int := 1

  /** The magician level that unlocks each spell, in declaration order. */
  const POWER_LEVELS_BY_POWER_ID: seq<(string, int)> := [("power", 1), ("weakness", 9)]

  /** The level of the first entry with key `powerId`, if any. */
  function LookupLevel(entries: seq<(string, int)>, powerId: string): (r: Option<int>)
    ensures r.None? <==> forall k :: 0 <= k < |entries| ==> entries[k].0 != powerId
    ensures r.Some? ==> exists k :: 0 <= k < |entries| && entries[k] == (powerId, r.value)
  {
    if |entries| == 0 then None
    else if entries[0].0 == powerId then Some(entries[0].1)
    else
      var r := LookupLevel(entries[1..], powerId);
      assert r.Some? ==> exists k :: 0 <= k < |entries[1..]| && entries[1..][k] == (powerId, r.value);
      r
  }

  /** 1 for the damage spell, 9 for weakness, nothing for any other id. */
  function GetLevelRequiredForPower(powerId: string): (r: Option<int>)
    ensures powerId == "power" ==> r == Some(1)
    ensures powerId == "weakness" ==> r == Some(9)
    ensures powerId != "power" && powerId != "weakness" ==> r == None
  {
    LookupLevel(POWER_LEVELS_BY_POWER_ID, powerId)
  }

  /** A mana upgrade raises the mana cap, the regeneration per tick, or both. */
  datatype PowerUnlockDefinition = PowerUnlockDefinition(unlock: WorkerUnlock, manaMax: Option<real>, manaRegen: Option<real>)

  datatype ManaStats = ManaStats(manaMax: real, manaRegen: real)

  const SHADOCK := "assets/imgUpgrades/shadocks/shadock1.png"

  const PowerUnlockDefinitionBase: PowerUnlockDefinition :=
    PowerUnlockDefinition(
      WorkerUnlock("power", "마술", "Vous donne accès à la zone des pouvoirs/mana.", SHADOCK, Some(POWER_LEVEL_REQUIRED), None),
      Some(0.0), Some(0.0))

  function ManaUpgrade(id: string, name: string, description: string, level: int,
                       manaMax: Option<real>, manaRegen: Option<real>): PowerUnlockDefinition
  {
    PowerUnlockDefinition(WorkerUnlock(id, name, description, SHADOCK, Some(level), None), manaMax, manaRegen)
  }

  /** The mana upgrades, in the order the stat loop visits them. */
  const POWER_MANA_UPGRADES: seq<PowerUnlockDefinition> := [
    ManaUpgrade("power-mana-max-1", "Réserves de mana", "+50 mana max.", 5, Some(50.0), None),
    ManaUpgrade("power-mana-regen-1", "Régénération", "+0.02 mana/s de régénération.", 15, None, Some(0.02)),
    ManaUpgrade("power-mana-max-2", "Réserves de mana II", "+100 mana max.", 30, Some(100.0), None),
    ManaUpgrade("power-mana-regen-2", "Régénération II", "+0.05 mana/s de régénération.", 50, None, Some(0.05)),
    ManaUpgrade("power-mana-max-3", "Réserves de mana III", "+200 mana max.", 100, Some(200.0), None),
    ManaUpgrade("power-mana-regen-3", "Régénération III", "+0.1 mana/s de régénération.", 150, None, Some(0.1))
  ]

  /** One pass of the mana loop: an upgrade counts once the magician has reached its level. */
  function ApplyManaUpgrade(acc: ManaStats, u: PowerUnlockDefinition, level: int): ManaStats
  {
    if level < u.unlock.levelRequired.GetOr(0) then acc
    else
      ManaStats(
        match u.manaMax case Some(d) => acc.manaMax + d case None => acc.manaMax,
        match u.manaRegen case Some(d) => acc.manaRegen + d case None => acc.manaRegen)
  }

  /** Every bonus in the table is non-negative. */
  predicate NonNegativeBonuses(upgrades: seq<PowerUnlockDefinition>)
  {
    forall k :: 0 <= k < |upgrades| ==>
      upgrades[k].manaMax.GetOr(0.0) >= 0.0 && upgrades[k].manaRegen.GetOr(0.0) >= 0.0
  }

  /**
   * The bonuses after visiting `upgrades` in order, starting from the base
   * definition's (zero) bonuses; never negative for a table of non-negative bonuses.
   */
  function ManaFold(upgrades: seq<PowerUnlockDefinition>, level: int): (s: ManaStats)
    ensures NonNegativeBonuses(upgrades) ==> s.manaMax >= 0.0 && s.manaRegen >= 0.0
    decreases |upgrades|
  {
    if |upgrades| == 0 then
      ManaStats(PowerUnlockDefinitionBase.manaMax.GetOr(0.0), PowerUnlockDefinitionBase.manaRegen.GetOr(0.0))
    else
      var rest := upgrades[..|upgrades| - 1];
      assert NonNegativeBonuses(upgrades) ==> NonNegativeBonuses(rest);
      assert NonNegativeBonuses(upgrades) ==>
               upgrades[|upgrades| - 1].manaMax.GetOr(0.0) >= 0.0 && upgrades[|upgrades| - 1].manaRegen.GetOr(0.0) >= 0.0;
      ApplyManaUpgrade(ManaFold(rest, level), upgrades[|upgrades| - 1], level)
  }

  /** With non-negative bonuses, a higher level never gives less mana cap or regeneration. */
  lemma {:induction false} ManaFoldMonotone(upgrades: seq<PowerUnlockDefinition>, lo: int, hi: int)
    requires lo <= hi && NonNegativeBonuses(upgrades)
    ensures ManaFold(upgrades, lo).manaMax <= ManaFold(upgrades, hi).manaMax
    ensures ManaFold(upgrades, lo).manaRegen <= ManaFold(upgrades, hi).manaRegen
    decreases |upgrades|
  {
    if |upgrades| > 0 {
      var rest := upgrades[..|upgrades| - 1];
      assert NonNegativeBonuses(rest);
      ManaFoldMonotone(rest, lo, hi);
      var u := upgrades[|upgrades| - 1];
      assert u.manaMax.GetOr(0.0) >= 0.0 && u.manaRegen.GetOr(0.0) >= 0.0;
    }
  }

  /** The magician's mana bonuses at `level`. */
  function ManaStatsOf(level: int): (s: ManaStats)
    ensures s.manaMax >= 0.0 && s.manaRegen >= 0.0
  {
    ManaFold(POWER_MANA_UPGRADES, level)
  }

  /** The mana loop: each upgrade the magician has reached adds its bonuses. */
  method GetManaStatsFromPowerWorker(level: int) returns (stats: ManaStats)
    ensures stats == ManaStatsOf(level)
  {
    var manaMax := PowerUnlockDefinitionBase.manaMax.GetOr(0.0);
    var manaRegen := PowerUnlockDefinitionBase.manaRegen.GetOr(0.0);
    var upgrades := POWER_MANA_UPGRADES;
    for k := 0 to |upgrades|
      invariant ManaStats(manaMax, manaRegen) == ManaFold(upgrades[..k], level)
    {
      assert upgrades[..k + 1][..k] == upgrades[..k];
      var upgrade := upgrades[k];
      if level < upgrade.unlock.levelRequired.GetOr(0) {
        continue;
      }
      if upgrade.manaMax.Some? {
        manaMax := manaMax + upgrade.manaMax.value;
      }
      if upgrade.manaRegen.Some? {
        manaRegen := manaRegen + upgrade.manaRegen.value;
      }
    }
    assert upgrades[..|upgrades|] == upgrades;
    stats := ManaStats(manaMax, manaRegen);
  }

  lemma ManaFoldStep(upgrades: seq<PowerUnlockDefinition>, k: nat, level: int)
    requires k < |upgrades|
    ensures ManaFold(upgrades[..k + 1], level) == ApplyManaUpgrade(ManaFold(upgrades[..k], level), upgrades[k], level)
  {
    assert upgrades[..k + 1][..k] == upgrades[..k];
  }

  /** The bonuses over the whole table, pass by pass. */
  lemma ManaFoldTable(level: int)
    ensures ManaStatsOf(level) ==
            var u := POWER_MANA_UPGRADES;
            var s1 := ApplyManaUpgrade(ManaStats(0.0, 0.0), u[0], level);
            var s2 := ApplyManaUpgrade(s1, u[1], level);
            var s3 := ApplyManaUpgrade(s2, u[2], level);
            var s4 := ApplyManaUpgrade(s3, u[3], level);
            var s5 := ApplyManaUpgrade(s4, u[4], level);
            ApplyManaUpgrade(s5, u[5], level)
  {
    var u := POWER_MANA_UPGRADES;
    assert u[..0] == [];
    ManaFoldStep(u, 0, level);
    ManaFoldStep(u, 1, level);
    ManaFoldStep(u, 2, level);
    ManaFoldStep(u, 3, level);
    ManaFoldStep(u, 4, level);
    ManaFoldStep(u, 5, level);
    assert u[..6] == u;
  }

  /** Below level 5 the magician grants no mana bonus. */
  lemma ManaStatsBelowFirstTier(level: int)
    requires level < 5
    ensures ManaStatsOf(level) == ManaStats(0.0, 0.0)
  {
    ManaFoldTable(level);
  }

  /** From level 150 every bonus applies: +350 mana cap and +0.17 regeneration. */
  lemma ManaStatsFull(level: int)
    requires level >= 150
    ensures ManaStatsOf(level) == ManaStats(350.0, 0.17)
  {
    ManaFoldTable(level);
  }

  lemma ManaStatsMonotone(lo: int, hi: int)
    requires lo <= hi
    ensures ManaStatsOf(lo).manaMax <= ManaStatsOf(hi).manaMax
    ensures ManaStatsOf(lo).manaRegen <= ManaStatsOf(hi).manaRegen
  {
    ManaFoldMonotone(POWER_MANA_UPGRADES, lo, hi);
  }

  /** The magician's slot must exist and be owned, at level 1 or more. */
  function IsPowerUnlocked(owned: seq<nat>, roster: seq<WorkerAutoData>): (r: bool)
    ensures POWER_WORKER_INDEX >= |roster| ==> !r
    ensures POWER_WORKER_INDEX < |roster| && POWER_WORKER_INDEX !in owned ==> !r
    ensures POWER_WORKER_INDEX < |roster| && POWER_WORKER_INDEX in owned
            ==> (r <==> roster[POWER_WORKER_INDEX].level >= POWER_LEVEL_REQUIRED)
  {
    SlotUnlocked(owned, roster, POWER_WORKER_INDEX, POWER_LEVEL_REQUIRED)
  }

  /** The first power with the given id. */
  function FindPower(powers: seq<Power>, powerId: string): (r: Option<Power>)
    ensures r.Some? ==> r.value in powers && r.value.id == powerId
    ensures r.None? ==> forall k :: 0 <= k < |powers| ==> powers[k].id != powerId
  {
    if |powers| == 0 then None
    else if powers[0].id == powerId then Some(powers[0])
    else FindPower(powers[1..], powerId)
  }

  /** The tier announcing a spell, named and described after the spell when it is listed. */
  function TierFor(entry: (string, int)): (t: WorkerUnlock)
    ensures t.id == "power-unlock-" + entry.0
    ensures t.levelRequired == Some(entry.1)
  {
    var found := FindPower(LIST_POWER, entry.0);
    var name := if found.Some? then found.value.name else entry.0;
    WorkerUnlock(
      "power-unlock-" + entry.0,
      name,
      if found.Some? then found.value.description else "Débloque le sort " + name + ".",
      if found.Some? then found.value.imageUrl.GetOr("") else "",
      Some(entry.1),
      None)
  }

  /** The entries whose level is above `level`, in order. */
  function FilterAbove(entries: seq<(string, int)>, level: int): (r: seq<(string, int)>)
    ensures forall k :: 0 <= k < |r| ==> r[k].1 > level
    ensures forall e :: e in r <==> e in entries && e.1 > level
    decreases |entries|
  {
    if |entries| == 0 then []
    else
      var rest := FilterAbove(entries[..|entries| - 1], level);
      var last := entries[|entries| - 1];
      assert forall e :: e in entries <==> e in entries[..|entries| - 1] || e == last;
      if last.1 > level then rest + [last] else rest
  }

  function TierKey(t: WorkerUnlock): int
  {
    t.levelRequired.GetOr(0)
  }

  predicate TiersSorted(s: seq<WorkerUnlock>)
  {
    forall i, j :: 0 <= i < j < |s| ==> TierKey(s[i]) <= TierKey(s[j])
  }

  /** Inserts `t` after every tier with a key no larger than its own, keeping the order stable. */
  function InsertTier(t: WorkerUnlock, sorted: seq<WorkerUnlock>): (r: seq<WorkerUnlock>)
    requires TiersSorted(sorted)
    ensures TiersSorted(r)
    ensures multiset(r) == multiset(sorted) + multiset{t}
    ensures |r| == |sorted| + 1
    ensures |sorted| > 0 ==> r[0] == t || r[0] == sorted[0]
    decreases |sorted|
  {
    if |sorted| == 0 then [t]
    else if TierKey(t) < TierKey(sorted[0]) then
      ConsSorted(t, sorted);
      [t] + sorted
    else
      var rest := InsertTier(t, sorted[1..]);
      assert sorted == [sorted[0]] + sorted[1..];
      assert multiset([sorted[0]] + rest) == multiset{sorted[0]} + multiset(rest);
      ConsSorted(sorted[0], rest);
      [sorted[0]] + rest
  }

  /** A tier no later than the head of a sorted list can go in front of it. */
  lemma ConsSorted(x: WorkerUnlock, s: seq<WorkerUnlock>)
    requires TiersSorted(s) && (|s| > 0 ==> TierKey(x) <= TierKey(s[0]))
    ensures TiersSorted([x] + s)
  {
    var r := [x] + s;
    forall i, j | 0 <= i < j < |r|
      ensures TierKey(r[i]) <= TierKey(r[j])
    {
      if i == 0 {
        assert r[j] == s[j - 1];
      } else {
        assert r[i] == s[i - 1] && r[j] == s[j - 1];
      }
    }
  }

  /** A stable insertion sort by required level. */
  function SortTiers(s: seq<WorkerUnlock>): (r: seq<WorkerUnlock>)
    ensures TiersSorted(r)
    ensures multiset(r) == multiset(s)
    decreases |s|
  {
    if |s| == 0 then []
    else
      assert s == s[..|s| - 1] + [s[|s| - 1]];
      InsertTier(s[|s| - 1], SortTiers(s[..|s| - 1]))
  }

  /** The tier of each entry, in order. */
  function MapTiers(entries: seq<(string, int)>): (r: seq<WorkerUnlock>)
    ensures |r| == |entries|
    ensures forall k :: 0 <= k < |r| ==> r[k] == TierFor(entries[k])
  {
    seq(|entries|, k requires 0 <= k < |entries| => TierFor(entries[k]))
  }

  /** Every tier needs a level above `level` and carries the tier id prefix. */
  predicate TiersAbove(s: seq<WorkerUnlock>, level: int)
  {
    forall k :: 0 <= k < |s| ==> s[k].levelRequired.Some? && s[k].levelRequired.value > level && "power-unlock-" <= s[k].id
  }

  /** Reordering tiers keeps them all above the level. */
  lemma TiersAbovePermutation(a: seq<WorkerUnlock>, b: seq<WorkerUnlock>, level: int)
    requires multiset(a) == multiset(b) && TiersAbove(a, level)
    ensures TiersAbove(b, level)
  {
    forall k | 0 <= k < |b|
      ensures b[k].levelRequired.Some? && b[k].levelRequired.value > level && "power-unlock-" <= b[k].id
    {
      assert b[k] in multiset(a);
      var j :| 0 <= j < |a| && a[j] == b[k];
    }
  }

  /**
   * The spell tiers the magician has not reached yet, sorted by the level
   * they need; each one is named `power-unlock-<spell id>`. The result holds
   * exactly the tiers of the entries above the level, each as often as its
   * entry, and nothing else.
   */
  function GetUpcomingPowerUnlockTiers(level: int): (r: seq<WorkerUnlock>)
    ensures TiersSorted(r)
    ensures TiersAbove(r, level)
    ensures multiset(r) == multiset(MapTiers(FilterAbove(POWER_LEVELS_BY_POWER_ID, level)))
    ensures forall e :: e in POWER_LEVELS_BY_POWER_ID && e.1 > level ==> TierFor(e) in r
  {
    var kept := FilterAbove(POWER_LEVELS_BY_POWER_ID, level);
    var tiers := MapTiers(kept);
    var r := SortTiers(tiers);
    assert TiersAbove(tiers, level) by {
      forall k | 0 <= k < |tiers|
        ensures tiers[k].levelRequired.Some? && tiers[k].levelRequired.value > level && "power-unlock-" <= tiers[k].id
      {
        assert tiers[k] == TierFor(kept[k]);
      }
    }
    TiersAbovePermutation(tiers, r, level);
    forall e | e in POWER_LEVELS_BY_POWER_ID && e.1 > level
      ensures TierFor(e) in r
    {
      var j :| 0 <= j < |kept| && kept[j] == e;
      assert tiers[j] == TierFor(e);
      assert TierFor(e) in multiset(r);
    }
    r
  }

  /** A reordering of the tiers of `kept` holds only tiers of entries of `kept`. */
  lemma PermutedTiersFromEntries(kept: seq<(string, int)>, r: seq<WorkerUnlock>)
    requires multiset(r) == multiset(MapTiers(kept))
    ensures forall k :: 0 <= k < |r| ==> r[k] in MapTiers(kept)
  {
    forall k | 0 <= k < |r|
      ensures r[k] in MapTiers(kept)
    {
      assert r[k] in multiset(r);
    }
  }

  /**
   * Every announced tier is the tier of a spell the magician has not reached
   * yet, so its id is exactly `power-unlock-` followed by that spell's id.
   */
  lemma UpcomingTiersOnlyAbove(level: int)
    ensures var r := GetUpcomingPowerUnlockTiers(level);
            forall k :: 0 <= k < |r| ==>
              exists e :: e in POWER_LEVELS_BY_POWER_ID && e.1 > level && r[k] == TierFor(e)
  {
    var kept := FilterAbove(POWER_LEVELS_BY_POWER_ID, level);
    var r := GetUpcomingPowerUnlockTiers(level);
    PermutedTiersFromEntries(kept, r);
    forall k | 0 <= k < |r|
      ensures exists e :: e in POWER_LEVELS_BY_POWER_ID && e.1 > level && r[k] == TierFor(e)
    {
      var tiers := MapTiers(kept);
      var j :| 0 <= j < |tiers| && tiers[j] == r[k];
      assert kept[j] in kept;
    }
  }

  /** A magician below level 1 sees both spells ahead, the damage spell first. */
  lemma UpcomingTiersAtStart(level: int)
    requires level < 1
    ensures GetUpcomingPowerUnlockTiers(level) == MapTiers(POWER_LEVELS_BY_POWER_ID)
  {
    BothSpellsAboveAtStart(level);
    TiersAtStartSorted();
  }

  lemma BothSpellsAboveAtStart(level: int)
    requires level < 1
    ensures FilterAbove(POWER_LEVELS_BY_POWER_ID, level) == POWER_LEVELS_BY_POWER_ID
  {
    var e := POWER_LEVELS_BY_POWER_ID;
    assert e[..1] == [e[0]] && e[..1][..0] == [];
    assert FilterAbove(e[..1], level) == [e[0]];
  }

  lemma TiersAtStartSorted()
    ensures SortTiers(MapTiers(POWER_LEVELS_BY_POWER_ID)) == MapTiers(POWER_LEVELS_BY_POWER_ID)
  {
    var tiers := MapTiers(POWER_LEVELS_BY_POWER_ID);
    assert tiers == [tiers[0], tiers[1]];
    assert TierKey(tiers[0]) == 1 && TierKey(tiers[1]) == 9;
    SortInOrderPair(tiers[0], tiers[1]);
  }

  /** Two tiers already in order sort to themselves. */
  lemma SortInOrderPair(a: WorkerUnlock, b: WorkerUnlock)
    requires TierKey(a) <= TierKey(b)
    ensures SortTiers([a, b]) == [a, b]
  {
    assert [a, b][..1] == [a] && [a][..0] == [];
    assert SortTiers([a]) == [a];
  }

  /** From level 9 there is nothing left to announce. */
  lemma UpcomingTiersExhausted(level: int)
    requires level >= 9
    ensures GetUpcomingPowerUnlockTiers(level) == []
  {
    var e := POWER_LEVELS_BY_POWER_ID;
    assert e[..1] == [e[0]] && e[..1][..0] == [];
    assert FilterAbove(e[..1], level) == [];
    assert FilterAbove(e, level) == [];
  }
}
