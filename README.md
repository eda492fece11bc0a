# Clicker economy engine, modelled in Dafny

This project models the engine of an incremental (clicker) browser game. The
player earns a currency called *clicks*. They buy levels of nine workers. Each
worker raises per-second production and the value of a click. A worker
reaching a level threshold unlocks a feature: the critical hit (miner, slot 2),
the streak bar (smith, slot 3), the sun (astrologer, slot 4) and spells
(magician, slot 5). A shop sells one-shot ×2 production boosts, and spells
cost mana and set timed buffs.

Every service whose fields the game updates in place is a Dafny `class` with
those fields, a `Valid()` invariant and `modifies` clauses:

- the resource ledger (`Resources.ResourcesService`);
- the worker ladder (`WorkerState.WorkerStateService`);
- the older self-contained game service (`GameState.GameStateService`);
- the spell engine (`PowerState.PowerStateService`);
- the streak bar service (`StreakState.StreakStateService`);
- the shop (`ShopState.ShopStateService`).

The rules these services delegate to are datatypes and functions. They cover
the worker record's formulas, the unlock rules, the streak stat table and bar
steps, the mana upgrade table, the shop visibility rule and its condition
combinators, and the effects of the two spells.

Modelling choices:

- Numbers are exact `real`s. `Math.floor`, `Math.ceil`, `Math.pow` with a
  natural exponent and `Number(x.toFixed(2))` are written out in
  `numbers.dfy`.
- In the source, the owned-worker list holds the very records of the roster.
  Here it is a sequence of roster slots, so an upgrade seen through one list
  is seen through the other.
- `getDoesAppearInGame` and `getDoesAppearInShop` set a sticky flag on the
  record as a side effect. They are functions returning the answer and the
  updated record, and the services write the record back.
- `Date.now()` is a `now: int` parameter in milliseconds, read once per
  operation.
- A spell effect is the list of calls it makes on the cast context. The
  engine applies them in order to its buff fields.

## Model

| member | source | states |
|---|---|---|
| Numbers.Floor | src/app/models/worker-auto-model.ts:36 | `Math.floor` as a number: an integer within 1 below its argument |
| Numbers.Ceil | src/app/models/game/power-state.service.ts:55 | `Math.ceil` as a number: an integer within 1 above its argument |
| Numbers.Round2 | src/app/models/worker-auto-model.ts:51 | `Number(x.toFixed(2))` is a whole number of cents, within half a cent of `x`, keeps the sign of a non-negative `x` and maps 0 to 0 |
| Numbers.Round2Monotone | src/app/models/worker-auto-model.ts:51 | rounding to cents never reverses the order of two numbers |
| Numbers.PowMonotone | src/app/models/worker-auto-model.ts:36 | with a base of at least 1, a larger exponent never gives a smaller power |
| Resources.SpendManaAsWrittenOverfills | src/app/models/game/resources.service.ts:62-66 | as written, `spendMana` accepts every amount below `mana - maxMana` (any negative amount when mana is full) whatever the tolerance, and leaves mana above its cap exactly for those amounts |
| Resources.SpentMana | src/app/models/game/resources.service.ts:62-66 | the corrected payment keeps mana within [0, cap], agrees with the source for every non-negative amount, and subtracts exactly an amount the mana covers |
| Resources.ResourcesService.constructor | src/app/models/game/resources.service.ts:10-13 | the ledger starts with no clicks and no mana, a cap of 100 and 0.05 mana per tick |
| Resources.ResourcesService.AddClicks | src/app/models/game/resources.service.ts:19-21 | the currency moves by the amount but never below 0; mana is untouched |
| Resources.ResourcesService.SpendClicks | src/app/models/game/resources.service.ts:28-32 | the payment goes through exactly when the currency is short by no more than the tolerance, never leaves it negative, and is always accepted when the exact test holds |
| Resources.ResourcesService.SetMaxMana | src/app/models/game/resources.service.ts:44-47 | the cap is floored at 0 and the mana is cut down to it |
| Resources.ResourcesService.SetManaRegenPerTick | src/app/models/game/resources.service.ts:50-52 | the regeneration is floored at 0; nothing else changes |
| Resources.ResourcesService.AddMana | src/app/models/game/resources.service.ts:54-56 | mana moves by the amount, clamped into [0, cap]; a non-negative amount never lowers it |
| Resources.ResourcesService.CanSpend | src/app/models/game/resources.service.ts:23-25 | an amount is affordable exactly when the currency covers it, and then it is taken whole, with no flooring at 0 |
| Resources.ResourcesService.CanSpendMana | src/app/models/game/resources.service.ts:58-60 | an amount is affordable exactly when the mana covers it, and then a non-negative payment of it is taken whole |
| Resources.ResourcesService.SpendMana | src/app/models/game/resources.service.ts:62-66 | a cast is paid exactly when the mana is short by no more than the tolerance, and always when the exact test holds; the mana left is the corrected, capped payment `SpentMana` of the Findings row, which is what keeps it within [0, cap] |
| Resources.ResourcesService.TickManaRegen | src/app/models/game/resources.service.ts:69-71 | one tick adds the regeneration, up to the cap |
| Resources.ResourcesService.AddManaOnClick | src/app/models/game/resources.service.ts:74-76 | a click's mana is added as `AddMana` does, clamped into [0, cap] |
| WorkerModel.CreateWorker | src/app/models/worker-auto-model.ts:18-33 | a new worker is at level 0, hidden and unbought; its base price is the given one rounded down, which is also its first price |
| WorkerModel.GetPrice | src/app/models/worker-auto-model.ts:35-37 | the price is the whole number just below base × curve^level |
| WorkerModel.PriceAtLevelZero | src/app/models/worker-auto-model.ts:35-37 | at level 0 a worker with a whole base price costs exactly its base price |
| WorkerModel.PriceNonDecreasing | src/app/models/worker-auto-model.ts:35-37 | with a curve of at least 1, buying levels never makes a worker cheaper |
| WorkerModel.PriceIgnoresVisibility | src/app/models/worker-auto-model.ts:35-37 | the price does not depend on the visibility flag |
| WorkerModel.PriceExample | src/app/models/worker-auto-model.ts:35-37 | the sword (base 10, curve 1.25) costs 10, then 12 after one purchase |
| WorkerModel.GetDoesAppearInGame | src/app/models/worker-auto-model.ts:39-44 | a worker shows once flagged, once bought, or from half its base price rounded down; the flag is only ever set, and afterwards equals the answer |
| WorkerModel.AppearanceIdempotent | src/app/models/worker-auto-model.ts:39-44 | asking again, at any currency, gives the same answer and leaves the record as the first call left it |
| WorkerModel.AppearanceMonotoneInClicks | src/app/models/worker-auto-model.ts:39-44 | more currency never hides a worker |
| WorkerModel.GetCanBuyWorker | src/app/models/worker-auto-model.ts:46-48 | a worker is affordable exactly when the currency reaches its price |
| WorkerModel.CanBuyAtLowerLevel | src/app/models/worker-auto-model.ts:46-48 | a worker affordable at a higher level is affordable at every lower one |
| WorkerModel.CalculateClicksPerSecondForWorker | src/app/models/worker-auto-model.ts:50-52 | production is productivity × level × (1 + (level − 1)/10) to within half a cent; 0 at level 0; never negative for a non-negative productivity |
| WorkerModel.ProductionNonDecreasing | src/app/models/worker-auto-model.ts:50-52 | with non-negative productivity, one more level never lowers production |
| WorkerModel.ViewOf | src/app/models/game/worker-state.service.ts:96-100 | a worker's view carries its current price, its affordability, and the record with the visibility just decided |
| WorkerModel.MarkAppearance | src/app/models/game/game-state.service.ts:85-90 | the visibility pass over a roster updates each record as `GetDoesAppearInGame` would, and only that |
| WorkerUnlocks.OwnedSlotLevel | src/app/models/unlocks/critical-hit.ts:27-30 | a slot's level is known exactly when the slot exists and its worker is owned |
| WorkerUnlocks.SlotUnlockedLocal | src/app/models/unlocks/worker-unlock.model.ts:2-11 | an unlock depends only on its own slot's level and on whether that slot is owned |
| WorkerUnlocks.SlotUnlockedSticky | src/app/models/game/worker-state.service.ts:129-133 | buying a level of any worker never takes an unlock away |
| WorkerUnlocks.SlotUnlockedByPurchase | src/app/models/game/worker-state.service.ts:129-133 | buying the slot's worker up to the threshold unlocks it, whatever the state before |
| CriticalHit.IsCriticalHitUnlocked | src/app/models/unlocks/critical-hit.ts:23-31 | false without slot 2 or with the miner not owned; otherwise true exactly from miner level 1 |
| CriticalHit.CriticalHitOnceMinerOwned | src/app/models/unlocks/critical-hit.ts:23-31 | since owned workers have at least one level, owning the miner is enough |
| SunUnlock.IsSunUnlocked | src/app/models/unlocks/sun-unlock.ts:25-33 | false without slot 4 or with the astrologer not owned; otherwise true exactly from astrologer level 1 |
| SunUnlock.SunIgnoresOtherWorkers | src/app/models/unlocks/sun-unlock.ts:25-33 | changing any worker other than the astrologer never changes the answer |
| WorkerState.UpgradeAt | src/app/models/game/worker-state.service.ts:129-130 | an upgrade raises one slot by one level and marks it bought; every other slot is unchanged |
| WorkerState.AddOwned | src/app/models/game/worker-state.service.ts:131-133 | after a purchase the slot is owned, appended once at the end only if it was absent |
| WorkerState.UpgradeKeepsOwnedWellFormed | src/app/models/game/worker-state.service.ts:129-133 | after a purchase, owned slots are still distinct, in range, bought and at level 1 or more |
| WorkerState.MarkAppearanceKeepsOwnedWellFormed | src/app/models/game/worker-state.service.ts:95-115 | building the views keeps the owned list well formed |
| WorkerState.Share | src/app/models/game/worker-state.service.ts:67-72 | a slot's shop-scaled term is non-negative when the term and the multiplier are |
| WorkerState.SumOwned | src/app/models/game/worker-state.service.ts:81-86 | the reduce over the owned workers is non-negative when every share is |
| WorkerState.SumOwnedAppend | src/app/models/game/worker-state.service.ts:131-133 | a newly owned slot adds exactly its own share to the sum |
| WorkerState.SumOwnedFrame | src/app/models/game/worker-state.service.ts:81-86 | the sum depends only on the owned workers' terms |
| WorkerState.SumOwnedMonotone | src/app/models/game/worker-state.service.ts:81-86 | with non-negative multipliers, raising each owned term never lowers the sum |
| WorkerState.EffectiveProductionForWorker | src/app/models/game/worker-state.service.ts:67-72 | a slot's scaled production is 0 at level 0 and never negative for non-negative productivity and multiplier |
| WorkerState.EffectiveClickBonusForWorker | src/app/models/game/worker-state.service.ts:74-79 | a slot's scaled click bonus is never negative for non-negative inputs and equals the bonus under a multiplier of 1 |
| WorkerState.UpgradeNeverLowersProduction | src/app/models/game/worker-state.service.ts:117-137 | with non-negative productivities and multipliers, buying a level never lowers total production |
| WorkerState.ProductiveOwnedPrefix | src/app/models/game/worker-state.service.ts:131-133 | what holds for every owned worker after a purchase held for those owned before it |
| WorkerState.UpgradeRaisesOwnedProduction | src/app/models/game/worker-state.service.ts:129-130 | buying a level never lowers any owned worker's production |
| WorkerState.RepeatWithinCooldownIsDropped | src/app/models/game/worker-state.service.ts:119-125 | a second upgrade of the same slot less than 80 ms later is dropped; one 80 ms later is not |
| WorkerState.WorkerStateService.constructor | src/app/models/game/worker-state.service.ts:26-33 | the service starts with the given roster, nothing owned and no previous upgrade |
| WorkerState.WorkerStateService.Workers | src/app/models/game/worker-state.service.ts:39-41 | the owned workers are exactly the roster records of the owned slots, in purchase order |
| WorkerState.WorkerStateService.GetWorkerLevel | src/app/models/game/worker-state.service.ts:61-65 | a level is reported exactly for a slot in range whose worker is owned, and it is that worker's level |
| WorkerState.WorkerStateService.CalculateClicksPerSecond | src/app/models/game/worker-state.service.ts:81-86 | total production is never negative when owned productivities and multipliers are not |
| WorkerState.WorkerStateService.GetCurrentClickValue | src/app/models/game/worker-state.service.ts:88-93 | a click is worth 1 with nothing owned, and at least 1 when every scaled bonus is non-negative |
| WorkerState.WorkerStateService.ViewAt | src/app/models/game/worker-state.service.ts:96-102 | a slot's view pairs the worker view with its scaled production and click bonus |
| WorkerState.WorkerStateService.GetWorkersView | src/app/models/game/worker-state.service.ts:95-104 | one view per owned worker, in order, every one shown; only visibility flags of the roster change |
| WorkerState.WorkerStateService.GetWorkersAvailableView | src/app/models/game/worker-state.service.ts:106-115 | one view per roster slot; the roster afterwards is the visibility pass over it |
| WorkerState.WorkerStateService.UpgradeWorker | src/app/models/game/worker-state.service.ts:117-137 | the purchase goes through exactly when the slot exists, it is no repeat within 80 ms, and the ledger accepts the price; then the slot gains one level and is owned, and a new upgrade of it is refused for the next 80 ms; otherwise nothing changes |
| GameState.NoShopSumIsPlain | src/app/models/game/game-state.service.ts:75-80 | with no shop bonus a sum of shares is the plain sum of the terms: 0 over nothing, otherwise the prefix's sum plus the last term |
| GameState.MarkAppearanceIdempotent | src/app/models/game/game-state.service.ts:85-96 | a second visibility pass at the same currency changes nothing |
| GameState.MarkingKeepsOwnedPrices | src/app/models/game/game-state.service.ts:85-96 | the visibility pass keeps the owned list well formed and every owned worker's price |
| GameState.RosterView | src/app/models/game/game-state.service.ts:85-90 | one view per roster slot, in order |
| GameState.OwnedView | src/app/models/game/game-state.service.ts:91-96 | one view per owned worker, in the owned list's order |
| GameState.GameStateService.constructor | src/app/models/game/game-state.service.ts:27-58 | the service starts with no clicks, a click value of 1, the given roster and nothing owned |
| GameState.GameStateService.CalculateClicksPerSecond | src/app/models/game/game-state.service.ts:75-80 | production is 0 with nothing owned and never negative with non-negative productivities |
| GameState.GameStateService.ClickValueOf | src/app/models/game/game-state.service.ts:84 | a click is worth 1 with nothing owned, and at least 1 when every bonus is non-negative |
| GameState.GameStateService.GetState | src/app/models/game/game-state.service.ts:82-104 | the snapshot holds the currency, the new click value and the production measured before the call; the roster views see the records before the pass, the owned views after it, with unchanged prices |
| GameState.GameStateService.Click | src/app/models/game/game-state.service.ts:106-108 | a click credits exactly the stored click value |
| GameState.GameStateService.Tick | src/app/models/game/game-state.service.ts:62-65 | a tick credits a tenth of the per-second production |
| GameState.GameStateService.UpgradeWorker | src/app/models/game/game-state.service.ts:110-130 | the purchase goes through exactly when the slot exists, it is no repeat within 80 ms, and the currency is short by no more than 0.001; a refused call changes nothing; the currency never turns negative |
| PowerModel.GetPowerDoesAppearInGame | src/app/models/powers/power.model.ts:23-33 | with both levels known, a power shows exactly when the magician reaches its level; otherwise its own flag decides |
| PowerModel.PowerAppearanceIgnoresClicks | src/app/models/powers/power.model.ts:23-33 | the currency argument never changes the answer |
| PowerUnlock.LookupLevel | src/app/models/unlocks/power-unlock.ts:15-17 | nothing is found exactly when no entry has the key; a found level belongs to an entry with the key |
| PowerUnlock.GetLevelRequiredForPower | src/app/models/unlocks/power-unlock.ts:10-17 | the damage spell needs level 1, weakness level 9, and any other id has no level |
| PowerUnlock.ManaFold | src/app/models/unlocks/power-unlock.ts:93-102 | the folded mana bonuses are never negative for a table of non-negative bonuses |
| PowerUnlock.ManaFoldMonotone | src/app/models/unlocks/power-unlock.ts:93-102 | a higher magician level never gives less mana cap or regeneration |
| PowerUnlock.ManaStatsOf | src/app/models/unlocks/power-unlock.ts:93-102 | the magician's mana bonuses are never negative |
| PowerUnlock.GetManaStatsFromPowerWorker | src/app/models/unlocks/power-unlock.ts:93-102 | the loop's result is the ordered fold of the upgrade table at the given level |
| PowerUnlock.ManaFoldTable | src/app/models/unlocks/power-unlock.ts:36-85 | the bonuses are the six table entries applied in order |
| PowerUnlock.ManaStatsBelowFirstTier | src/app/models/unlocks/power-unlock.ts:36-102 | below level 5 the magician grants no mana bonus |
| PowerUnlock.ManaStatsFull | src/app/models/unlocks/power-unlock.ts:36-102 | from level 150 every bonus applies: +350 mana cap and +0.17 regeneration |
| PowerUnlock.ManaStatsMonotone | src/app/models/unlocks/power-unlock.ts:93-102 | the magician's mana bonuses never fall as the level rises |
| PowerUnlock.IsPowerUnlocked | src/app/models/unlocks/power-unlock.ts:106-114 | false without slot 5 or with the magician not owned; otherwise true exactly from magician level 1 |
| PowerUnlock.FindPower | src/app/models/unlocks/power-unlock.ts:121 | a found power is in the list with that id; nothing is found only when no power has it |
| PowerUnlock.TierFor | src/app/models/unlocks/power-unlock.ts:120-129 | a spell's tier is named `power-unlock-<id>` and needs the spell's level |
| PowerUnlock.FilterAbove | src/app/models/unlocks/power-unlock.ts:119 | exactly the entries whose level is above the magician's are kept |
| PowerUnlock.InsertTier | src/app/models/unlocks/power-unlock.ts:130 | inserting into a sorted list keeps it sorted and adds exactly that tier |
| PowerUnlock.SortTiers | src/app/models/unlocks/power-unlock.ts:130 | the sort returns a permutation of its input, ordered by required level |
| PowerUnlock.MapTiers | src/app/models/unlocks/power-unlock.ts:120-129 | one tier per entry, in order |
| PowerUnlock.TiersAbovePermutation | src/app/models/unlocks/power-unlock.ts:130 | reordering tiers keeps every one of them above the level |
| PowerUnlock.GetUpcomingPowerUnlockTiers | src/app/models/unlocks/power-unlock.ts:117-131 | the tiers are sorted by level, each above the magician's level, and are exactly the tiers of the spells not yet reached, each once, as a reordering of them |
| PowerUnlock.UpcomingTiersOnlyAbove | src/app/models/unlocks/power-unlock.ts:117-131 | every announced tier is the tier `power-unlock-<spell id>` of a spell above the magician's level |
| PowerUnlock.UpcomingTiersAtStart | src/app/models/unlocks/power-unlock.ts:117-131 | below level 1 both spells are ahead, the damage spell first |
| PowerUnlock.UpcomingTiersExhausted | src/app/models/unlocks/power-unlock.ts:117-131 | from level 9 nothing is left to announce |
| PowerEffectTypes.ApplyCommand | src/app/models/game/power-state.service.ts:98-114 | the damage buff and the combo multiplier replace their window; the speed decrease only extends the weakness window; neither buff touches the other's fields |
| PowerEffectTypes.DamageOnlyKeepsWeakness | src/app/models/powers/power-effect.types.ts:5-15 | an effect made only of damage calls leaves the weakness fields alone |
| PowerEffectTypes.WeaknessOnlyKeepsDamage | src/app/models/powers/power-effect.types.ts:5-15 | an effect without a damage call leaves the damage fields alone |
| PowerEffectTypes.DamageMultiplierAt | src/app/models/game/power-state.service.ts:76-81 | the damage multiplier is the buff's while its window is open and 1 afterwards |
| PowerEffectTypes.WeaknessComboAt | src/app/models/game/power-state.service.ts:134-142 | the combo multiplier is the buff's while the weakness window is open and 1 afterwards |
| PowerEffectTypes.WeaknessSpeedAt | src/app/models/game/power-state.service.ts:145-153 | the speed multiplier is the buff's while the weakness window is open and 1 afterwards |
| PowerEffectTypes.ExpireDamage | src/app/models/game/power-state.service.ts:76-81 | an expired damage buff is reset to no buff; a running one is kept |
| PowerEffectTypes.ExpireWeakness | src/app/models/game/power-state.service.ts:134-153 | an expired weakness buff has its end and both multipliers reset; a running one is kept |
| PowerEffectTypes.LazyExpiryInvisible | src/app/models/game/power-state.service.ts:76-153 | clearing an expired buff on reading never changes any multiplier read then or later |
| DamageDoubleEffect.DamageDoubleCast | src/app/models/powers/effects/damage-double.effect.ts:4-12 | the spell doubles damage for exactly the next 60000 ms, whatever ran before, and leaves the weakness buff alone |
| WeaknessPowerEffect.WeaknessCast | src/app/models/powers/effects/weakness-power-effect.ts:4-21 | the spell opens a weakness window of exactly 60000 ms with both multipliers at 0.5, and leaves the damage buff alone |
| PowerState.EveryListedPowerHasEffect | src/app/models/game/power-state.service.ts:11-14 | both shipped powers have a registered effect |
| PowerState.RemainingSeconds | src/app/models/game/power-state.service.ts:53-55 | the seconds left are a whole number, positive exactly while the cooldown runs, and the least that covers it |
| PowerState.RecastBlockedUntilCooldownEnds | src/app/models/game/power-state.service.ts:116-119 | after a cast records its cooldown, the power is on cooldown at every instant before it ends; other powers' cooldowns are unchanged |
| PowerState.PowerStateService.constructor | src/app/models/game/power-state.service.ts:18-29 | the engine starts with the shipped powers, no buff and no cooldown |
| PowerState.PowerStateService.GetPowers | src/app/models/game/power-state.service.ts:36-38 | the owned powers if any, otherwise the catalogue; in practice always the catalogue |
| PowerState.PowerStateService.SetPowersAvailable | src/app/models/game/power-state.service.ts:40-42 | the catalogue is replaced; buffs and cooldowns are unchanged |
| PowerState.PowerStateService.GetCanBuyPower | src/app/models/game/power-state.service.ts:44-46 | a power is affordable exactly when the currency covers its price |
| PowerState.PowerStateService.GetPowersAvailableView | src/app/models/game/power-state.service.ts:49-69 | one view per catalogue power, in order, equal to it but for four fields: shown by the magician's level, owned, on cooldown exactly while its cooldown runs, and the seconds left, rounded up, while it runs and 0 otherwise |
| PowerState.PowerStateService.BuyPower | src/app/models/game/power-state.service.ts:71-73 | buying a power never succeeds |
| PowerState.PowerStateService.GetDamageMultiplier | src/app/models/game/power-state.service.ts:76-81 | returns the multiplier in force at `now`, and clears an expired buff on the way |
| PowerState.PowerStateService.GetEffectiveManaCost | src/app/models/game/power-state.service.ts:84-86 | the cost is the power's base cost |
| PowerState.PowerStateService.CastPower | src/app/models/game/power-state.service.ts:89-121 | a cast goes through exactly when the slot exists, its power is off cooldown and has an effect, and the mana covers the cost; it then pays with the corrected, capped payment `SpentMana` of the Findings row, applies the effect and restarts the cooldown; otherwise nothing changes |
| PowerState.PowerStateService.IsDamageBuffActive | src/app/models/game/power-state.service.ts:124-126 | active exactly while the window is open; when it is not, the multiplier in force is 1 |
| PowerState.PowerStateService.GetWeaknessComboMultiplier | src/app/models/game/power-state.service.ts:134-142 | returns the combo multiplier in force at `now`, and clears an expired weakness buff on the way |
| PowerState.PowerStateService.GetWeaknessSpeedMultiplier | src/app/models/game/power-state.service.ts:145-153 | returns the speed multiplier in force at `now`, and clears an expired weakness buff on the way |
| PowerState.PowerStateService.IsWeaknessBuffActive | src/app/models/game/power-state.service.ts:156-158 | active exactly while the window is open; when it is not, both multipliers read 1 |
| PowerState.PowerStateService.GetCanCastPower | src/app/models/game/power-state.service.ts:165-171 | the UI offers a cast exactly when a cast at the base cost would go through |
| PowerState.PowerStateService.HasPowerEffect | src/app/models/game/power-state.service.ts:173-176 | true exactly for a slot in range whose power has an effect, which makes it one of the two spells |
| PowerState.PowerStateService.IsPowerOnCooldown | src/app/models/game/power-state.service.ts:178-182 | true exactly for a slot in range whose cooldown has not ended; a power never cast is off cooldown from instant 0 |
| PowerState.PowerStateService.GetPowerManaCost | src/app/models/game/power-state.service.ts:184-188 | the base cost of an existing slot, nothing for a slot out of range |
| Streak.GetSmithLevel | src/app/models/unlocks/streak.ts:141-149 | the smith's level when slot 3 exists and is owned, otherwise 0 |
| Streak.StreakFold | src/app/models/unlocks/streak.ts:159-164 | damage factors of at least 1 never lower the damage below its base |
| Streak.StreakStatsOf | src/app/models/unlocks/streak.ts:154-171 | the drain speed is at least 0, the clicks needed at least 1 and the damage at least 2 |
| Streak.GetStreakStats | src/app/models/unlocks/streak.ts:154-171 | the loop's result is the ordered fold of the upgrade table, clamped |
| Streak.StreakFoldTable | src/app/models/unlocks/streak.ts:124-132 | the stats are the seven table entries applied in order |
| Streak.StreakStatsBase | src/app/models/unlocks/streak.ts:154-171 | below level 20 no upgrade applies: damage 2, speed 40, 800 clicks |
| Streak.StreakStatsFull | src/app/models/unlocks/streak.ts:154-171 | from level 100 every upgrade applies: damage 8, speed 25, 400 clicks |
| Streak.IsStreakUnlocked | src/app/models/unlocks/streak.ts:173-178 | unlocked exactly when the smith is owned at level 10 or more |
| Streak.GetStreakMultiplier | src/app/models/unlocks/streak.ts:181-190 | the multiplier is the stats' damage while unlocked and active, else 1; never below 1 |
| Streak.TickStreak | src/app/models/unlocks/streak.ts:193-206 | a filling bar is left alone; an active bar drains by speed over tick rate, floored at 0, and falls back to filling once empty; a tick never activates the bar |
| Streak.ProcessStreakOnClick | src/app/models/unlocks/streak.ts:209-219 | a click adds 1 up to the maximum and activates the bar once full; it never deactivates an active bar |
| Streak.TickKeepsStreakInvariant | src/app/models/unlocks/streak.ts:193-206 | a tick keeps the bar non-negative and never empty while active |
| Streak.ClickKeepsStreakInvariant | src/app/models/unlocks/streak.ts:209-219 | a click keeps the bar non-negative and never empty while active |
| Streak.ClicksFillBar | src/app/models/unlocks/streak.ts:209-219 | from an empty bar, fewer clicks than the maximum leave the bar holding their count and still filling |
| Streak.ClicksPastMaxKeepBarFull | src/app/models/unlocks/streak.ts:209-219 | once the clicks reach the maximum the bar is full and active, and further clicks keep it so |
| Streak.GetStreakView | src/app/models/unlocks/streak.ts:222-237 | while locked the view is all zero and inactive; while unlocked it shows the bar, the maximum, the phase and the damage multiplier |
| StreakState.ModifiersOf | src/app/models/unlocks/streak-state.service.ts:22-27 | no modifiers exactly when both multipliers read 1; otherwise both values |
| StreakState.StreakStateService.constructor | src/app/models/unlocks/streak-state.service.ts:17-20 | the bar starts empty and filling |
| StreakState.StreakStateService.GetWeaknessModifiers | src/app/models/unlocks/streak-state.service.ts:22-27 | returns the weakness multipliers in force, or nothing when both are 1; an expired weakness buff is cleared |
| StreakState.StreakStateService.Tick | src/app/models/unlocks/streak-state.service.ts:29-40 | the bar takes the tick step at the smith's level; a filling bar is unchanged; the spell engine only has an expired weakness buff cleared |
| StreakState.StreakStateService.OnClick | src/app/models/unlocks/streak-state.service.ts:42-52 | the bar takes the click step at the smith's level and stays active once active |
| StreakState.StreakStateService.GetMultiplier | src/app/models/unlocks/streak-state.service.ts:54-56 | the multiplier is at least 1, and exactly 1 unless the bar is active |
| StreakState.StreakStateService.GetView | src/app/models/unlocks/streak-state.service.ts:58-66 | the view of the current bar; while unlocked it shows the bar and the phase as they are |
| ShopItems.GetDoesAppearInShop | src/app/models/shop-item.ts:54-64 | an item shows once flagged or bought, never below half its price rounded down, otherwise when its condition holds; a positive answer sets the flag for good |
| ShopItems.ShopAppearanceIdempotent | src/app/models/shop-item.ts:54-64 | asking again, in any context, gives the same answer and leaves the record as it was |
| ShopItems.BoughtItemAppears | src/app/models/shop-item.ts:56-59 | a bought item shows whatever the currency and its condition |
| ShopItems.RequireMinClicks | src/app/models/shop-item.ts:69-71 | holds exactly once the currency reaches the minimum |
| ShopItems.RequireWorkerLevel | src/app/models/shop-item.ts:74-76 | holds exactly when the worker's level, or 0 when not owned, reaches the level |
| ShopItems.RequirePower | src/app/models/shop-item.ts:79-81 | holds exactly when the power is owned; never in a context that knows nothing of powers |
| ShopItems.RequireBought | src/app/models/shop-item.ts:84-86 | holds exactly when the referenced item is bought |
| ShopItems.AllHold | src/app/models/shop-item.ts:91 | true exactly when every condition holds |
| ShopItems.RequireAll | src/app/models/shop-item.ts:90-92 | holds exactly when every condition does, and always with none |
| ShopCatalogue.CatalogueShape | src/app/models/list-shop-item.ts:15-103 | the catalogue is nine ×2 boosts, item k for worker slot k at price 10^(k+1), shown from the start, unbought and with no other bonus |
| ShopState.ProductOfNeutral | src/app/models/game/shop-state.service.ts:21-25 | with no matching bought item the product is 1 |
| ShopState.ProductOfAtLeastOne | src/app/models/game/shop-state.service.ts:21-25 | with every factor at least 1 the product is at least 1 |
| ShopState.SumOf | src/app/models/game/shop-state.service.ts:61-65 | a sum over no contributing item is 0, and over non-negative terms is non-negative |
| ShopState.ProductOfReplaceNeutral | src/app/models/game/shop-state.service.ts:21-25 | replacing an item whose factor was 1 multiplies the product by the new factor |
| ShopState.SumOfReplace | src/app/models/game/shop-state.service.ts:61-72 | replacing an item changes the sum by the difference of the two terms |
| ShopState.ProductOfBuy | src/app/models/game/shop-state.service.ts:87-94 | buying an item whose factor was 1 multiplies the product by its bought factor |
| ShopState.BuyingMultipliesWorkerBoost | src/app/models/game/shop-state.service.ts:87-94 | buying an item multiplies its own worker's boost by its value and leaves every other worker's |
| ShopState.BuyingAddsManaMaxBonus | src/app/models/game/shop-state.service.ts:87-94 | buying an item adds its mana-cap bonus, if any, to the total |
| ShopState.BuyingAddsManaRegenBonus | src/app/models/game/shop-state.service.ts:87-94 | buying an item adds its regeneration bonus, if any, to the total |
| ShopState.FirstWithId | src/app/models/game/shop-state.service.ts:36 | finds the first item with the id, or nothing exactly when none has it |
| ShopState.ItemBought | src/app/models/game/shop-state.service.ts:33-36 | an index reference is bought exactly when in range and bought; an id reference by the first item with that id; unknown references are not |
| ShopState.ShopStateService.constructor | src/app/models/game/shop-state.service.ts:10-15 | the shop starts with the shipped catalogue |
| ShopState.ShopStateService.GetShopMultiplierForWorker | src/app/models/game/shop-state.service.ts:21-25 | the product of the bought boosts of that worker: 1 when there is none, at least 1 when every value is |
| ShopState.ShopStateService.GetPowerManaMultiplier | src/app/models/game/shop-state.service.ts:42-47 | the product of the bought mana factors of the power, replaced by 1 when not positive: always positive, 1 when there is none |
| ShopState.ShopStateService.GetUnlockBonus | src/app/models/game/shop-state.service.ts:49-58 | the sum of the bought upgrades of that kind for that unlock: 0 when there is none, non-negative for non-negative values |
| ShopState.ShopStateService.GetManaMaxBonus | src/app/models/game/shop-state.service.ts:61-65 | the sum of the bought mana-cap bonuses: 0 when there is none, non-negative for non-negative bonuses |
| ShopState.ShopStateService.GetManaRegenBonus | src/app/models/game/shop-state.service.ts:68-72 | the sum of the bought regeneration bonuses: 0 when there is none, non-negative for non-negative bonuses |
| ShopState.ShopStateService.GetShopContext | src/app/models/game/shop-state.service.ts:27-40 | the context carries the currency and the caller's levels, reports an item bought exactly as the list says, and a power owned exactly when listed |
| ShopState.ShopStateService.GetShopItemsView | src/app/models/game/shop-state.service.ts:74-81 | each item is shown as the visibility rule decides; only the flags change, and a shown item stays shown |
| ShopState.ShopStateService.CanBuyShopItem | src/app/models/game/shop-state.service.ts:83-85 | an item is affordable exactly when the currency covers its price |
| ShopState.ShopStateService.BuyShopItem | src/app/models/game/shop-state.service.ts:87-94 | a purchase goes through exactly for an existing, unbought, affordable item; it pays the price and marks only that item; otherwise nothing changes; no item is ever unbought |

## Left out

- The Angular components, templates, dependency injection and the HTTP game service are not part of this model.
- The timers that drive ticks and regeneration are not modelled; `Tick` and `TickManaRegen` are single steps.
- Console logging is left out, and so is the dead save/load code after `upgradeWorker` in `game-state.service.ts`.
- Numbers are exact reals, so IEEE-754 rounding is not modelled. This covers `toFixed`, `Math.pow` with fractional exponents and the division in the tick.
- `Date.now()` is a parameter read once per operation. The source reads the clock several times within `castPower`; those reads can differ by a few milliseconds, and the model uses one instant.
- `createAutoWorker`, `createClickWorker` and `getClickBonus` are not defined in `worker-auto-model.ts`, which the services import them from; that file is not part of this model. The services' constructors take the initial roster as a parameter, and the click bonus of a worker is a function parameter.
- `CRITICAL_HIT_UPGRADES` is not defined either. It only feeds the roster's unlock list, which the rules never read.
- The hit roll of the critical hit and the sun's click are not part of the core files, so only their unlock rules are modelled.
- Plain getters returning a field unchanged are read directly as fields: `getClicks`, `getMana`, `getMaxMana`, `getWorkersAvailable`, `getWorkers`, `getShopItems`, `getPowersAvailable`, `getDamageBuffEndTime` and `getWeaknessBuffEndTime`.
- Resources.ResourcesService.SpendMana and PowerState.PowerStateService.CastPower: pay with the corrected, capped `SpentMana` rather than the source's uncapped `Math.max(0, mana - amount)`; the two agree for every non-negative amount, and the ledger's cap on mana holds only because of the correction (see Findings).
- Streak.TickStreak: requires a positive tick rate. The source divides by it, and every caller passes 10.
- `getShopContext` returns closures that read the shop and power lists each time a condition runs. The model reads them once, when the context is built; `getShopItemsView` builds and uses the context in one pass that changes no bought flag, so the two agree there.
- `getLevelRequiredForPower` indexes a plain object, so ids such as `toString` would find inherited members. The model only knows the two listed ids.
- The streak service passes the weakness modifiers as a fifth argument that the streak rules do not take. The model evaluates them for their expiry side effect and drops them, as the code does. The weakness buff therefore never changes the streak bar, though the spell's description says it should.
- After a smith level-up lowers the bar's maximum, a filling bar can hold more than the new maximum until the next click. The code has no re-clamp, and the model follows the code.
- The unused `getShopMult` parameter of the worker service's `upgradeWorker` and the optional fields of `game.ts` are left out.
- `power.cooldownSeconds || 0` also maps NaN and a missing value to 0. A power's cooldown here is always a number.
- In `getEffectiveProductionForWorker` the branch for a worker missing from the roster (`indexOf` returning −1) cannot happen, because owned workers are roster slots.
- `castPower` calls `spendMana` after `canSpendMana` has already succeeded. The model proves that the second test always passes at that point.

## Findings

| source | as written | input that shows it | evidently intended | confidence | as-written member | corrected member |
|---|---|---|---|---|---|---|
| src/app/models/game/resources.service.ts:62-66 | `spendMana` floors the remaining mana at 0 but never caps it, so a negative amount raises mana above `maxMana` | any 0 ≤ mana ≤ maxMana and amount < mana − maxMana, for every epsilon ≥ 0; for instance mana = maxMana = 100, amount = −50: the payment is accepted and mana becomes 150 | mana stays within [0, maxMana], as `addMana` and `setMaxMana` keep it | not executed | Resources.SpendManaAsWrittenOverfills | Resources.SpentMana |
