/**
 * The worker ladder service (src/app/models/game/worker-state.service.ts):
 * the roster of every worker, the list of owned ones, the debounced upgrade
 * and the shop-scaled production and click-value sums.
 *
 * The owned list holds the very records of the roster, so an upgrade seen
 * through one list is seen through the other. Here the owned list is a
 * sequence of roster slots, which keeps that sharing exact.
 */
module WorkerState {
  import opened Numbers
  import opened Wrappers
  import opened WorkerModel
  import opened Resources

  /** A repeat upgrade of the same slot within this many milliseconds is dropped. */
  const UPGRADE_COOLDOWN_MS: int := 80
  const CLICKS_EPSILON: real := 0.001

  /**
   * The owned list names roster slots, each at most once, and every owned
   * worker has been bought at least once.
   */
  ghost predicate OwnedWellFormed(owned: seq<nat>, roster: seq<WorkerAutoData>)
  {
    && (forall k :: 0 <= k < |owned| ==> owned[k] < |roster|)
    && (forall j, k :: 0 <= j < k < |owned| ==> owned[j] != owned[k])
    && (forall k :: 0 <= k < |owned| ==> roster[owned[k]].bought && roster[owned[k]].level >= 1)
  }

  predicate InRoster(owned: seq<nat>, roster: seq<WorkerAutoData>)
  {
    forall k :: 0 <= k < |owned| ==> owned[k] < |roster|
  }

  /** The roster after buying one level of slot `i`. */
  function UpgradeAt(roster: seq<WorkerAutoData>, i: nat): (r: seq<WorkerAutoData>)
    requires i < |roster|
    ensures |r| == |roster|
    ensures r[i].level == roster[i].level + 1 && r[i].bought
    ensures r[i] == roster[i].(level := roster[i].level + 1, bought := true)
    ensures forall j :: 0 <= j < |roster| && j != i ==> r[j] == roster[j]
  {
    roster[i := roster[i].(level := roster[i].level + 1, bought := true)]
  }

  /** The owned list after a purchase of slot `i`: appended only when absent. */
  function AddOwned(owned: seq<nat>, i: nat): (r: seq<nat>)
    ensures i in r
    ensures i in owned ==> r == owned
    ensures i !in owned ==> r == owned + [i]
  {
    if i in owned then owned else owned + [i]
  }

  /** Buying a level keeps the owned list well formed. */
  lemma UpgradeKeepsOwnedWellFormed(owned: seq<nat>, roster: seq<WorkerAutoData>, i: nat)
    requires OwnedWellFormed(owned, roster) && i < |roster|
    ensures OwnedWellFormed(AddOwned(owned, i), UpgradeAt(roster, i))
  {
    var r, o := UpgradeAt(roster, i), AddOwned(owned, i);
    forall k | 0 <= k < |o|
      ensures o[k] < |r| && r[o[k]].bought && r[o[k]].level >= 1
    {
      if k < |owned| {
        assert o[k] == owned[k];
      }
    }
  }

  /** The visibility pass only sets flags, so the owned list stays well formed. */
  lemma MarkAppearanceKeepsOwnedWellFormed(owned: seq<nat>, roster: seq<WorkerAutoData>, clicks: real)
    requires OwnedWellFormed(owned, roster)
    ensures OwnedWellFormed(owned, MarkAppearance(roster, clicks))
  {
    var r := MarkAppearance(roster, clicks);
    forall k | 0 <= k < |owned|
      ensures r[owned[k]].bought && r[owned[k]].level >= 1
    {
      assert r[owned[k]] == roster[owned[k]].(doesAppearInGame := r[owned[k]].doesAppearInGame);
    }
  }

  /** Every owned slot contributes a non-negative term and multiplier. */
  predicate NonNegativeShares(roster: seq<WorkerAutoData>, owned: seq<nat>,
                              term: WorkerAutoData -> real, shopMult: int -> real)
    requires InRoster(owned, roster)
  {
    forall k :: 0 <= k < |owned| ==> term(roster[owned[k]]) >= 0.0 && shopMult(owned[k]) >= 0.0
  }

  /** One slot's share of a sum: its term times its shop multiplier. */
  function Share(roster: seq<WorkerAutoData>, i: nat, term: WorkerAutoData -> real, shopMult: int -> real): (r: real)
    requires i < |roster|
    ensures term(roster[i]) >= 0.0 && shopMult(i) >= 0.0 ==> r >= 0.0
  {
    var t := term(roster[i]);
    assert t >= 0.0 && shopMult(i) >= 0.0 ==> t * shopMult(i) >= 0.0;
    t * shopMult(i)
  }

  /**
   * The sum, over the owned slots in list order, of `term` of the worker
   * times the shop multiplier of its slot; the reduce of both sums.
   */
  function SumOwned(roster: seq<WorkerAutoData>, owned: seq<nat>,
                    term: WorkerAutoData -> real, shopMult: int -> real): (r: real)
    requires InRoster(owned, roster)
    ensures NonNegativeShares(roster, owned, term, shopMult) ==> r >= 0.0
    decreases |owned|
  {
    if |owned| == 0 then 0.0
    else
      var last := owned[|owned| - 1];
      var rest := SumOwned(roster, owned[..|owned| - 1], term, shopMult);
      assert NonNegativeShares(roster, owned, term, shopMult) ==> NonNegativeShares(roster, owned[..|owned| - 1], term, shopMult);
      rest + Share(roster, last, term, shopMult)
  }

  /** Adding one slot at the end of the owned list adds exactly that slot's share. */
  lemma SumOwnedAppend(roster: seq<WorkerAutoData>, owned: seq<nat>, i: nat,
                       term: WorkerAutoData -> real, shopMult: int -> real)
    requires InRoster(owned, roster) && i < |roster|
    ensures InRoster(owned + [i], roster)
    ensures SumOwned(roster, owned + [i], term, shopMult)
            == SumOwned(roster, owned, term, shopMult) + Share(roster, i, term, shopMult)
  {
    assert (owned + [i])[..|owned|] == owned;
  }

  /** The sum only looks at the owned slots: changing other workers leaves it alone. */
  lemma {:induction false} SumOwnedFrame(roster: seq<WorkerAutoData>, roster': seq<WorkerAutoData>, owned: seq<nat>,
                                         term: WorkerAutoData -> real, shopMult: int -> real)
    requires InRoster(owned, roster) && InRoster(owned, roster')
    requires forall k :: 0 <= k < |owned| ==> term(roster'[owned[k]]) == term(roster[owned[k]])
    ensures SumOwned(roster', owned, term, shopMult) == SumOwned(roster, owned, term, shopMult)
    decreases |owned|
  {
    if |owned| > 0 {
      var n := |owned| - 1;
      var last := owned[n];
      assert forall k :: 0 <= k < n ==> owned[..n][k] == owned[k];
      SumOwnedFrame(roster, roster', owned[..n], term, shopMult);
      ShareOfSameTerm(roster, roster', last, term, shopMult);
    }
  }

  lemma ShareOfSameTerm(roster: seq<WorkerAutoData>, roster': seq<WorkerAutoData>, i: nat,
                        term: WorkerAutoData -> real, shopMult: int -> real)
    requires i < |roster| && i < |roster'| && term(roster'[i]) == term(roster[i])
    ensures Share(roster', i, term, shopMult) == Share(roster, i, term, shopMult)
  {
  }

  lemma ShareMonotone(roster: seq<WorkerAutoData>, roster': seq<WorkerAutoData>, i: nat,
                      term: WorkerAutoData -> real, shopMult: int -> real)
    requires i < |roster| && i < |roster'|
    requires term(roster[i]) <= term(roster'[i]) && shopMult(i) >= 0.0
    ensures Share(roster, i, term, shopMult) <= Share(roster', i, term, shopMult)
  {
    MulLeftMonotone(shopMult(i), term(roster[i]), term(roster'[i]));
    assert term(roster[i]) * shopMult(i) == shopMult(i) * term(roster[i]);
    assert term(roster'[i]) * shopMult(i) == shopMult(i) * term(roster'[i]);
  }

  /** With non-negative multipliers, raising each owned term never lowers the sum. */
  lemma {:induction false} SumOwnedMonotone(roster: seq<WorkerAutoData>, roster': seq<WorkerAutoData>, owned: seq<nat>,
                                            term: WorkerAutoData -> real, shopMult: int -> real)
    requires InRoster(owned, roster) && InRoster(owned, roster')
    requires forall k :: 0 <= k < |owned| ==> term(roster[owned[k]]) <= term(roster'[owned[k]])
    requires forall k :: 0 <= k < |owned| ==> shopMult(owned[k]) >= 0.0
    ensures SumOwned(roster, owned, term, shopMult) <= SumOwned(roster', owned, term, shopMult)
    decreases |owned|
  {
    if |owned| > 0 {
      var last := owned[|owned| - 1];
      SumOwnedMonotone(roster, roster', owned[..|owned| - 1], term, shopMult);
      ShareMonotone(roster, roster', last, term, shopMult);
    }
  }

  /** Production of one roster slot, scaled by its shop multiplier. */
  function EffectiveProductionForWorker(roster: seq<WorkerAutoData>, i: nat, shopMult: int -> real): (r: real)
    requires i < |roster|
    ensures roster[i].level == 0 ==> r == 0.0
    ensures roster[i].productivity >= 0.0 && shopMult(i) >= 0.0 ==> r >= 0.0
  {
    Share(roster, i, CalculateClicksPerSecondForWorker, shopMult)
  }

  /** Click bonus of one roster slot, scaled by its shop multiplier. */
  function EffectiveClickBonusForWorker(roster: seq<WorkerAutoData>, i: nat,
                                        clickBonus: WorkerAutoData -> real, shopMult: int -> real): (r: real)
    requires i < |roster|
    ensures clickBonus(roster[i]) >= 0.0 && shopMult(i) >= 0.0 ==> r >= 0.0
    ensures shopMult(i) == 1.0 ==> r == clickBonus(roster[i])
  {
    Share(roster, i, clickBonus, shopMult)
  }

  /** Every owned worker has non-negative productivity and slot multiplier. */
  ghost predicate ProductiveOwned(roster: seq<WorkerAutoData>, owned: seq<nat>, shopMult: int -> real)
  {
    forall k :: 0 <= k < |owned| ==> owned[k] < |roster| && roster[owned[k]].productivity >= 0.0 && shopMult(owned[k]) >= 0.0
  }

  /**
   * Buying a level never lowers the total production, when productivities and
   * multipliers are non-negative: the bought worker produces at least as much
   * as before, and a newly owned one adds a non-negative share.
   */
  lemma UpgradeNeverLowersProduction(roster: seq<WorkerAutoData>, owned: seq<nat>, i: nat, shopMult: int -> real)
    requires OwnedWellFormed(owned, roster) && i < |roster|
    requires ProductiveOwned(roster, AddOwned(owned, i), shopMult)
    ensures InRoster(AddOwned(owned, i), UpgradeAt(roster, i))
    ensures SumOwned(roster, owned, CalculateClicksPerSecondForWorker, shopMult)
            <= SumOwned(UpgradeAt(roster, i), AddOwned(owned, i), CalculateClicksPerSecondForWorker, shopMult)
  {
    var roster' := UpgradeAt(roster, i);
    UpgradeKeepsOwnedWellFormed(owned, roster, i);
    ProductiveOwnedPrefix(roster, owned, i, shopMult);
    UpgradeRaisesOwnedProduction(roster, owned, i);
    SumOwnedMonotone(roster, roster', owned, CalculateClicksPerSecondForWorker, shopMult);
    if i !in owned {
      SumOwnedAppend(roster', owned, i, CalculateClicksPerSecondForWorker, shopMult);
      assert Share(roster', i, CalculateClicksPerSecondForWorker, shopMult) >= 0.0;
    }
  }

  /** The productivity and multiplier facts about the list after a purchase hold for the list before it. */
  lemma ProductiveOwnedPrefix(roster: seq<WorkerAutoData>, owned: seq<nat>, i: nat, shopMult: int -> real)
    requires ProductiveOwned(roster, AddOwned(owned, i), shopMult)
    ensures ProductiveOwned(roster, owned, shopMult)
    ensures i < |roster| && roster[i].productivity >= 0.0 && shopMult(i) >= 0.0
  {
    var o := AddOwned(owned, i);
    forall k | 0 <= k < |owned|
      ensures owned[k] < |roster| && roster[owned[k]].productivity >= 0.0 && shopMult(owned[k]) >= 0.0
    {
      assert o[k] == owned[k];
    }
    var j :| 0 <= j < |o| && o[j] == i;
  }

  /** Buying a level of slot `i` never lowers an owned worker's production. */
  lemma UpgradeRaisesOwnedProduction(roster: seq<WorkerAutoData>, owned: seq<nat>, i: nat)
    requires InRoster(owned, roster) && i < |roster| && roster[i].productivity >= 0.0
    ensures InRoster(owned, UpgradeAt(roster, i))
    ensures forall k :: 0 <= k < |owned| ==>
              CalculateClicksPerSecondForWorker(roster[owned[k]]) <= CalculateClicksPerSecondForWorker(UpgradeAt(roster, i)[owned[k]])
  {
    var roster' := UpgradeAt(roster, i);
    forall k | 0 <= k < |owned|
      ensures CalculateClicksPerSecondForWorker(roster[owned[k]]) <= CalculateClicksPerSecondForWorker(roster'[owned[k]])
    {
      if owned[k] == i {
        ProductionNonDecreasing(roster[i]);
        assert RawClicksPerSecond(roster'[i]) == RawClicksPerSecond(roster[i].(level := roster[i].level + 1));
      }
    }
  }

  /** A view of one worker with its shop-scaled production and click bonus. */
  datatype WorkerView = WorkerView(worker: WorkerAuto, effectiveProductionPerSecond: real, effectiveClickBonus: real)

  /** Whether an upgrade of slot `i` at `now` is the double send the debounce drops. */
  predicate Debounced(lastUpgradedIndex: int, lastUpgradedTime: int, i: int, now: int)
  {
    lastUpgradedIndex == i && now - lastUpgradedTime < UPGRADE_COOLDOWN_MS
  }

  class WorkerStateService {
    var workersAvailable: seq<WorkerAutoData>
    var workers: seq<nat>
    var lastUpgradedIndex: int
    var lastUpgradedTime: int
    const resources: ResourcesService

    ghost predicate Valid()
      reads this, resources
    {
      OwnedWellFormed(workers, workersAvailable) && resources.Valid()
    }

    /** The roster the service starts with; no worker is owned yet. */
    constructor (resources: ResourcesService, roster: seq<WorkerAutoData>)
      requires resources.Valid()
      ensures Valid()
      ensures this.resources == resources
      ensures workersAvailable == roster && workers == []
      ensures lastUpgradedIndex == -1 && lastUpgradedTime == 0
    {
      this.resources := resources;
      workersAvailable := roster;
      workers := [];
      lastUpgradedIndex := -1;
      lastUpgradedTime := 0;
    }

    /** The owned workers' records, in the order they were first bought. */
    function Workers(): (r: seq<WorkerAutoData>)
      requires InRoster(workers, workersAvailable)
      reads this
      ensures |r| == |workers|
      ensures forall k :: 0 <= k < |workers| ==> r[k] == workersAvailable[workers[k]]
    {
      var roster, owned := workersAvailable, workers;
      seq(|owned|, k requires 0 <= k < |owned| => roster[owned[k]])
    }

    /** The level of an owned worker; nothing for a slot out of range or not owned. */
    function GetWorkerLevel(i: int): (r: Option<nat>)
      reads this
      ensures r.Some? <==> 0 <= i < |workersAvailable| && i in workers
      ensures r.Some? ==> r.value == workersAvailable[i].level
    {
      if i < 0 || i >= |workersAvailable| then None
      else if i in workers then Some(workersAvailable[i].level)
      else None
    }

    /** Total production per second of the owned workers. */
    function CalculateClicksPerSecond(shopMult: int -> real): (r: real)
      requires InRoster(workers, workersAvailable)
      reads this
      ensures ProductiveOwned(workersAvailable, workers, shopMult) ==> r >= 0.0
    {
      SumOwned(workersAvailable, workers, CalculateClicksPerSecondForWorker, shopMult)
    }

    /** The value of one click: 1 plus the owned workers' scaled click bonuses. */
    function GetCurrentClickValue(clickBonus: WorkerAutoData -> real, shopMult: int -> real): (r: real)
      requires InRoster(workers, workersAvailable)
      reads this
      ensures (forall k :: 0 <= k < |workers| ==>
                 clickBonus(workersAvailable[workers[k]]) >= 0.0 && shopMult(workers[k]) >= 0.0)
              ==> r >= 1.0
      ensures workers == [] ==> r == 1.0
    {
      1.0 + SumOwned(workersAvailable, workers, clickBonus, shopMult)
    }

    /** The view of roster slot `i` against the roster as it stands. */
    function ViewAt(roster: seq<WorkerAutoData>, i: nat, clicks: real,
                    clickBonus: WorkerAutoData -> real, shopMult: int -> real): (v: WorkerView)
      requires i < |roster|
      ensures v.worker == ViewOf(roster[i], clicks)
      ensures v.effectiveProductionPerSecond == EffectiveProductionForWorker(roster, i, shopMult)
      ensures v.effectiveClickBonus == EffectiveClickBonusForWorker(roster, i, clickBonus, shopMult)
    {
      WorkerView(ViewOf(roster[i], clicks),
                 EffectiveProductionForWorker(roster, i, shopMult),
                 EffectiveClickBonusForWorker(roster, i, clickBonus, shopMult))
    }

    /**
     * Views of the owned workers; building them sets the sticky visibility
     * flag of each owned record. Owned workers are bought, so every one shows.
     */
    method GetWorkersView(clicks: real, clickBonus: WorkerAutoData -> real, shopMult: int -> real)
      returns (views: seq<WorkerView>)
      requires Valid()
      modifies this
      ensures Valid()
      ensures |views| == |old(workers)|
      ensures forall k :: 0 <= k < |views| ==>
                views[k] == ViewAt(old(workersAvailable), old(workers)[k], clicks, clickBonus, shopMult)
      ensures forall k :: 0 <= k < |views| ==> views[k].worker.data.doesAppearInGame
      ensures |workersAvailable| == |old(workersAvailable)|
      ensures forall j :: 0 <= j < |workersAvailable| ==>
                workersAvailable[j] == if j in workers then old(workersAvailable)[j].(doesAppearInGame := true)
                                       else old(workersAvailable)[j]
      ensures workers == old(workers)
      ensures lastUpgradedIndex == old(lastUpgradedIndex) && lastUpgradedTime == old(lastUpgradedTime)
    {
      var roster, owned := workersAvailable, workers;
      views := seq(|owned|, k requires 0 <= k < |owned| => ViewAt(roster, owned[k], clicks, clickBonus, shopMult));
      workersAvailable := seq(|roster|, j requires 0 <= j < |roster| =>
                              if j in owned then GetDoesAppearInGame(roster[j], clicks).1 else roster[j]);
    }

    /** Views of the whole roster; building them sets every sticky flag that is due. */
    method GetWorkersAvailableView(clicks: real, clickBonus: WorkerAutoData -> real, shopMult: int -> real)
      returns (views: seq<WorkerView>)
      requires Valid()
      modifies this
      ensures Valid()
      ensures |views| == |old(workersAvailable)|
      ensures forall k :: 0 <= k < |views| ==>
                views[k] == ViewAt(old(workersAvailable), k, clicks, clickBonus, shopMult)
      ensures workersAvailable == MarkAppearance(old(workersAvailable), clicks)
      ensures workers == old(workers)
      ensures lastUpgradedIndex == old(lastUpgradedIndex) && lastUpgradedTime == old(lastUpgradedTime)
    {
      var roster := workersAvailable;
      views := seq(|roster|, k requires 0 <= k < |roster| => ViewAt(roster, k, clicks, clickBonus, shopMult));
      workersAvailable := MarkAppearance(workersAvailable, clicks);
    }

    /** Whether an upgrade of slot `i` at `now` goes through, judged before the call. */
    predicate UpgradeAllowed(i: int, now: int)
      reads this, resources
    {
      && 0 <= i < |workersAvailable|
      && !Debounced(lastUpgradedIndex, lastUpgradedTime, i, now)
      && resources.clicks >= GetPrice(workersAvailable[i]) - CLICKS_EPSILON
    }

    /**
     * Buys one level of slot `i` at time `now`. It is refused, changing
     * nothing, for a slot out of range, for a repeat of the last upgrade of the
     * same slot within 80 ms, and when the currency is short of the price by
     * more than the tolerance.
     */
    method UpgradeWorker(i: int, now: int) returns (ok: bool)
      requires Valid()
      modifies this, resources
      ensures Valid()
      ensures ok <==> old(UpgradeAllowed(i, now))
      ensures !ok ==> workersAvailable == old(workersAvailable) && workers == old(workers)
                      && lastUpgradedIndex == old(lastUpgradedIndex) && lastUpgradedTime == old(lastUpgradedTime)
                      && resources.clicks == old(resources.clicks)
      ensures ok ==> 0 <= i < |old(workersAvailable)|
                     && workersAvailable == UpgradeAt(old(workersAvailable), i)
                     && workers == AddOwned(old(workers), i)
                     && resources.clicks == Max(0.0, old(resources.clicks) - GetPrice(old(workersAvailable)[i]))
                     && lastUpgradedIndex == i && lastUpgradedTime == now
      ensures ok ==> GetWorkerLevel(i) == Some(old(workersAvailable)[i].level + 1)
      ensures ok ==> forall later :: now <= later < now + UPGRADE_COOLDOWN_MS ==> !UpgradeAllowed(i, later)
      ensures resources.mana == old(resources.mana) && resources.maxMana == old(resources.maxMana)
      ensures resources.manaRegenPerTick == old(resources.manaRegenPerTick)
    {
      var roster, owned := workersAvailable, workers;
      if i < 0 || i >= |roster| {
        return false;
      }
      if Debounced(lastUpgradedIndex, lastUpgradedTime, i, now) {
        return false;
      }
      var priceToPay := GetPrice(roster[i]);
      ok := resources.SpendClicks(priceToPay, CLICKS_EPSILON);
      if !ok {
        return;
      }
      UpgradeKeepsOwnedWellFormed(owned, roster, i);
      workersAvailable := UpgradeAt(roster, i);
      workers := AddOwned(owned, i);
      lastUpgradedIndex := i;
      lastUpgradedTime := now;
    }
  }

  /**
   * The second of two upgrades of one slot less than 80 ms apart is the one
   * the debounce drops; 80 ms or more apart, it is not.
   */
  lemma RepeatWithinCooldownIsDropped(i: int, t: int, now: int)
    requires t <= now < t + UPGRADE_COOLDOWN_MS
    ensures Debounced(i, t, i, now)
    ensures !Debounced(i, t, i, t + UPGRADE_COOLDOWN_MS)
  {
  }
}
