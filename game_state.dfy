/**
 * The older, self-contained game service (src/app/models/game/game-state.service.ts):
 * its own currency, click value and worker ladder, with no shop and no
 * resource ledger. The timer that drives `Tick` is not part of this model.
 */
module GameState {
  import opened Numbers
  import opened WorkerModel
  import opened WorkerState

  /** Currency credited per tick is a tenth of the per-second production. */
  const TICKS_PER_SECOND: real := 10.0

  /** This service applies no shop bonus: every slot's multiplier is 1. */
  function NoShop(i: int): real
  {
    1.0
  }

  /** The snapshot handed to the interface. */
  datatype Game = Game(
    clicks: real,
    workers: seq<WorkerAuto>,
    workersAvailable: seq<WorkerAuto>,
    clickValue: real,
    valueAutoPerSecond: real)

  /** Without a shop, a sum of shares is the plain sum of the terms. */
  lemma {:induction false} NoShopSumIsPlain(roster: seq<WorkerAutoData>, owned: seq<nat>, term: WorkerAutoData -> real)
    requires InRoster(owned, roster)
    ensures owned == [] ==> SumOwned(roster, owned, term, NoShop) == 0.0
    ensures |owned| > 0 ==>
              SumOwned(roster, owned, term, NoShop)
              == SumOwned(roster, owned[..|owned| - 1], term, NoShop) + term(roster[owned[|owned| - 1]])
  {
    if |owned| > 0 {
      assert Share(roster, owned[|owned| - 1], term, NoShop) == term(roster[owned[|owned| - 1]]);
    }
  }

  /** A second visibility pass at the same currency changes nothing. */
  lemma MarkAppearanceIdempotent(roster: seq<WorkerAutoData>, clicks: real)
    ensures MarkAppearance(MarkAppearance(roster, clicks), clicks) == MarkAppearance(roster, clicks)
  {
    var once := MarkAppearance(roster, clicks);
    forall k | 0 <= k < |roster|
      ensures GetDoesAppearInGame(once[k], clicks).1 == once[k]
    {
      AppearanceIdempotent(roster[k], clicks, clicks);
    }
  }

  /** The visibility pass keeps the owned list well formed and every owned worker's price. */
  lemma MarkingKeepsOwnedPrices(owned: seq<nat>, roster: seq<WorkerAutoData>, clicks: real)
    requires OwnedWellFormed(owned, roster)
    ensures OwnedWellFormed(owned, MarkAppearance(roster, clicks))
    ensures forall k :: 0 <= k < |owned| ==> GetPrice(MarkAppearance(roster, clicks)[owned[k]]) == GetPrice(roster[owned[k]])
  {
    var marked := MarkAppearance(roster, clicks);
    MarkAppearanceKeepsOwnedWellFormed(owned, roster, clicks);
    forall k | 0 <= k < |owned|
      ensures GetPrice(marked[owned[k]]) == GetPrice(roster[owned[k]])
    {
      PriceIgnoresVisibility(roster[owned[k]], marked[owned[k]].doesAppearInGame);
    }
  }

  /** The view of every worker of the roster. */
  function RosterView(roster: seq<WorkerAutoData>, clicks: real): (v: seq<WorkerAuto>)
    ensures |v| == |roster| && forall k :: 0 <= k < |roster| ==> v[k] == ViewOf(roster[k], clicks)
  {
    seq(|roster|, k requires 0 <= k < |roster| => ViewOf(roster[k], clicks))
  }

  /** The view of every owned worker, in the owned list's order. */
  function OwnedView(roster: seq<WorkerAutoData>, owned: seq<nat>, clicks: real): (v: seq<WorkerAuto>)
    requires InRoster(owned, roster)
    ensures |v| == |owned| && forall k :: 0 <= k < |owned| ==> v[k] == ViewOf(roster[owned[k]], clicks)
  {
    seq(|owned|, k requires 0 <= k < |owned| => ViewOf(roster[owned[k]], clicks))
  }

  class GameStateService {
    var clicks: real
    var clickValue: real
    var workersAvailable: seq<WorkerAutoData>
    var workers: seq<nat>
    var lastUpgradedIndex: int
    var lastUpgradedTime: int

    ghost predicate Valid()
      reads this
    {
      OwnedWellFormed(workers, workersAvailable)
    }

    constructor (roster: seq<WorkerAutoData>)
      ensures Valid()
      ensures clicks == 0.0 && clickValue == 1.0
      ensures workersAvailable == roster && workers == []
      ensures lastUpgradedIndex == -1 && lastUpgradedTime == 0
    {
      clicks := 0.0;
      clickValue := 1.0;
      workersAvailable := roster;
      workers := [];
      lastUpgradedIndex := -1;
      lastUpgradedTime := 0;
    }

    /** Production per second: the owned workers' rounded productions, unscaled. */
    function CalculateClicksPerSecond(): (r: real)
      requires Valid()
      reads this
      ensures workers == [] ==> r == 0.0
      ensures (forall k :: 0 <= k < |workers| ==> workersAvailable[workers[k]].productivity >= 0.0) ==> r >= 0.0
    {
      NoShopSumIsPlain(workersAvailable, workers, CalculateClicksPerSecondForWorker);
      SumOwned(workersAvailable, workers, CalculateClicksPerSecondForWorker, NoShop)
    }

    /** The value of one click: 1 plus the owned workers' click bonuses. */
    function ClickValueOf(clickBonus: WorkerAutoData -> real): (r: real)
      requires Valid()
      reads this
      ensures workers == [] ==> r == 1.0
      ensures (forall k :: 0 <= k < |workers| ==> clickBonus(workersAvailable[workers[k]]) >= 0.0) ==> r >= 1.0
    {
      NoShopSumIsPlain(workersAvailable, workers, clickBonus);
      1.0 + SumOwned(workersAvailable, workers, clickBonus, NoShop)
    }

    /**
     * Builds the snapshot. It stores the new click value, 1 plus the owned
     * workers' click bonuses, and sets every sticky visibility flag that is
     * due; the owned workers' views are built after the roster's, from the
     * updated records.
     */
    method GetState(clickBonus: WorkerAutoData -> real) returns (g: Game)
      requires Valid()
      modifies this
      ensures Valid()
      ensures clickValue == old(ClickValueOf(clickBonus))
      ensures workersAvailable == MarkAppearance(old(workersAvailable), clicks)
      ensures g.clicks == clicks && g.clickValue == clickValue
      ensures g.valueAutoPerSecond == old(CalculateClicksPerSecond())
      ensures |g.workersAvailable| == |workersAvailable|
      ensures forall k :: 0 <= k < |workersAvailable| ==> g.workersAvailable[k] == ViewOf(old(workersAvailable)[k], clicks)
      ensures |g.workers| == |workers|
      ensures forall k :: 0 <= k < |workers| ==> g.workers[k] == ViewOf(workersAvailable[workers[k]], clicks)
      ensures forall k :: 0 <= k < |workers| ==> g.workers[k].price == GetPrice(old(workersAvailable)[workers[k]])
      ensures clicks == old(clicks) && workers == old(workers)
      ensures lastUpgradedIndex == old(lastUpgradedIndex) && lastUpgradedTime == old(lastUpgradedTime)
    {
      var valueAutoPerSecond := CalculateClicksPerSecond();
      var newClickValue := ClickValueOf(clickBonus);
      var roster, owned, c := workersAvailable, workers, clicks;
      var availableView := RosterView(roster, c);
      var marked := MarkAppearance(roster, c);
      var workersView := OwnedView(marked, owned, c);
      MarkingKeepsOwnedPrices(owned, roster, c);
      clickValue := newClickValue;
      workersAvailable := marked;
      g := Game(c, workersView, availableView, newClickValue, valueAutoPerSecond);
    }

    /** A click credits exactly the stored click value. */
    method Click()
      modifies this
      ensures clicks == old(clicks) + old(clickValue)
      ensures clickValue == old(clickValue) && workersAvailable == old(workersAvailable) && workers == old(workers)
      ensures lastUpgradedIndex == old(lastUpgradedIndex) && lastUpgradedTime == old(lastUpgradedTime)
    {
      clicks := clicks + clickValue;
    }

    /** One tick of the production timer: a tenth of a second's production. */
    method Tick()
      requires Valid()
      modifies this
      ensures Valid()
      ensures clicks == old(clicks) + old(CalculateClicksPerSecond()) / TICKS_PER_SECOND
      ensures clickValue == old(clickValue) && workersAvailable == old(workersAvailable) && workers == old(workers)
      ensures lastUpgradedIndex == old(lastUpgradedIndex) && lastUpgradedTime == old(lastUpgradedTime)
    {
      var autoPerTick := CalculateClicksPerSecond() / TICKS_PER_SECOND;
      clicks := clicks + autoPerTick;
    }

    /** Whether an upgrade of slot `i` at `now` goes through, judged before the call. */
    predicate UpgradeAllowed(i: int, now: int)
      reads this
    {
      && 0 <= i < |workersAvailable|
      && !Debounced(lastUpgradedIndex, lastUpgradedTime, i, now)
      && clicks >= GetPrice(workersAvailable[i]) - CLICKS_EPSILON
    }

    /**
     * Buys one level of slot `i` at time `now`, paying from this service's own
     * currency; a refused call changes nothing.
     */
    method UpgradeWorker(i: int, now: int)
      requires Valid()
      modifies this
      ensures Valid()
      ensures !old(UpgradeAllowed(i, now)) ==>
                clicks == old(clicks) && workersAvailable == old(workersAvailable) && workers == old(workers)
                && lastUpgradedIndex == old(lastUpgradedIndex) && lastUpgradedTime == old(lastUpgradedTime)
      ensures old(UpgradeAllowed(i, now)) ==>
                0 <= i < |old(workersAvailable)|
                && clicks == Max(0.0, old(clicks) - GetPrice(old(workersAvailable)[i]))
                && workersAvailable == UpgradeAt(old(workersAvailable), i)
                && workers == AddOwned(old(workers), i)
                && lastUpgradedIndex == i && lastUpgradedTime == now
      ensures clickValue == old(clickValue)
      ensures old(clicks) >= 0.0 ==> clicks >= 0.0
    {
      var roster, owned := workersAvailable, workers;
      if i < 0 || i >= |roster| {
        return;
      }
      if Debounced(lastUpgradedIndex, lastUpgradedTime, i, now) {
        return;
      }
      var priceToPay := GetPrice(roster[i]);
      if clicks < priceToPay - CLICKS_EPSILON {
        return;
      }
      UpgradeKeepsOwnedWellFormed(owned, roster, i);
      clicks := Max(0.0, clicks - priceToPay);
      workersAvailable := UpgradeAt(roster, i);
      workers := AddOwned(owned, i);
      lastUpgradedIndex := i;
      lastUpgradedTime := now;
    }
  }
}
