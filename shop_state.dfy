/**
 * The shop (src/app/models/game/shop-state.service.ts): the item list, the
 * multipliers and bonuses folded over the bought items, the context handed
 * to unlock conditions, and the one-shot purchase.
 */
module ShopState {
  import opened Wrappers
  import opened Numbers
  import opened Resources
  import opened PowerModel
  import opened PowerState
  import opened ShopItems
  import opened ShopCatalogue

  /*
   * Every reducer of the service keeps the bought items that match and folds
   * one of their fields. Folding `factor` over every item, with factor 1 (or
   * term 0) for an item that does not match, gives the same number.
   */

  /** The product of `factor` over the items. */
  function ProductOf(items: seq<ShopItem>, factor: ShopItem -> real): real
    decreases |items|
  {
    if |items| == 0 then 1.0 else ProductOf(items[..|items| - 1], factor) * factor(items[|items| - 1])
  }

  /** With no factor other than 1 the product is 1. */
  lemma {:induction false} ProductOfNeutral(items: seq<ShopItem>, factor: ShopItem -> real)
    ensures (forall k :: 0 <= k < |items| ==> factor(items[k]) == 1.0) ==> ProductOf(items, factor) == 1.0
    decreases |items|
  {
    if |items| > 0 && forall k :: 0 <= k < |items| ==> factor(items[k]) == 1.0 {
      var n := |items| - 1;
      assert forall k :: 0 <= k < n ==> items[..n][k] == items[k];
      ProductOfNeutral(items[..n], factor);
    }
  }

  /** With every factor at least 1 the product is at least 1. */
  lemma {:induction false} ProductOfAtLeastOne(items: seq<ShopItem>, factor: ShopItem -> real)
    ensures (forall k :: 0 <= k < |items| ==> factor(items[k]) >= 1.0) ==> ProductOf(items, factor) >= 1.0
    decreases |items|
  {
    if |items| > 0 && forall k :: 0 <= k < |items| ==> factor(items[k]) >= 1.0 {
      var n := |items| - 1;
      assert forall k :: 0 <= k < n ==> items[..n][k] == items[k];
      ProductOfAtLeastOne(items[..n], factor);
      var acc, f := ProductOf(items[..n], factor), factor(items[n]);
      assert acc * f >= acc * 1.0 by { MulMonotone(acc, f); }
    }
  }

  lemma MulMonotone(a: real, b: real)
    requires a >= 0.0 && b >= 1.0
    ensures a * b >= a * 1.0
  {
  }

  /** The sum of `term` over the items. */
  function SumOf(items: seq<ShopItem>, term: ShopItem -> real): (r: real)
    ensures (forall k :: 0 <= k < |items| ==> term(items[k]) == 0.0) ==> r == 0.0
    ensures (forall k :: 0 <= k < |items| ==> term(items[k]) >= 0.0) ==> r >= 0.0
    decreases |items|
  {
    if |items| == 0 then 0.0 else SumOf(items[..|items| - 1], term) + term(items[|items| - 1])
  }

  /** Replacing an item whose factor is 1 multiplies the product by the new item's factor. */
  lemma {:induction false} ProductOfReplaceNeutral(items: seq<ShopItem>, i: nat, item: ShopItem, factor: ShopItem -> real)
    requires i < |items| && factor(items[i]) == 1.0
    ensures ProductOf(items[i := item], factor) == ProductOf(items, factor) * factor(item)
    decreases |items|
  {
    var n := |items| - 1;
    var updated := items[i := item];
    var whole := ProductOf(items, factor);
    assert whole == ProductOf(items[..n], factor) * factor(items[n]);
    assert ProductOf(updated, factor) == ProductOf(updated[..n], factor) * factor(updated[n]);
    if i == n {
      assert updated[..n] == items[..n];
      assert whole == ProductOf(items[..n], factor);
    } else {
      assert updated[..n] == items[..n][i := item];
      ProductOfReplaceNeutral(items[..n], i, item, factor);
      MulSwap(ProductOf(items[..n], factor), factor(item), factor(items[n]));
    }
  }

  lemma MulSwap(a: real, b: real, c: real)
    ensures (a * b) * c == (a * c) * b
  {
  }

  /** Replacing an item changes the sum by the difference of the two terms. */
  lemma {:induction false} SumOfReplace(items: seq<ShopItem>, i: nat, item: ShopItem, term: ShopItem -> real)
    requires i < |items|
    ensures SumOf(items[i := item], term) == SumOf(items, term) - term(items[i]) + term(item)
    decreases |items|
  {
    var n := |items| - 1;
    var updated := items[i := item];
    assert updated[..n] == if i == n then items[..n] else items[..n][i := item];
    if i < n {
      SumOfReplace(items[..n], i, item, term);
    }
  }

  /** The production boost an item gives the worker in slot `workerIndex`. */
  function WorkerFactor(workerIndex: int): ShopItem -> real
  {
    (item: ShopItem) => if item.bought && item.workerIndex == Some(workerIndex) then item.value else 1.0
  }

  /** The mana-cost factor an item gives the power `powerId`. */
  function ManaFactor(powerId: string): ShopItem -> real
  {
    (item: ShopItem) =>
      if item.bought && item.powerId == Some(powerId) && item.powerManaFactor.Some? then item.powerManaFactor.value
      else 1.0
  }

  /** What an item adds to the upgrade `kind` of the unlock `unlockId`. */
  function UnlockTerm(unlockId: string, kind: string): ShopItem -> real
  {
    (item: ShopItem) =>
      if item.bought && item.unlockUpgrade.Some? && item.unlockUpgrade.value.unlockId == unlockId
         && item.unlockUpgrade.value.kind == kind
      then item.unlockUpgrade.value.value
      else 0.0
  }

  /** What an item adds to the mana cap. */
  function ManaMaxTerm(): ShopItem -> real
  {
    (item: ShopItem) => if item.bought && item.manaMaxBonus.Some? then item.manaMaxBonus.value else 0.0
  }

  /** What an item adds to the mana regeneration. */
  function ManaRegenTerm(): ShopItem -> real
  {
    (item: ShopItem) => if item.bought && item.manaRegenBonus.Some? then item.manaRegenBonus.value else 0.0
  }

  /** Buying an item whose factor was 1 multiplies the product by its new factor. */
  lemma ProductOfBuy(items: seq<ShopItem>, i: nat, factor: ShopItem -> real, v: real)
    requires i < |items| && factor(items[i]) == 1.0 && factor(items[i].(bought := true)) == v
    ensures ProductOf(items[i := items[i].(bought := true)], factor) == ProductOf(items, factor) * v
  {
    ProductOfReplaceNeutral(items, i, items[i].(bought := true), factor);
  }

  /** What an item is worth to the worker in slot `workerIndex` once bought: its value for its own worker, 1 for the others. */
  function BoostWhenBought(item: ShopItem, workerIndex: int): real
  {
    if item.workerIndex == Some(workerIndex) then item.value else 1.0
  }

  /** Buying an item multiplies the boost of its own worker by its value and leaves every other worker's. */
  lemma BuyingMultipliesWorkerBoost(items: seq<ShopItem>, i: nat, workerIndex: int)
    requires i < |items| && !items[i].bought
    ensures ProductOf(items[i := items[i].(bought := true)], WorkerFactor(workerIndex))
            == ProductOf(items, WorkerFactor(workerIndex)) * BoostWhenBought(items[i], workerIndex)
  {
    ProductOfBuy(items, i, WorkerFactor(workerIndex), BoostWhenBought(items[i], workerIndex));
  }

  /** Buying an item adds its mana-cap bonus, if it has one, to the total. */
  lemma BuyingAddsManaMaxBonus(items: seq<ShopItem>, i: nat)
    requires i < |items| && !items[i].bought
    ensures SumOf(items[i := items[i].(bought := true)], ManaMaxTerm())
            == SumOf(items, ManaMaxTerm()) + items[i].manaMaxBonus.GetOr(0.0)
  {
    SumOfReplace(items, i, items[i].(bought := true), ManaMaxTerm());
  }

  /** Buying an item adds its regeneration bonus, if it has one, to the total. */
  lemma BuyingAddsManaRegenBonus(items: seq<ShopItem>, i: nat)
    requires i < |items| && !items[i].bought
    ensures SumOf(items[i := items[i].(bought := true)], ManaRegenTerm())
            == SumOf(items, ManaRegenTerm()) + items[i].manaRegenBonus.GetOr(0.0)
  {
    SumOfReplace(items, i, items[i].(bought := true), ManaRegenTerm());
  }

  /** The position of the first item with id `id`. */
  function FirstWithId(items: seq<ShopItem>, id: string): (r: Option<nat>)
    ensures r.None? <==> forall k :: 0 <= k < |items| ==> items[k].id != Some(id)
    ensures r.Some? ==> r.value < |items| && items[r.value].id == Some(id)
                        && forall k :: 0 <= k < r.value ==> items[k].id != Some(id)
  {
    if |items| == 0 then None
    else if items[0].id == Some(id) then Some(0)
    else
      var rest := FirstWithId(items[1..], id);
      if rest.None? then None else Some(rest.value + 1)
  }

  /** Whether the referenced item is bought; a position out of range or an unknown id is not. */
  function ItemBought(items: seq<ShopItem>, ref: ShopRef): (r: bool)
    ensures ref.ByIndex? ==> (r <==> 0 <= ref.index < |items| && items[ref.index].bought)
    ensures ref.ById? ==>
              (r <==> FirstWithId(items, ref.id).Some? && items[FirstWithId(items, ref.id).value].bought)
  {
    match ref
    case ByIndex(n) => if 0 <= n < |items| then items[n].bought else false
    case ById(id) =>
      var found := FirstWithId(items, id);
      if found.Some? then items[found.value].bought else false
  }

  /** Whether a power with id `powerId` is in the list. */
  predicate PowerOwned(powers: seq<Power>, powerId: string)
  {
    exists k :: 0 <= k < |powers| && powers[k].id == powerId
  }

  class ShopStateService {
    var shopItems: seq<ShopItem>
    const resources: ResourcesService
    const powerState: PowerStateService

    ghost predicate Valid()
      reads this, resources, powerState, powerState.resources
    {
      resources.Valid() && powerState.Valid()
    }

    constructor (resources: ResourcesService, powerState: PowerStateService)
      requires resources.Valid() && powerState.Valid()
      ensures Valid()
      ensures this.resources == resources && this.powerState == powerState
      ensures shopItems == LIST_SHOP_ITEM
    {
      shopItems := LIST_SHOP_ITEM;
      this.resources := resources;
      this.powerState := powerState;
    }

    /** The product of the values of the bought items for slot `workerIndex`; 1 when there is none. */
    function GetShopMultiplierForWorker(workerIndex: int): (r: real)
      reads this
      ensures (forall k :: 0 <= k < |shopItems| ==>
                 !(shopItems[k].bought && shopItems[k].workerIndex == Some(workerIndex)))
              ==> r == 1.0
      ensures (forall k :: 0 <= k < |shopItems| && shopItems[k].bought && shopItems[k].workerIndex == Some(workerIndex)
                 ==> shopItems[k].value >= 1.0)
              ==> r >= 1.0
    {
      ProductOfNeutral(shopItems, WorkerFactor(workerIndex));
      ProductOfAtLeastOne(shopItems, WorkerFactor(workerIndex));
      ProductOf(shopItems, WorkerFactor(workerIndex))
    }

    /**
     * The product of the mana-cost factors of the bought items for `powerId`,
     * replaced by 1 when it is not positive: always positive, 1 when there is none.
     */
    function GetPowerManaMultiplier(powerId: string): (r: real)
      reads this
      ensures r > 0.0
      ensures (forall k :: 0 <= k < |shopItems| ==>
                 !(shopItems[k].bought && shopItems[k].powerId == Some(powerId) && shopItems[k].powerManaFactor.Some?))
              ==> r == 1.0
      ensures ProductOf(shopItems, ManaFactor(powerId)) > 0.0 ==> r == ProductOf(shopItems, ManaFactor(powerId))
    {
      ProductOfNeutral(shopItems, ManaFactor(powerId));
      var factor := ProductOf(shopItems, ManaFactor(powerId));
      if factor > 0.0 then factor else 1.0
    }

    /** The sum of the bought upgrades of kind `kind` for `unlockId`; 0 when there is none. */
    function GetUnlockBonus(unlockId: string, kind: string): (r: real)
      reads this
      ensures (forall k :: 0 <= k < |shopItems| ==> UnlockTerm(unlockId, kind)(shopItems[k]) == 0.0) ==> r == 0.0
      ensures (forall k :: 0 <= k < |shopItems| && shopItems[k].unlockUpgrade.Some? ==> shopItems[k].unlockUpgrade.value.value >= 0.0)
              ==> r >= 0.0
    {
      SumOf(shopItems, UnlockTerm(unlockId, kind))
    }

    /** The sum of the mana-cap bonuses of the bought items; 0 when there is none. */
    function GetManaMaxBonus(): (r: real)
      reads this
      ensures (forall k :: 0 <= k < |shopItems| ==> !(shopItems[k].bought && shopItems[k].manaMaxBonus.Some?)) ==> r == 0.0
      ensures (forall k :: 0 <= k < |shopItems| ==> shopItems[k].manaMaxBonus.GetOr(0.0) >= 0.0) ==> r >= 0.0
    {
      SumOf(shopItems, ManaMaxTerm())
    }

    /** The sum of the regeneration bonuses of the bought items; 0 when there is none. */
    function GetManaRegenBonus(): (r: real)
      reads this
      ensures (forall k :: 0 <= k < |shopItems| ==> !(shopItems[k].bought && shopItems[k].manaRegenBonus.Some?)) ==> r == 0.0
      ensures (forall k :: 0 <= k < |shopItems| ==> shopItems[k].manaRegenBonus.GetOr(0.0) >= 0.0) ==> r >= 0.0
    {
      SumOf(shopItems, ManaRegenTerm())
    }

    /**
     * The context for unlock conditions: the currency, the caller's worker
     * levels, the bought flags of the shop's items, and the owned powers.
     */
    function GetShopContext(getWorkerLevel: int -> Option<int>): (ctx: ShopUnlockContext)
      reads this, resources, powerState, powerState.resources
      ensures ctx.clicks == resources.clicks && ctx.getWorkerLevel == getWorkerLevel
      ensures forall n: int :: ctx.getShopItemBought(ByIndex(n)) <==> 0 <= n < |shopItems| && shopItems[n].bought
      ensures forall id: string :: ctx.getShopItemBought(ById(id)) == ItemBought(shopItems, ById(id))
      ensures ctx.getPowerBought.Some?
      ensures forall id: string :: ctx.getPowerBought.value(id) <==> PowerOwned(powerState.GetPowers(), id)
    {
      var items, powers := shopItems, powerState.GetPowers();
      ShopUnlockContext(
        resources.clicks,
        getWorkerLevel,
        (ref: ShopRef) => ItemBought(items, ref),
        Some((id: string) => PowerOwned(powers, id)))
    }

    /**
     * Every item with its visibility decided at this instant. The flags of
     * items that show are set for good; nothing else about an item changes.
     */
    method GetShopItemsView(getWorkerLevel: int -> Option<int>) returns (views: seq<ShopItem>)
      requires Valid()
      modifies this
      ensures Valid()
      ensures views == shopItems && |views| == |old(shopItems)|
      ensures forall k :: 0 <= k < |views| ==>
                views[k].doesAppearInGame == GetDoesAppearInShop(old(shopItems)[k], old(GetShopContext(getWorkerLevel))).0
      ensures forall k :: 0 <= k < |views| ==> views[k] == old(shopItems)[k].(doesAppearInGame := views[k].doesAppearInGame)
      ensures forall k :: 0 <= k < |views| ==> views[k].bought == old(shopItems)[k].bought
      ensures forall k :: 0 <= k < |views| && old(shopItems)[k].doesAppearInGame ==> views[k].doesAppearInGame
    {
      var ctx := GetShopContext(getWorkerLevel);
      var items := shopItems;
      shopItems := seq(|items|, k requires 0 <= k < |items| => GetDoesAppearInShop(items[k], ctx).1);
      views := shopItems;
    }

    /** Whether the currency covers `price`, exactly. */
    function CanBuyShopItem(price: real): (r: bool)
      reads this, resources
      ensures r <==> resources.clicks >= price
    {
      resources.CanSpend(price)
    }

    /**
     * Buys item `i`: only an existing, unbought item whose price the currency
     * covers. On success exactly the price is paid and only that item's flag
     * changes; otherwise nothing changes. No item is ever unbought.
     */
    method BuyShopItem(i: int) returns (ok: bool)
      requires Valid()
      modifies this, resources
      ensures Valid()
      ensures ok <==> 0 <= i < |old(shopItems)| && !old(shopItems)[i].bought && old(resources.clicks) >= old(shopItems)[i].price
      ensures ok ==> shopItems == old(shopItems)[i := old(shopItems)[i].(bought := true)]
                     && resources.clicks == old(resources.clicks) - old(shopItems)[i].price
      ensures !ok ==> shopItems == old(shopItems) && resources.clicks == old(resources.clicks)
      ensures |shopItems| == |old(shopItems)|
      ensures forall k :: 0 <= k < |shopItems| && old(shopItems)[k].bought ==> shopItems[k].bought
      ensures resources.mana == old(resources.mana) && resources.maxMana == old(resources.maxMana)
      ensures resources.manaRegenPerTick == old(resources.manaRegenPerTick)
    {
      if i < 0 || i >= |shopItems| {
        return false;
      }
      var item := shopItems[i];
      if item.bought || !resources.CanSpend(item.price) {
        return false;
      }
      var paid := resources.SpendClicks(item.price, DEFAULT_EPSILON);
      shopItems := shopItems[i := item.(bought := true)];
      return true;
    }
  }
}
