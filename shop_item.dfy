/**
 * Shop items (src/app/models/shop-item.ts): the sticky visibility rule and
 * the combinators that build an item's optional unlock condition.
 */
module ShopItems {
  import opened Wrappers
  import opened Numbers

  /** A reference to a shop item: its position in the list, or its id. */
  datatype ShopRef = ByIndex(index: int) | ById(id: string)

  /** What an unlock condition may look at. */
  datatype ShopUnlockContext = ShopUnlockContext(
    clicks: real,
    /** The level of the worker in that roster slot when owned. */
    getWorkerLevel: int -> Option<int>,
    getShopItemBought: ShopRef -> bool,
    /** Absent from contexts that know nothing of powers. */
    getPowerBought: Option<string -> bool>)

  type ShopUnlockCondition = ShopUnlockContext -> bool

  /** An upgrade to an unlock, such as the critical hit or the streak. */
  datatype UnlockUpgrade = UnlockUpgrade(unlockId: string, kind: string, value: real)

  /**
   * A shop item. `value` multiplies the production of the worker in slot
   * `workerIndex`; the power, mana and unlock fields are the other kinds of
   * bonus an item may carry.
   */
  datatype ShopItem = ShopItem(
    name: string,
    description: string,
    imageUrl: Option<string>,
    price: real,
    doesAppearInGame: bool,
    bought: bool,
    value: real,
    workerIndex: Option<int>,
    id: Option<string>,
    unlockCondition: Option<ShopUnlockCondition>,
    powerId: Option<string>,
    powerManaFactor: Option<real>,
    manaMaxBonus: Option<real>,
    manaRegenBonus: Option<real>,
    unlockUpgrade: Option<UnlockUpgrade>)

  /** An item shows from half its price on. */
  const BASE_VISIBILITY_CLICKS_RATIO: real := 0.5

  /** Whether the item's own condition, if any, holds in `ctx`. */
  predicate ConditionHolds(item: ShopItem, ctx: ShopUnlockContext)
  {
    item.unlockCondition.None? || item.unlockCondition.value(ctx)
  }

  /**
   * Whether the item shows, with the record as the call leaves it: once shown
   * or bought it always shows; otherwise it needs half its price, rounded
   * down, and its condition. A positive answer is written into the record's
   * flag, and the flag is never cleared.
   */
  function GetDoesAppearInShop(item: ShopItem, ctx: ShopUnlockContext): (r: (bool, ShopItem))
    ensures r.0 <==> item.doesAppearInGame || item.bought
                     || (ctx.clicks >= Floor(item.price * BASE_VISIBILITY_CLICKS_RATIO) && ConditionHolds(item, ctx))
    ensures r.1 == item.(doesAppearInGame := r.0)
    ensures item.doesAppearInGame ==> r.0
    ensures !item.doesAppearInGame && !item.bought && ctx.clicks < Floor(item.price * BASE_VISIBILITY_CLICKS_RATIO)
            ==> !r.0
  {
    if item.doesAppearInGame then (true, item)
    else if item.bought then (true, item.(doesAppearInGame := true))
    else if ctx.clicks < Floor(item.price * BASE_VISIBILITY_CLICKS_RATIO) then (false, item)
    else if item.unlockCondition.Some? && !item.unlockCondition.value(ctx) then (false, item)
    else (true, item.(doesAppearInGame := true))
  }

  /** Asking again, in any context, gives the same answer and leaves the record as it was. */
  lemma ShopAppearanceIdempotent(item: ShopItem, ctx: ShopUnlockContext, later: ShopUnlockContext)
    ensures var r := GetDoesAppearInShop(item, ctx);
            r.0 ==> GetDoesAppearInShop(r.1, later) == r
  {
  }

  /** A bought item shows regardless of the currency and its condition. */
  lemma BoughtItemAppears(item: ShopItem, ctx: ShopUnlockContext)
    requires item.bought
    ensures GetDoesAppearInShop(item, ctx) == (true, item.(doesAppearInGame := true))
  {
  }

  /** Holds once the currency reaches `minClicks`. */
  function RequireMinClicks(minClicks: real): (c: ShopUnlockCondition)
    ensures forall ctx: ShopUnlockContext :: c(ctx) <==> ctx.clicks >= minClicks
  {
    (ctx: ShopUnlockContext) => ctx.clicks >= minClicks
  }

  /** Holds once the worker in slot `workerIndex` reaches `level`; an unowned worker counts as level 0. */
  function RequireWorkerLevel(workerIndex: int, level: int): (c: ShopUnlockCondition)
    ensures forall ctx: ShopUnlockContext :: ctx.getWorkerLevel(workerIndex).Some? ==>
              (c(ctx) <==> ctx.getWorkerLevel(workerIndex).value >= level)
    ensures forall ctx: ShopUnlockContext :: ctx.getWorkerLevel(workerIndex).None? ==> (c(ctx) <==> level <= 0)
  {
    (ctx: ShopUnlockContext) => ctx.getWorkerLevel(workerIndex).GetOr(0) >= level
  }

  /** Holds when the power is owned; never in a context that knows nothing of powers. */
  function RequirePower(powerId: string): (c: ShopUnlockCondition)
    ensures forall ctx: ShopUnlockContext :: ctx.getPowerBought.None? ==> !c(ctx)
    ensures forall ctx: ShopUnlockContext :: ctx.getPowerBought.Some? ==> (c(ctx) <==> ctx.getPowerBought.value(powerId))
  {
    (ctx: ShopUnlockContext) => if ctx.getPowerBought.Some? then ctx.getPowerBought.value(powerId) else false
  }

  /** Holds when the referenced shop item is bought. */
  function RequireBought(ref: ShopRef): (c: ShopUnlockCondition)
    ensures forall ctx: ShopUnlockContext :: c(ctx) <==> ctx.getShopItemBought(ref)
  {
    (ctx: ShopUnlockContext) => ctx.getShopItemBought(ref)
  }

  /** Whether every condition holds in `ctx`. */
  function AllHold(conditions: seq<ShopUnlockCondition>, ctx: ShopUnlockContext): (r: bool)
    ensures r <==> forall k :: 0 <= k < |conditions| ==> conditions[k](ctx)
  {
    if |conditions| == 0 then true
    else conditions[0](ctx) && AllHold(conditions[1..], ctx)
  }

  /** The conjunction of the conditions; with none it always holds. */
  function RequireAll(conditions: seq<ShopUnlockCondition>): (c: ShopUnlockCondition)
    ensures forall ctx: ShopUnlockContext :: c(ctx) <==> forall k :: 0 <= k < |conditions| ==> conditions[k](ctx)
    ensures |conditions| == 0 ==> forall ctx: ShopUnlockContext :: c(ctx)
  {
    (ctx: ShopUnlockContext) => AllHold(conditions, ctx)
  }
}
