/**
 * The shop's catalogue (src/app/models/list-shop-item.ts): one ×2 boost per
 * roster slot, from the sword for slot 0 to the house for slot 8, each ten
 * times the price of the one before.
 */
module ShopCatalogue {
  import opened Wrappers
  import opened Numbers
  import opened ShopItems

  /** A ×2 boost for the worker in `workerIndex`, visible from the start. */
  function WorkerBoost(name: string, description: string, imageUrl: string, price: real, workerIndex: int): ShopItem
  {
    ShopItem(name, description, Some(imageUrl), price, true, false, 2.0, Some(workerIndex), None, None,
             None, None, None, None, None)
  }

  const LIST_SHOP_ITEM: seq<ShopItem> := [
    WorkerBoost("Epée d'entrainement",
                "Aussi piquant qu'un cure-dent, multiplie les dégats des clics définitivement par 2",
                "assets/imgUpgrades/swords/Sword1.png", 10.0, 0),
    WorkerBoost("FourcheLangue",
                "Fourche légendaire datant d'un temps oublié, dommage qu'elle soit cassée. Multiplie les dégâts du fermier définitivement par 2",
                "assets/imgUpgrades/Farmer/Farmer1.png", 100.0, 1),
    WorkerBoost("Piochette",
                "Une pioche qui fait mal, elle multiplie les dégâts du mineur définitivement par 2",
                "assets/imgUpgrades/Miner/Miner1.png", 1000.0, 2),
    WorkerBoost("Marteau en bois",
                "Un marteau qui fait pas très mal, on pourrait presque l'appeler un maillet. Il multiplie les dégâts du forgeron définitivement par 2",
                "assets/imgUpgrades/Smith/Smith1.png", 10000.0, 3),
    WorkerBoost("Etoile en bois",
                "Une étoile qui fait pas très mal, mais elle est très joli. Elle multiplie les dégâts de l'astrologue définitivement par 2",
                "assets/imgUpgrades/Star/Star1.png", 100000.0, 4),
    WorkerBoost("Baguette de boulanger",
                "Très bonne, bien qu'elle ne soit pas très utile pour le combat. Elle multiplie les dégâts du magicien définitivement par 2.",
                "assets/imgUpgrades/Wand/Wand1.png", 1000000.0, 5),
    WorkerBoost("Potion en bois",
                "Cette potion n'est constitué que de bois, ce qui n'améliore pas le goût étonnamment. Multiplie les dégâts du alchimiste définitivement par 2.",
                "assets/imgUpgrades/Potion/Potion1.png", 10000000.0, 6),
    WorkerBoost("Machine en bois",
                "Une machine qui fait pas très mal, on pourrait presque l'appeler un maillet. Il multiplie les dégâts du géomètre définitivement par 2",
                "assets/imgUpgrades/Machine/Machine1.png", 100000000.0, 7),
    WorkerBoost("Maison en bois",
                "Une belle maison, pas très utile en combat cependant. Elle multiplie les dégâts de l'architecte définitivement par 2",
                "assets/imgUpgrades/House/House1.png", 1000000000.0, 8)
  ]

  /**
   * The item doubles the worker in slot `k`, costs 10^(k+1), is shown from
   * the start, unbought, and carries no other bonus.
   */
  predicate BoostForSlot(item: ShopItem, k: int)
    requires k >= 0
  {
    item.workerIndex == Some(k) && item.value == 2.0 && item.price == Pow(10.0, k + 1)
    && item.doesAppearInGame && !item.bought && item.id.None? && item.unlockCondition.None?
    && item.powerManaFactor.None? && item.manaMaxBonus.None? && item.manaRegenBonus.None?
    && item.unlockUpgrade.None?
  }

  /** The catalogue holds nine boosts, item k for worker slot k. */
  lemma CatalogueShape()
    ensures |LIST_SHOP_ITEM| == 9
    ensures forall k :: 0 <= k < |LIST_SHOP_ITEM| ==> BoostForSlot(LIST_SHOP_ITEM[k], k)
  {
    PowersOfTen();
    var items := LIST_SHOP_ITEM;
    forall k | 0 <= k < |items|
      ensures BoostForSlot(items[k], k)
    {
      assert items[k] == WorkerBoost(items[k].name, items[k].description, items[k].imageUrl.value, Pow(10.0, k + 1), k);
    }
  }

  lemma PowersOfTen()
    ensures Pow(10.0, 1) == 10.0 && Pow(10.0, 2) == 100.0 && Pow(10.0, 3) == 1000.0
    ensures Pow(10.0, 4) == 10000.0 && Pow(10.0, 5) == 100000.0 && Pow(10.0, 6) == 1000000.0
    ensures Pow(10.0, 7) == 10000000.0 && Pow(10.0, 8) == 100000000.0 && Pow(10.0, 9) == 1000000000.0
  {
    assert Pow(10.0, 1) == 10.0;
    assert Pow(10.0, 2) == 100.0;
    assert Pow(10.0, 3) == 1000.0;
    assert Pow(10.0, 4) == 10000.0;
    assert Pow(10.0, 5) == 100000.0;
    assert Pow(10.0, 6) == 1000000.0;
    assert Pow(10.0, 7) == 10000000.0;
    assert Pow(10.0, 8) == 100000000.0;
  }
}
