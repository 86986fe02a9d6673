/**
 * Concrete days from the kata's own checks: the item primitives, one day of
 * each policy at its boundaries, Aged Brie over three days, and one update of
 * a whole shop, including a shop that lists the same item twice.
 */
module Examples {
  import opened Policy
  import opened Items
  import opened Shop

  /** One day of each policy at the documented boundaries. */
  lemma OneDayScenarios()
    ensures Step(AgedBrie, ItemState(5, 10)) == ItemState(4, 11)
    ensures Step(AgedBrie, ItemState(0, 10)) == ItemState(-1, 12)
    ensures Step(AgedBrie, ItemState(5, 50)) == ItemState(4, 50)
    ensures Step(BackstagePass, ItemState(15, 10)) == ItemState(14, 11)
    ensures Step(BackstagePass, ItemState(10, 10)) == ItemState(9, 12)
    ensures Step(BackstagePass, ItemState(5, 10)) == ItemState(4, 13)
    ensures Step(BackstagePass, ItemState(5, 49)) == ItemState(4, 50)
    ensures Step(BackstagePass, ItemState(0, 10)) == ItemState(-1, 0)
    ensures Step(Sulfuras, ItemState(10, 80)) == ItemState(10, 80)
    ensures Step(Regular, ItemState(5, 0)) == ItemState(4, 0)
    ensures Step(Regular, ItemState(0, 10)) == ItemState(-1, 8)
    ensures Step(Regular, ItemState(1, 10)) == ItemState(0, 9)
  {
  }

  /** Aged Brie over three days: 10, 11, 12, then 14 on the day sell_in turns negative. */
  lemma AgedBrieThreeDays()
    ensures Days(AgedBrie, 1, ItemState(2, 10)) == ItemState(1, 11)
    ensures Days(AgedBrie, 2, ItemState(2, 10)) == ItemState(0, 12)
    ensures Days(AgedBrie, 3, ItemState(2, 10)) == ItemState(-1, 14)
  {
  }

  /** The item primitives and the abstract update, as the unit tests exercise them. */
  method ItemPrimitives()
  {
    var item := new Item("Test Item", 10, 10);
    item.IncreaseQuality();
    assert item.quality == 11;
    item.IncreaseQuality();
    assert item.quality == 12;
    item := new Item("Test max", 10, 49);
    item.IncreaseQuality();
    assert item.quality == 50;
    item.IncreaseQuality();
    assert item.quality == 50;

    item := new Item("Test Item", 10, 10);
    item.DecreaseQuality();
    assert item.quality == 9;
    item.DecreaseQuality();
    assert item.quality == 8;
    item := new Item("Test min", 10, 1);
    item.DecreaseQuality();
    assert item.quality == 0;
    item.DecreaseQuality();
    assert item.quality == 0;

    item := new Item("Test Item", 10, 10);
    item.DecreaseSellIn();
    assert item.sellIn == 9;

    item := new Item("Test Item", -1, 10);
    assert item.IsExpired();
    item.sellIn := 0;
    assert !item.IsExpired();
    item.sellIn := 10;
    assert !item.IsExpired();

    item := new Item("Test Item", 10, 10);
    var outcome := item.Update(Base);
    assert outcome == NotImplemented;
    assert item.sellIn == 10 && item.quality == 10;
  }

  /** A shop with one item of each class, run for one day. */
  method ShopDay()
  {
    var brie := new Item(AgedBrieName, 2, 0);
    var pass := new Item(BackstagePassName, 5, 49);
    var hand := new Item(SulfurasName, 0, 80);
    var vest := new Item("+5 Dexterity Vest", 0, 20);
    var shop := new GildedRose([brie, pass, hand, vest]);
    KindForMatchesExactName(AgedBrieName);
    KindForMatchesExactName(BackstagePassName);
    KindForMatchesExactName(SulfurasName);
    KindForMatchesExactName("+5 Dexterity Vest");
    assert Distinct(shop.items);
    shop.UpdateQuality();
    assert shop.items[0].State() == Step(AgedBrie, ItemState(2, 0));
    assert shop.items[1].State() == Step(BackstagePass, ItemState(5, 49));
    assert shop.items[2].State() == Step(Sulfuras, ItemState(0, 80));
    assert shop.items[3].State() == Step(Regular, ItemState(0, 20));
    assert brie.sellIn == 1 && brie.quality == 1;
    assert pass.sellIn == 4 && pass.quality == 50;
    assert hand.sellIn == 0 && hand.quality == 80;
    assert vest.sellIn == -1 && vest.quality == 18;
  }

  /** An item listed twice in the shop is aged twice by one update. */
  method ShopListingTwice()
  {
    var vest := new Item("+5 Dexterity Vest", 1, 20);
    var shop := new GildedRose([vest, vest]);
    KindForMatchesExactName("+5 Dexterity Vest");
    shop.UpdateQuality();
    assert [vest, vest][..1] == [vest] && [vest][..0] == [];
    assert Occurrences([vest], vest) == 1;
    assert Occurrences(shop.items, vest) == 2;
    assert shop.items[0].State() == Days(Regular, 2, ItemState(1, 20));
    assert vest.sellIn == -1 && vest.quality == 17;
  }
}
