# Gilded Rose inventory update in Dafny

This project models the nightly inventory update of the Gilded Rose kata (Python version). Each item has a
`name`, a `sell_in` countdown and a `quality` score. One call of `GildedRose.update_quality` ages every item
in the shop's list by one day. The item's name selects one of four update policies by exact lookup: Aged Brie,
backstage passes, Sulfuras, and the regular policy as the default. That policy mutates the item's `sell_in` and
`quality` in place, and all quality changes are clamped to [0, 50].

The model has three layers, in the source's own form:

- `policy.dfy` (module `Policy`) is the specification. `Step(kind, state)` is one day under a policy, written in
  closed form: the total number of clamped increments or decrements is applied with a single clamp. `Days` is
  `Step` iterated. Lemmas state what the source promises about them: bounds, the Sulfuras invariant, exact
  `sell_in` countdown, composition of days, and each policy's gain or loss.
- `item.dfy` (module `Items`) holds the `Item` class with mutable `name`, `sellIn` and `quality` fields. The
  clamped mutators are methods, and `IsExpired` is a query. The four policy updates are the same step-by-step
  sequences of mutations as in the source. Each is proved to equal `Step` on the item's old state. The Python
  subclasses become an `ItemKind` tag. `Item.Update(kind)` returns `NotImplemented` for the abstract base class
  and leaves the item unchanged, just as the base `update` raises.
- `gilded_rose.dfy` (module `Shop`) holds the `GildedRose` class. Its `items` list and `itemTypes` table are set
  by the constructor. `UpdateQuality` is the loop over the list. It states, per entry, that only `sell_in` and
  `quality` change and that each item's new state depends only on its own old state and name. It also states that
  an item stays within [0, 50] if it started there. When the same object occurs k times in the list, the source
  ages it k times. The contract says exactly that: the new state is `Days(kind, k, old state)`, so it is `Step`
  for a list without repeats.
- `examples.dfy` replays the unit tests' assertions and documented one-day and three-day scenarios against the
  model.

The item names are matched exactly, as the source's dictionary does. Only `"Aged Brie"`,
`"Backstage passes to a TAFKAL80ETC concert"` and `"Sulfuras, Hand of Ragnaros"` select a special policy. Shortened
names such as `"Backstage passes"` or `"Sulfuras"` are regular items.

## Model

| member | source | states |
|---|---|---|
| `Policy.PassGain` | python/gilded_rose.py:50-54 | A backstage pass gets 1 to 3 increments before the concert: 3 exactly when the day's starting sell_in is below 6, and 1 exactly when it is 11 or more. |
| `Policy.StepKeepsQualityInRange` | python/gilded_rose.py:19-72 | One day under any concrete policy keeps a quality in [0,50] within [0,50]. |
| `Policy.DaysKeepQualityInRange` | python/gilded_rose.py:3-72 | A quality that starts in [0,50] stays in [0,50] after any number of days, for every policy. |
| `Policy.SulfurasNeverChanges` | python/gilded_rose.py:60-63 | Any number of Sulfuras days leave sell_in and quality unchanged, for every value including quality 80. |
| `Policy.DaysCountDownSellIn` | python/gilded_rose.py:27-72 | Under every policy except Sulfuras, n days lower sell_in by exactly n, with no lower bound. |
| `Policy.DaysCompose` | python/gilded_rose.py:84-96 | Running m days and then n more days is the same as running m + n days. |
| `Policy.AgedBrieGains` | python/gilded_rose.py:36-42 | Aged Brie never loses quality. Its new quality is min(q+1, 50) while the new sell_in is 0 or more, and min(q+2, 50) once it is negative. It always gains while below 50. |
| `Policy.RegularLoses` | python/gilded_rose.py:66-72 | A regular item never gains quality. Its new quality is max(q-1, 0) while the new sell_in is 0 or more, and max(q-2, 0) once it is negative. It always loses while above 0. |
| `Policy.BackstagePassWorthlessAfterConcert` | python/gilded_rose.py:55-57 | From a day that starts at sell_in 0 or below, a pass is worth exactly 0 after every later day, whatever its quality was. |
| `Policy.BackstagePassGains` | python/gilded_rose.py:49-54 | Before the concert a pass never loses quality and stays at most 50. Its new quality is min(q+3, 50) when the old sell_in is below 6, min(q+2, 50) from 6 to 10, and min(q+1, 50) from 11 on. Away from the cap the gain is 3, 2 or 1 exactly in those ranges. |
| `Items.Item.constructor` | python/gilded_rose.py:7-10 | A new item holds the given name, sell_in and quality. |
| `Items.Item.IncreaseQuality` | python/gilded_rose.py:19-21 | Quality becomes q+1 below 50 and 50 otherwise (min(q+1, 50)). Nothing else changes. |
| `Items.Item.DecreaseQuality` | python/gilded_rose.py:23-25 | Quality becomes q-1 above 0 and 0 otherwise (max(q-1, 0)). Nothing else changes. |
| `Items.Item.DecreaseSellIn` | python/gilded_rose.py:27-29 | sell_in goes down by exactly one. Nothing else changes. |
| `Items.Item.IsExpired` | python/gilded_rose.py:31-33 | A pure query on the item: expired iff sell_in < 0, so sell_in 0 is not expired. |
| `Items.Item.UpdateAgedBrie` | python/gilded_rose.py:36-42 | The Aged Brie steps (clamped increment, sell_in down, second increment if now expired) give exactly `Step(AgedBrie, old state)`. |
| `Items.Item.UpdateBackstagePass` | python/gilded_rose.py:45-57 | The backstage steps (up to three clamped increments on the old sell_in, sell_in down, reset to 0 if expired) give exactly `Step(BackstagePass, old state)`. |
| `Items.Item.UpdateSulfuras` | python/gilded_rose.py:60-63 | Sulfuras' update leaves the item exactly as it was. |
| `Items.Item.UpdateRegular` | python/gilded_rose.py:66-72 | The regular steps (clamped decrement, sell_in down, second decrement if now expired) give exactly `Step(Regular, old state)`. |
| `Items.Item.Update` | python/gilded_rose.py:15-17 | The abstract base update fails with NotImplemented and changes nothing. Every concrete class updates and runs its own policy. |
| `Shop.KindFor` | python/gilded_rose.py:88 | The lookup works on any table: a name the table holds gets its entry, and any other name gets the regular policy. With a table of concrete classes it never yields the raising base class. |
| `Shop.KindForMatchesExactName` | python/gilded_rose.py:78-82 | With the shop's table, each special policy is chosen iff the name equals its exact key. Every other name gets the regular policy. |
| `Shop.GildedRose.constructor` | python/gilded_rose.py:76-82 | The shop keeps the given list and installs the three-entry name table, whose classes are all concrete. |
| `Shop.GildedRose.UpdateItem` | python/gilded_rose.py:87-96 | One entry's class is looked up by name and its update is applied to that object's sell_in and quality. All other objects are untouched. |
| `Shop.GildedRose.UpdateQuality` | python/gilded_rose.py:84-96 | The list, its order and all names are unchanged. Each item's new state is its own policy applied once per occurrence of the item in the list, so exactly once without repeats. Quality starting in [0,50] stays there. |
| `Examples.OneDayScenarios` | python/gilded_rose.py:36-72 | Concrete days at the boundaries: Brie (0,10) becomes (-1,12), a pass at 0 drops to 0, a pass at 5 with 49 caps at 50, Sulfuras (10,80) is unchanged, and a regular item at quality 0 stays at 0. |
| `Examples.AgedBrieThreeDays` | python/gilded_rose.py:36-42 | Aged Brie starting at (2,10) goes 11, 12, then 14 on the day its sell_in turns negative. |

`Examples.ItemPrimitives`, `Examples.ShopDay` and `Examples.ShopListingTwice` are client methods with no contract.
They replay the unit tests' assertions on the item primitives, on the raising base update
(python/test_gilded_rose.py:9-49) and on whole-shop days.

## Left out

- `Item.__repr__` (display formatting) is not modelled.
- The source builds a transient subclass instance for each item and copies its `sell_in` and `quality` back. The
  model applies the selected policy to the item itself. The observable effect is the same, and the model does not
  capture the temporary object.
- Python's dynamic class dispatch becomes the `ItemKind` tag passed to `Item.Update`. Raising
  `NotImplementedError` becomes the `NotImplemented` outcome.
- `Shop.GildedRose.UpdateItem`, `Shop.GildedRose.UpdateQuality`: they require the shop's name table to map only to
  concrete classes. The constructor installs such a table. Replacing `item_types` from outside with a table that
  holds the base class is not modelled.
- Items created with a quality outside [0,50] are updated as the source updates them. Increments drop a quality
  above 50 to 50, and decrements lift one below 0 to 0. The bounds lemmas only speak of qualities that start in
  [0,50].
- Python's dynamic typing is not modelled: `sell_in` and `quality` are integers here. Python integers are
  unbounded, so there is no wrap-around to model.
