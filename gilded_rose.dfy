/**
 * The shop: a list of items and the nightly update that picks each item's
 * class by exact name and applies that class's policy to the item in place.
 */
module Shop {
  import opened Policy
  import opened Items

  const AgedBrieName: string := "Aged Brie"
  const BackstagePassName: string := "Backstage passes to a TAFKAL80ETC concert"
  const SulfurasName: string := "Sulfuras, Hand of Ragnaros"

  /** The shop's table of names with a class of their own. */
  const ItemTypes: map<string, ItemKind> :=
    map[AgedBrieName := AgedBrie, BackstagePassName := BackstagePass, SulfurasName := Sulfuras]

  /** A table whose entries are all concrete classes, never the abstract base. */
  predicate Concrete(types: map<string, ItemKind>)
  {
    Base !in types.Values
  }

  /**
   * The class an item named `name` is updated as: its entry in `types`, or the
   * regular policy for a name the table does not hold. With a concrete table
   * the result is never the abstract base, so its raising update is unreachable.
   */
  function KindFor(types: map<string, ItemKind>, name: string): (kind: ItemKind)
    ensures name in types ==> kind == types[name]
    ensures name !in types ==> kind == Regular
    ensures Concrete(types) ==> kind != Base
  {
    if name in types then types[name] else Regular
  }

  /** With the shop's table the lookup is by exact name, and every other name is a regular item. */
  lemma KindForMatchesExactName(name: string)
    ensures Concrete(ItemTypes)
    ensures KindFor(ItemTypes, name) == AgedBrie <==> name == AgedBrieName
    ensures KindFor(ItemTypes, name) == BackstagePass <==> name == BackstagePassName
    ensures KindFor(ItemTypes, name) == Sulfuras <==> name == SulfurasName
    ensures KindFor(ItemTypes, name) == Regular <==> name !in {AgedBrieName, BackstagePassName, SulfurasName}
  {
    // The three names differ in length, so the table has three distinct keys.
    assert |AgedBrieName| == 9 && |BackstagePassName| == 41 && |SulfurasName| == 26;
    assert ItemTypes.Keys == {AgedBrieName, BackstagePassName, SulfurasName};
    assert ItemTypes.Values == {AgedBrie, BackstagePass, Sulfuras};
  }

  /** No object occurs twice in `s`. */
  predicate Distinct<T(==)>(s: seq<T>)
  {
    forall i, j :: 0 <= i < j < |s| ==> s[i] != s[j]
  }

  /** How many times `x` occurs in `s`. */
  function Occurrences<T(==)>(s: seq<T>, x: T): nat
  {
    if s == [] then 0 else Occurrences(s[..|s| - 1], x) + (if s[|s| - 1] == x then 1 else 0)
  }

  /** `Occurrences` is the multiplicity of `x` in the multiset of `s`. */
  lemma {:induction false} OccurrencesIsMultiplicity<T>(s: seq<T>, x: T)
    ensures Occurrences(s, x) == multiset(s)[x]
  {
    if s != [] {
      var last := |s| - 1;
      assert s == s[..last] + [s[last]];
      OccurrencesIsMultiplicity(s[..last], x);
    }
  }

  /** A value absent from `s` occurs in it zero times. */
  lemma {:induction false} AbsentNeverOccurs<T>(s: seq<T>, x: T)
    requires x !in s
    ensures Occurrences(s, x) == 0
  {
    if s != [] {
      assert s[|s| - 1] != x;
      AbsentNeverOccurs(s[..|s| - 1], x);
    }
  }

  /** In a sequence without repeats every element occurs exactly once. */
  lemma {:induction false} DistinctOccursOnce<T>(s: seq<T>, i: nat)
    requires Distinct(s)
    requires i < |s|
    ensures Occurrences(s, s[i]) == 1
  {
    var last := |s| - 1;
    var init := s[..last];
    if i == last {
      assert s[last] !in init by {
        forall k | 0 <= k < last ensures init[k] != s[last] {
          assert s[k] != s[last];
        }
      }
      AbsentNeverOccurs(init, s[last]);
    } else {
      assert Distinct(init) by {
        forall a, b | 0 <= a < b < last ensures init[a] != init[b] {
          assert s[a] != s[b];
        }
      }
      DistinctOccursOnce(init, i);
      assert init[i] == s[i] && s[last] != s[i];
    }
  }

  /** Taking one more element of `s` adds one occurrence of that element and no other. */
  lemma OccurrencesAfterAppend<T>(s: seq<T>, n: nat, x: T)
    requires n < |s|
    ensures Occurrences(s[..n + 1], x) == Occurrences(s[..n], x) + (if x == s[n] then 1 else 0)
  {
    assert s[..n + 1][..n] == s[..n];
  }

  /** Aging an entry once more, or leaving it, in terms of its day count. */
  lemma DaysOneMore(kind: ItemKind, count: nat, s: ItemState, again: bool)
    requires kind != Base
    ensures (if again then Step(kind, Days(kind, count, s)) else Days(kind, count, s))
         == Days(kind, count + (if again then 1 else 0), s)
  {
  }

  class GildedRose {
    var items: seq<Item>
    const itemTypes: map<string, ItemKind>

    constructor (items: seq<Item>)
      ensures this.items == items
      ensures itemTypes == ItemTypes && Concrete(itemTypes)
    {
      this.items := items;
      this.itemTypes := ItemTypes;
      KindForMatchesExactName(AgedBrieName);
    }

    /**
     * One entry's part of the nightly update: the class of `stock[n]` is looked
     * up by name and that class's update is applied to the item's own fields,
     * which every entry holding the same object sees.
     */
    method UpdateItem(stock: seq<Item>, n: nat)
      requires Concrete(itemTypes)
      requires n < |stock|
      modifies stock[n]
      ensures forall i :: 0 <= i < |stock| ==> stock[i].name == old(stock[i].name)
      ensures forall i :: 0 <= i < |stock| ==>
        stock[i].State() == if stock[i] == stock[n]
          then Step(KindFor(itemTypes, stock[i].name), old(stock[i].State()))
          else old(stock[i].State())
    {
      var item := stock[n];
      var outcome := item.Update(KindFor(itemTypes, item.name));
      assert outcome == Updated;
    }

    /**
     * One elapsed day for the whole shop. The list itself, its order and every
     * name stay as they are; every item's sell_in and quality are what its
     * class's policy makes of its own previous values, once per occurrence of
     * the item in the list (so exactly once when no item is listed twice).
     */
    method UpdateQuality()
      requires Concrete(itemTypes)
      modifies items
      ensures items == old(items)
      ensures forall i :: 0 <= i < |items| ==> items[i].name == old(items[i].name)
      ensures forall i :: 0 <= i < |items| ==>
        items[i].State() == Days(KindFor(itemTypes, items[i].name), Occurrences(items, items[i]), old(items[i].State()))
      ensures Distinct(items) ==> forall i :: 0 <= i < |items| ==>
        items[i].State() == Step(KindFor(itemTypes, items[i].name), old(items[i].State()))
      ensures forall i :: 0 <= i < |items| && InRange(old(items[i].quality)) ==> InRange(items[i].quality)
    {
      var stock := items;
      var n := 0;
      while n < |stock|
        invariant 0 <= n <= |stock|
        invariant forall i :: 0 <= i < |stock| ==> stock[i].name == old(stock[i].name)
        invariant forall i :: 0 <= i < |stock| ==>
          stock[i].State() == Days(KindFor(itemTypes, stock[i].name), Occurrences(stock[..n], stock[i]), old(stock[i].State()))
      {
        UpdateItem(stock, n);
        forall i | 0 <= i < |stock|
          ensures stock[i].State()
               == Days(KindFor(itemTypes, stock[i].name), Occurrences(stock[..n + 1], stock[i]), old(stock[i].State()))
        {
          OccurrencesAfterAppend(stock, n, stock[i]);
          DaysOneMore(KindFor(itemTypes, stock[i].name), Occurrences(stock[..n], stock[i]),
                      old(stock[i].State()), stock[i] == stock[n]);
        }
        n := n + 1;
      }
      assert stock[..n] == stock;
      forall i | 0 <= i < |stock| && InRange(old(stock[i].quality))
        ensures InRange(stock[i].quality)
      {
        DaysKeepQualityInRange(KindFor(itemTypes, stock[i].name), Occurrences(stock, stock[i]), old(stock[i].State()));
      }
      if Distinct(stock) {
        forall i | 0 <= i < |stock|
          ensures stock[i].State() == Step(KindFor(itemTypes, stock[i].name), old(stock[i].State()))
        {
          DistinctOccursOnce(stock, i);
        }
      }
    }
  }
}
