/**
 * An inventory item as a mutable record, with the clamped quality mutators and
 * the four update policies written as the step-by-step mutations they are.
 * Each policy is proved to agree with the closed-form `Policy.Step`.
 */
module Items {
  import opened Policy

  /** What asking an item to update itself does: the update ran, or the abstract base raised. */
  datatype Outcome = Updated | NotImplemented

  class Item {
    var name: string
    var sellIn: int
    var quality: int

    constructor (name: string, sellIn: int, quality: int)
      ensures this.name == name && this.sellIn == sellIn && this.quality == quality
    {
      this.name := name;
      this.sellIn := sellIn;
      this.quality := quality;
    }

    /** The two fields an update may change. */
    function State(): ItemState
      reads this
    {
      ItemState(sellIn, quality)
    }

    /** Adds one to quality, saturating at 50. */
    method IncreaseQuality()
      modifies this`quality
      ensures quality <= MaxQuality
      ensures old(quality) < MaxQuality ==> quality == old(quality) + 1
      ensures old(quality) >= MaxQuality ==> quality == MaxQuality
    {
      quality := Min(quality + 1, MaxQuality);
    }

    /** Takes one from quality, saturating at 0. */
    method DecreaseQuality()
      modifies this`quality
      ensures quality >= MinQuality
      ensures old(quality) > MinQuality ==> quality == old(quality) - 1
      ensures old(quality) <= MinQuality ==> quality == MinQuality
    {
      quality := Max(quality - 1, MinQuality);
    }

    /** Counts sell_in down by one, with no lower bound. */
    method DecreaseSellIn()
      modifies this`sellIn
      ensures sellIn == old(sellIn) - 1
    {
      sellIn := sellIn - 1;
    }

    /** Whether the item is past its sell-by date: sell_in strictly negative. */
    function IsExpired(): (expired: bool)
      reads this
      ensures expired <==> Expired(sellIn)
      ensures sellIn == 0 ==> !expired
    {
      sellIn < 0
    }

    /** Aged Brie: one increment, the day passes, one more increment once expired. */
    method UpdateAgedBrie()
      modifies this`sellIn, this`quality
      ensures State() == Step(AgedBrie, old(State()))
    {
      IncreaseQuality();
      DecreaseSellIn();
      if IsExpired() {
        IncreaseQuality();
      }
    }

    /**
     * Backstage pass: one increment, one more below 11 days and one more below
     * 6 days (judged before the day passes); once expired, quality is reset to 0.
     */
    method UpdateBackstagePass()
      modifies this`sellIn, this`quality
      ensures State() == Step(BackstagePass, old(State()))
    {
      IncreaseQuality();
      if sellIn < 11 {
        IncreaseQuality();
      }
      if sellIn < 6 {
        IncreaseQuality();
      }
      DecreaseSellIn();
      if IsExpired() {
        quality := 0;
      }
    }

    /** Sulfuras: nothing changes. */
    method UpdateSulfuras()
      modifies this`sellIn, this`quality
      ensures State() == Step(Sulfuras, old(State()))
    {
    }

    /** Regular item: one decrement, the day passes, one more decrement once expired. */
    method UpdateRegular()
      modifies this`sellIn, this`quality
      ensures State() == Step(Regular, old(State()))
    {
      DecreaseQuality();
      DecreaseSellIn();
      if IsExpired() {
        DecreaseQuality();
      }
    }

    /**
     * The update of an item of class `kind`: the abstract base raises and
     * changes nothing; each concrete class runs its own policy.
     */
    method Update(kind: ItemKind) returns (outcome: Outcome)
      modifies this`sellIn, this`quality
      ensures outcome == NotImplemented <==> kind == Base
      ensures kind == Base ==> State() == old(State())
      ensures kind != Base ==> State() == Step(kind, old(State()))
    {
      match kind
      case Base =>
        outcome := NotImplemented;
      case AgedBrie =>
        UpdateAgedBrie();
        outcome := Updated;
      case BackstagePass =>
        UpdateBackstagePass();
        outcome := Updated;
      case Sulfuras =>
        UpdateSulfuras();
        outcome := Updated;
      case Regular =>
        UpdateRegular();
        outcome := Updated;
    }
  }
}
