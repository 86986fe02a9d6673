/**
 * The daily update policies of the Gilded Rose inventory, as pure functions on
 * an item's (sell_in, quality) pair. This is the specification the imperative
 * Item methods are proved against.
 */
module Policy {

  /** Upper and lower bounds of the clamped quality mutators. */
  const MaxQuality: int := 50
  const MinQuality: int := 0

  /** The two fields a daily update may change. */
  datatype ItemState = ItemState(sellIn: int, quality: int)

  /**
   * The class an item is updated as: the abstract base item, whose update
   * raises, or one of the four concrete policies.
   */
  datatype ItemKind = Base | AgedBrie | BackstagePass | Sulfuras | Regular

  function Min(a: int, b: int): int { if a < b then a else b }

  function Max(a: int, b: int): int { if a > b then a else b }

  /** An item is expired once its sell_in is strictly negative; 0 is not expired. */
  predicate Expired(sellIn: int) { sellIn < 0 }

  predicate InRange(quality: int) { MinQuality <= quality <= MaxQuality }

  /**
   * How many clamped increments a backstage pass receives before the concert,
   * judged on the sell_in the day starts with.
   */
  function PassGain(sellIn: int): (g: int)
    ensures 1 <= g <= 3
    ensures g == 3 <==> sellIn < 6
    ensures g == 1 <==> sellIn >= 11
  {
    1 + (if sellIn < 11 then 1 else 0) + (if sellIn < 6 then 1 else 0)
  }

  /**
   * One elapsed day under the policy of `kind`, in closed form: sell_in goes
   * down by one (except for Sulfuras), and quality moves by the total number of
   * steps the policy takes that day, clamped once.
   */
  function Step(kind: ItemKind, s: ItemState): ItemState
    requires kind != Base
  {
    var d := s.sellIn - 1;
    match kind
    case Sulfuras => s
    case AgedBrie => ItemState(d, Min(s.quality + (if Expired(d) then 2 else 1), MaxQuality))
    case BackstagePass => ItemState(d, if Expired(d) then 0 else Min(s.quality + PassGain(s.sellIn), MaxQuality))
    case Regular => ItemState(d, Max(s.quality - (if Expired(d) then 2 else 1), MinQuality))
  }

  /** `n` elapsed days: `Step` applied `n` times. */
  function Days(kind: ItemKind, n: nat, s: ItemState): ItemState
    requires kind != Base
    decreases n
  {
    if n == 0 then s else Step(kind, Days(kind, n - 1, s))
  }

  /** A day never takes a quality that starts in [0,50] out of [0,50]. */
  lemma StepKeepsQualityInRange(kind: ItemKind, s: ItemState)
    requires kind != Base
    requires InRange(s.quality)
    ensures InRange(Step(kind, s).quality)
  {
  }

  /** Quality that starts in [0,50] stays in [0,50] over any number of days. */
  lemma {:induction false} DaysKeepQualityInRange(kind: ItemKind, n: nat, s: ItemState)
    requires kind != Base
    requires InRange(s.quality)
    ensures InRange(Days(kind, n, s).quality)
  {
    if n > 0 {
      DaysKeepQualityInRange(kind, n - 1, s);
      StepKeepsQualityInRange(kind, Days(kind, n - 1, s));
    }
  }

  /** Sulfuras never changes, whatever its sell_in and quality (80 included). */
  lemma {:induction false} SulfurasNeverChanges(n: nat, s: ItemState)
    ensures Days(Sulfuras, n, s) == s
  {
    if n > 0 {
      SulfurasNeverChanges(n - 1, s);
    }
  }

  /** Every other policy counts sell_in down by exactly one per day, without bound. */
  lemma {:induction false} DaysCountDownSellIn(kind: ItemKind, n: nat, s: ItemState)
    requires kind != Base && kind != Sulfuras
    ensures Days(kind, n, s).sellIn == s.sellIn - n
  {
    if n > 0 {
      DaysCountDownSellIn(kind, n - 1, s);
    }
  }

  /** Running `m` days and then `n` more is the same as running `m + n` days. */
  lemma {:induction false} DaysCompose(kind: ItemKind, m: nat, n: nat, s: ItemState)
    requires kind != Base
    ensures Days(kind, m + n, s) == Days(kind, n, Days(kind, m, s))
    decreases n
  {
    if n > 0 {
      DaysCompose(kind, m, n - 1, s);
    }
  }

  /**
   * Aged Brie never loses quality, gains one a day before it expires and two a
   * day once the new sell_in is negative, never beyond 50.
   */
  lemma AgedBrieGains(s: ItemState)
    requires InRange(s.quality)
    ensures var r := Step(AgedBrie, s);
      && s.quality <= r.quality <= MaxQuality
      && (Expired(r.sellIn) ==> r.quality == Min(s.quality + 2, MaxQuality))
      && (!Expired(r.sellIn) ==> r.quality == Min(s.quality + 1, MaxQuality))
      && (s.quality < MaxQuality ==> s.quality < r.quality)
  {
  }

  /**
   * A regular item never gains quality, loses one a day before it expires and
   * two a day once the new sell_in is negative, never below 0.
   */
  lemma RegularLoses(s: ItemState)
    requires InRange(s.quality)
    ensures var r := Step(Regular, s);
      && MinQuality <= r.quality <= s.quality
      && (s.quality > MinQuality ==> r.quality < s.quality)
      && (Expired(r.sellIn) ==> r.quality == Max(s.quality - 2, MinQuality))
      && (!Expired(r.sellIn) ==> r.quality == Max(s.quality - 1, MinQuality))
  {
  }

  /**
   * A backstage pass is worth exactly 0 from the day its sell_in turns
   * negative on, whatever its quality was.
   */
  lemma {:induction false} BackstagePassWorthlessAfterConcert(n: nat, s: ItemState)
    requires n >= 1
    requires s.sellIn <= 0
    ensures Days(BackstagePass, n, s).quality == 0
    ensures Days(BackstagePass, n, s).sellIn == s.sellIn - n
  {
    if n > 1 {
      BackstagePassWorthlessAfterConcert(n - 1, s);
    }
  }

  /**
   * Before the concert a pass gains one, two or three (clamped at 50) according
   * to the sell_in the day starts with: three when below 6, two when below 11.
   */
  lemma BackstagePassGains(s: ItemState)
    requires InRange(s.quality)
    requires s.sellIn >= 1
    ensures var r := Step(BackstagePass, s);
      && s.quality <= r.quality <= MaxQuality
      && (s.sellIn < 6 ==> r.quality == Min(s.quality + 3, MaxQuality))
      && (6 <= s.sellIn < 11 ==> r.quality == Min(s.quality + 2, MaxQuality))
      && (11 <= s.sellIn ==> r.quality == Min(s.quality + 1, MaxQuality))
      && (s.quality + 3 <= MaxQuality ==>
            (r.quality - s.quality == 3 <==> s.sellIn < 6)
            && (r.quality - s.quality == 2 <==> 6 <= s.sellIn < 11)
            && (r.quality - s.quality == 1 <==> s.sellIn >= 11))
  {
  }
}
