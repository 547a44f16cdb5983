/** The daily update rule of the Gilded Rose inventory, as pure functions.
    An item's name selects one of four categories by exact match; the category
    decides how one day changes the item's days remaining and quality. */
module Rules {

  const SulfurasName: string := "Sulfuras, Hand of Ragnaros"
  const AgedBrieName: string := "Aged Brie"
  const BackstagePassName: string := "Backstage passes to a TAFKAL80ETC concert"

  /** Bounds on the quality of every item except the legendary one. */
  const MinQuality: int := 0
  const MaxQuality: int := 50
  /** The quality a legendary item conventionally carries, forever. */
  const LegendaryQuality: int := 80

  datatype Category = Normal | AgedBrie | BackstagePass | Legendary

  /** The two numeric attributes of an item; the name is not part of it because
      a tick never changes the name. */
  datatype ItemState = ItemState(daysRemaining: int, quality: int)

  /** Dispatch on the exact name; any unknown name is a normal item. */
  function CategoryOf(name: string): (c: Category)
    ensures c == Legendary <==> name == SulfurasName
    ensures c == AgedBrie <==> name == AgedBrieName
    ensures c == BackstagePass <==> name == BackstagePassName
    ensures c == Normal <==> name !in {SulfurasName, AgedBrieName, BackstagePassName}
  {
    if name == SulfurasName then Legendary
    else if name == AgedBrieName then AgedBrie
    else if name == BackstagePassName then BackstagePass
    else Normal
  }

  /** The range every tick keeps a quality in: exactly 80 for the legendary
      item, [0, 50] for every other category. */
  predicate QualityInRange(c: Category, quality: int)
  {
    if c == Legendary then quality == LegendaryQuality
    else MinQuality <= quality <= MaxQuality
  }

  /** Normal item: one point a day before the sell date, two on or after it,
      never below zero. `daysRemaining` is the value before the tick. */
  function NormalQuality(daysRemaining: int, quality: int): (q: int)
    ensures q >= MinQuality
    ensures daysRemaining > 0 && quality >= MinQuality + 1 ==> q == quality - 1
    ensures daysRemaining <= 0 && quality >= MinQuality + 2 ==> q == quality - 2
    ensures daysRemaining > 0 && quality <= MinQuality + 1 ==> q == MinQuality
    ensures daysRemaining <= 0 && quality <= MinQuality + 2 ==> q == MinQuality
  {
    var lowered := quality - (if daysRemaining > 0 then 1 else 2);
    if lowered < MinQuality then MinQuality else lowered
  }

  /** Aged Brie: one point better a day, two once the sell date has come
      (the decremented day count is below zero), never above 50.
      `daysRemaining` is the value before the tick. */
  function AgedBrieQuality(daysRemaining: int, quality: int): (q: int)
    ensures q <= MaxQuality
    ensures daysRemaining > 0 && quality <= MaxQuality - 1 ==> q == quality + 1
    ensures daysRemaining <= 0 && quality <= MaxQuality - 2 ==> q == quality + 2
    ensures daysRemaining > 0 && quality >= MaxQuality - 1 ==> q == MaxQuality
    ensures daysRemaining <= 0 && quality >= MaxQuality - 2 ==> q == MaxQuality
  {
    var raised := quality + 1;
    var raised' := if daysRemaining - 1 < 0 then raised + 1 else raised;
    if raised' > MaxQuality then MaxQuality else raised'
  }

  /** Backstage passes: better by 1 with more than ten days to go, by 2 with
      six to ten, by 3 with one to five, never above 50; worthless once the
      concert day has come. `daysRemaining` is the value before the tick. */
  function BackstagePassQuality(daysRemaining: int, quality: int): (q: int)
    ensures daysRemaining <= 0 ==> q == 0
    ensures daysRemaining > 0 ==> q <= MaxQuality
    ensures daysRemaining > 10 && quality <= MaxQuality - 1 ==> q == quality + 1
    ensures 5 < daysRemaining <= 10 && quality <= MaxQuality - 2 ==> q == quality + 2
    ensures 0 < daysRemaining <= 5 && quality <= MaxQuality - 3 ==> q == quality + 3
    ensures daysRemaining > 10 && quality >= MaxQuality - 1 ==> q == MaxQuality
    ensures 5 < daysRemaining <= 10 && quality >= MaxQuality - 2 ==> q == MaxQuality
    ensures 0 < daysRemaining <= 5 && quality >= MaxQuality - 3 ==> q == MaxQuality
  {
    if daysRemaining <= 0 then 0
    else
      var gain := if daysRemaining > 10 then 1 else if daysRemaining > 5 then 2 else 3;
      if quality + gain > MaxQuality then MaxQuality else quality + gain
  }

  /** One day for an item called `name` whose attributes were `s`. */
  function NextState(name: string, s: ItemState): (r: ItemState)
    ensures CategoryOf(name) == Legendary ==> r == s
    ensures CategoryOf(name) != Legendary ==> r.daysRemaining == s.daysRemaining - 1
    ensures QualityInRange(CategoryOf(name), s.quality) ==> QualityInRange(CategoryOf(name), r.quality)
    ensures CategoryOf(name) == AgedBrie && s.quality <= MaxQuality ==> r.quality >= s.quality
    ensures CategoryOf(name) == Normal && s.quality >= MinQuality ==> r.quality <= s.quality
    ensures CategoryOf(name) == BackstagePass && s.daysRemaining <= 0 ==> r.quality == 0
  {
    match CategoryOf(name)
    case Legendary => s
    case AgedBrie => ItemState(s.daysRemaining - 1, AgedBrieQuality(s.daysRemaining, s.quality))
    case BackstagePass => ItemState(s.daysRemaining - 1, BackstagePassQuality(s.daysRemaining, s.quality))
    case Normal => ItemState(s.daysRemaining - 1, NormalQuality(s.daysRemaining, s.quality))
  }
}
