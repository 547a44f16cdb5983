/** The inventory item as the program holds it: an object whose days remaining
    and quality a daily tick changes in place. */
module Inventory {
  import opened Rules

  class GildedRose {
    const name: string
    var daysRemaining: int
    var quality: int

    /** The two attributes a tick changes, as a value. */
    function State(): ItemState
      reads this
    {
      ItemState(daysRemaining, quality)
    }

    constructor (name: string, daysRemaining: int, quality: int)
      ensures this.name == name
      ensures this.daysRemaining == daysRemaining && this.quality == quality
    {
      this.name := name;
      this.daysRemaining := daysRemaining;
      this.quality := quality;
    }

    /** Moves the item forward one day. The day count is decremented first;
        Aged Brie then judges its sell date by the new count, backstage passes
        and normal items by the count from before the tick. */
    method Tick()
      modifies this
      ensures State() == NextState(name, old(State()))
      ensures name == SulfurasName ==> unchanged(this)
      ensures name != SulfurasName ==> daysRemaining == old(daysRemaining) - 1
      ensures QualityInRange(CategoryOf(name), old(quality)) ==> QualityInRange(CategoryOf(name), quality)
    {
      if name == SulfurasName {
        return;
      }
      var before := daysRemaining;
      daysRemaining := daysRemaining - 1;
      if name == AgedBrieName {
        quality := quality + 1;
        if daysRemaining < 0 {
          quality := quality + 1;
        }
        if quality > MaxQuality {
          quality := MaxQuality;
        }
      } else if name == BackstagePassName {
        if before <= 0 {
          quality := 0;
        } else {
          if before > 10 {
            quality := quality + 1;
          } else if before > 5 {
            quality := quality + 2;
          } else {
            quality := quality + 3;
          }
          if quality > MaxQuality {
            quality := MaxQuality;
          }
        }
      } else {
        quality := quality - 1;
        if before <= 0 {
          quality := quality - 1;
        }
        if quality < MinQuality {
          quality := MinQuality;
        }
      }
    }
  }
}
