# Gilded Rose: the daily quality rule

A `GildedRose` item has a name, a signed number of days remaining until its
sell date, and an integer quality. One call to `tick` moves the item forward
one day and updates both numbers in place. The rule is chosen by an exact
match on the name:

- **"Sulfuras, Hand of Ragnaros"** (legendary): nothing changes.
- **"Aged Brie"**: the quality goes up by 1 a day. It goes up by 2 once the
  decremented day count is below zero. It never goes above 50.
- **"Backstage passes to a TAFKAL80ETC concert"**: the quality goes up by 1
  with more than ten days left, by 2 with six to ten days, and by 3 with one to
  five days, capped at 50. It drops to 0 once the concert day has come.
- **any other name**: the quality goes down by 1 a day, or by 2 on or after
  the sell date. It never goes below 0.

Every item except the legendary one loses exactly one day per tick, with no
lower bound.

The project has four modules:

- `Rules` (`rules.dfy`) holds the rule as pure functions. `CategoryOf` turns
  the name into a category, one per rule. There is one quality function per
  category, and `NextState` gives the attributes after one tick.
- `Aging` (`aging.dfy`) repeats the tick day after day (`AfterDays`). It
  proves by induction the invariants and limits of the rule.
- `Inventory` (`inventory.dfy`) is the item as the program holds it: class
  `GildedRose` with mutable `daysRemaining` and `quality`. Its `Tick` method
  changes them step by step, in the order the rule is described. The day count
  is decremented first. Aged Brie judges its sell date by the new count;
  backstage passes and normal items judge theirs by the count from before the
  tick. `Tick` is proved to produce exactly `Rules.NextState`.
- `Examples` (`examples.dfy`) writes the documented examples as client code.
  Each example builds an item, ticks it once and reads its attributes. The
  expected values are proved from `GildedRose`'s contracts alone.

The file that implements `GildedRose` (`lib/gilded_rose.rb`) is not part of
this model. The rule here follows the examples in
`spec/gilded_rose_spec.rb`. Every example starts with a quality from 0 to 50,
or 80 for Sulfuras. What a tick does to a quality outside that range is this
model's own choice; "## Left out" describes it.

## Model

| member | source | states |
|---|---|---|
| `Rules.CategoryOf` | spec/gilded_rose_spec.rb:89-229 | each of the three special names selects its own rule, if and only if the name matches exactly; every other name is a normal item |
| `Rules.NormalQuality` | spec/gilded_rose_spec.rb:13-87 | a normal item loses 1 point while days remaining > 0 and 2 points when days remaining ≤ 0; the result is never below 0, and a quality at or under the loss ends at exactly 0 |
| `Rules.AgedBrieQuality` | spec/gilded_rose_spec.rb:89-95 | Aged Brie gains 1 point while days remaining > 0 and 2 when days remaining ≤ 0; the result is never above 50, and 49 or 50 ends at exactly 50 |
| `Rules.BackstagePassQuality` | spec/gilded_rose_spec.rb:124-229 | a pass gains 1 when days remaining > 10, 2 for 6 to 10 days and 3 for 1 to 5 days, never above 50 (exactly 50 when the gain would pass it); it becomes exactly 0 when days remaining ≤ 0 |
| `Rules.NextState` | spec/gilded_rose_spec.rb:12-229 | Sulfuras is left entirely unchanged; every other item loses exactly one day; a quality in its category's range (80 for Sulfuras, 0 to 50 otherwise) stays in it; Brie never loses and a normal item never gains; a pass is worth 0 after the concert day |
| `Aging.DaysCountDown` | spec/gilded_rose_spec.rb:89-122 | after n ticks every item but Sulfuras has exactly n fewer days, with no lower bound; Sulfuras is unchanged after any number of ticks |
| `Aging.RangeKept` | spec/gilded_rose_spec.rb:80-95 | a quality that starts in its category's range stays in that range for any number of ticks |
| `Aging.BackstagePassWorthlessAfterConcert` | spec/gilded_rose_spec.rb:213-229 | a pass with days remaining ≤ 0 has quality 0 after every number of ticks from one on |
| `Aging.AgedBrieNeverWorsens` | spec/gilded_rose_spec.rb:89-95 | Aged Brie with quality at most 50 never has less quality after any number of ticks |
| `Aging.AgedBrieReachesMax` | spec/gilded_rose_spec.rb:89-95 | Aged Brie with quality q ≤ 50 has quality exactly 50 after any 50 − q or more ticks |
| `Aging.NormalNeverImproves` | spec/gilded_rose_spec.rb:59-87 | a normal item with non-negative quality never has more quality after any number of ticks |
| `Aging.NormalWorthlessEventually` | spec/gilded_rose_spec.rb:80-87 | a normal item with quality q ≥ 0 has quality exactly 0 after q or more ticks |
| `Inventory.GildedRose.constructor` | spec/gilded_rose_spec.rb:53 | the new item holds the given name, days remaining and quality |
| `Inventory.GildedRose.Tick` | spec/gilded_rose_spec.rb:12-229 | the fields after the tick are `NextState` of the fields before; the name never changes; Sulfuras is left unchanged; every other item loses exactly one day; an in-range quality stays in range |
| `Examples.TickOnce` | spec/gilded_rose_spec.rb:51-57 | building an item, ticking it once and reading its attributes yields `NextState` of the given attributes |
| `Examples.NormalItemTicks` | spec/gilded_rose_spec.rb:13-87 | the normal-item examples: (-10, 10) → (-11, 8), (0, 10) → (-1, 8), (5, 10) → (4, 9), (5, 0) → (4, 0) |
| `Examples.AgedBrieTicks` | spec/gilded_rose_spec.rb:89-95 | the seven Aged Brie examples, including (0, 49) → (-1, 50) and (-10, 50) → (-11, 50) |
| `Examples.SulfurasTicks` | spec/gilded_rose_spec.rb:97-122 | Sulfuras at 5, 0 and -10 days with quality 80 is unchanged |
| `Examples.BackstagePassTicks` | spec/gilded_rose_spec.rb:124-229 | the twelve backstage-pass examples, from (11, 10) → (10, 11) to (-10, 10) → (-11, 0) |

## Left out

- The "Conjured Mana Cake" examples (spec/gilded_rose_spec.rb:231-283) are disabled. The rule they describe, degrading twice as fast, is not implemented. A conjured item is a normal item here.
- The no-argument constructor (spec/gilded_rose_spec.rb:5) is not modelled. Its default attributes are not visible.
- The class-identity checks (spec/gilded_rose_spec.rb:8-10, 72) are not modelled. Every item in the model is a `GildedRose` by its type.
- The objects built but never ticked or checked (spec/gilded_rose_spec.rb:61-62) are not modelled.
- Rules.NextState: for a quality outside 0 to 50 before a tick, which no example covers, two promises hold only for input already in range. First, a non-legendary item does not always end the tick with quality in 0 to 50. Second, Aged Brie does not always keep or gain quality. The model clamps only on the side the rule moves toward. Aged Brie and backstage passes are capped at 50, so a Brie of 60 drops to 50. A normal item is floored at 0, so -5 becomes 0. A normal item that starts above 50 is not pulled into range: 60 becomes 59. A Brie that starts below 0 is not either: -10 becomes -9. Clamping on both sides would break the never-loses promise for Brie. Guarding each step instead would break the range promise. No single behaviour keeps both, so the model keeps neither for out-of-range input.
- Loading, listing or displaying items, and ticking a whole inventory, are not part of the model. Items are independent, so a whole inventory is ticked item by item.
