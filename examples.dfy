/** The inventory's documented examples, one client method per kind of item:
    each builds items, ticks each once and returns what its attributes read
    afterwards, in the order the examples are listed. The ensures clauses are
    the expected attributes; the bodies use only the contracts of
    `GildedRose`. */
module Examples {
  import opened Rules
  import opened Inventory

  /** Builds an item, ticks it once and reads its attributes. */
  method TickOnce(name: string, daysRemaining: int, quality: int) returns (after: ItemState)
    ensures after == NextState(name, ItemState(daysRemaining, quality))
  {
    var item := new GildedRose(name, daysRemaining, quality);
    item.Tick();
    after := ItemState(item.daysRemaining, item.quality);
  }

  method NormalItemTicks() returns (after: seq<ItemState>)
    ensures after == [ItemState(-11, 8), ItemState(-1, 8), ItemState(4, 9), ItemState(-1, 8), ItemState(4, 0)]
  {
    var a := TickOnce("Normal Item", -10, 10);
    var b := TickOnce("Normal Item", 0, 10);
    var c := TickOnce("Normal Item", 5, 10);
    var d := TickOnce("Normal Item", 0, 10);
    var e := TickOnce("Normal Item", 5, 0);
    after := [a, b, c, d, e];
  }

  method AgedBrieTicks() returns (after: seq<ItemState>)
    ensures after == [ItemState(4, 11), ItemState(4, 50), ItemState(-1, 12), ItemState(-1, 50),
                      ItemState(-1, 50), ItemState(-11, 12), ItemState(-11, 50)]
  {
    var a := TickOnce(AgedBrieName, 5, 10);
    var b := TickOnce(AgedBrieName, 5, 50);
    var c := TickOnce(AgedBrieName, 0, 10);
    var d := TickOnce(AgedBrieName, 0, 49);
    var e := TickOnce(AgedBrieName, 0, 50);
    var f := TickOnce(AgedBrieName, -10, 10);
    var g := TickOnce(AgedBrieName, -10, 50);
    after := [a, b, c, d, e, f, g];
  }

  method SulfurasTicks() returns (after: seq<ItemState>)
    ensures after == [ItemState(5, 80), ItemState(0, 80), ItemState(-10, 80)]
  {
    var a := TickOnce(SulfurasName, 5, 80);
    var b := TickOnce(SulfurasName, 0, 80);
    var c := TickOnce(SulfurasName, -10, 80);
    after := [a, b, c];
  }

  method BackstagePassTicks() returns (after: seq<ItemState>)
    ensures after == [ItemState(10, 11), ItemState(10, 50), ItemState(9, 12), ItemState(9, 50),
                      ItemState(5, 12), ItemState(5, 50), ItemState(4, 13), ItemState(4, 50),
                      ItemState(0, 13), ItemState(0, 50), ItemState(-1, 0), ItemState(-11, 0)]
  {
    var a := TickOnce(BackstagePassName, 11, 10);
    var b := TickOnce(BackstagePassName, 11, 50);
    var c := TickOnce(BackstagePassName, 10, 10);
    var d := TickOnce(BackstagePassName, 10, 50);
    var e := TickOnce(BackstagePassName, 6, 10);
    var f := TickOnce(BackstagePassName, 6, 50);
    var g := TickOnce(BackstagePassName, 5, 10);
    var h := TickOnce(BackstagePassName, 5, 50);
    var i := TickOnce(BackstagePassName, 1, 10);
    var j := TickOnce(BackstagePassName, 1, 50);
    var k := TickOnce(BackstagePassName, 0, 10);
    var l := TickOnce(BackstagePassName, -10, 10);
    after := [a, b, c, d, e, f, g, h, i, j, k, l];
  }
}
