/** What the daily rule implies over many days: the item is ticked once per
    day, and each property below is an invariant or a limit of that rule. */
module Aging {
  import opened Rules

  /** The attributes of an item called `name` after `n` daily ticks. */
  function AfterDays(name: string, s: ItemState, n: nat): ItemState
    decreases n
  {
    if n == 0 then s else AfterDays(name, NextState(name, s), n - 1)
  }

  /** Every item but the legendary one loses exactly one day per tick, with no
      lower bound; the legendary item never changes at all. */
  lemma {:induction false} DaysCountDown(name: string, s: ItemState, n: nat)
    ensures CategoryOf(name) != Legendary ==> AfterDays(name, s, n).daysRemaining == s.daysRemaining - n
    ensures CategoryOf(name) == Legendary ==> AfterDays(name, s, n) == s
    decreases n
  {
    if n > 0 {
      DaysCountDown(name, NextState(name, s), n - 1);
    }
  }

  /** A quality that starts in its category's range stays there forever. */
  lemma {:induction false} RangeKept(name: string, s: ItemState, n: nat)
    requires QualityInRange(CategoryOf(name), s.quality)
    ensures QualityInRange(CategoryOf(name), AfterDays(name, s, n).quality)
    decreases n
  {
    if n > 0 {
      RangeKept(name, NextState(name, s), n - 1);
    }
  }

  /** Once the concert day has come, a backstage pass is worth nothing and
      stays worth nothing. */
  lemma {:induction false} BackstagePassWorthlessAfterConcert(s: ItemState, n: nat)
    requires s.daysRemaining <= 0 && n >= 1
    ensures AfterDays(BackstagePassName, s, n).quality == 0
    decreases n
  {
    var next := NextState(BackstagePassName, s);
    if n > 1 {
      BackstagePassWorthlessAfterConcert(next, n - 1);
    }
  }

  /** Aged Brie never loses quality while it is at most 50. */
  lemma {:induction false} AgedBrieNeverWorsens(s: ItemState, n: nat)
    requires s.quality <= MaxQuality
    ensures AfterDays(AgedBrieName, s, n).quality >= s.quality
    decreases n
  {
    if n > 0 {
      AgedBrieNeverWorsens(NextState(AgedBrieName, s), n - 1);
    }
  }

  /** Aged Brie gains at least one point a day, so it reaches the cap of 50
      within 50 - quality days and stays there. */
  lemma {:induction false} AgedBrieReachesMax(s: ItemState, n: nat)
    requires s.quality <= MaxQuality && n >= MaxQuality - s.quality
    ensures AfterDays(AgedBrieName, s, n).quality == MaxQuality
    decreases n
  {
    if n > 0 {
      AgedBrieReachesMax(NextState(AgedBrieName, s), n - 1);
    }
  }

  /** A normal item never gains quality. */
  lemma {:induction false} NormalNeverImproves(name: string, s: ItemState, n: nat)
    requires CategoryOf(name) == Normal && s.quality >= MinQuality
    ensures AfterDays(name, s, n).quality <= s.quality
    decreases n
  {
    if n > 0 {
      NormalNeverImproves(name, NextState(name, s), n - 1);
    }
  }

  /** A normal item loses at least one point a day, so after `quality` days it
      is worth nothing and stays at the floor of 0. */
  lemma {:induction false} NormalWorthlessEventually(name: string, s: ItemState, n: nat)
    requires CategoryOf(name) == Normal && MinQuality <= s.quality <= n
    ensures AfterDays(name, s, n).quality == MinQuality
    decreases n
  {
    if n > 0 {
      NormalWorthlessEventually(name, NextState(name, s), n - 1);
    }
  }
}
