/** The fixed-capacity candle ring shared by the current engine
    (data_fetcher.cpp) and the older one (CandleStick.cpp): its capacity,
    the slot arithmetic both use, and what one append does to the sequence
    of candles the ring holds, oldest first. */
module Ring {
  import opened CArith

  /** MAX_CANDLES in Config.h. */
  const MAX_CANDLES: int := 130

  /** The array slot of the candle k steps older than the newest one,
      (newest - k + MAX_CANDLES) % MAX_CANDLES: it steps backward and wraps
      from slot 0 to the last slot. */
  function SlotOf(newest: int, k: int): (slot: int)
    requires 0 <= newest < MAX_CANDLES && 0 <= k < MAX_CANDLES
    ensures 0 <= slot < MAX_CANDLES
    ensures slot == if k <= newest then newest - k else newest - k + MAX_CANDLES
  {
    (newest - k + MAX_CANDLES) % MAX_CANDLES
  }

  /** The slot the next append writes: (newest + 1) % MAX_CANDLES, where an
      empty ring has newest == -1. */
  function NextSlot(newest: int): (slot: int)
    requires -1 <= newest < MAX_CANDLES
    ensures 0 <= slot < MAX_CANDLES
    ensures slot == if newest == MAX_CANDLES - 1 then 0 else newest + 1
  {
    (newest + 1) % MAX_CANDLES
  }

  /** The ring's contents, oldest first, after one append: the count grows
      until it reaches MAX_CANDLES, after which the oldest entry is lost. */
  function AppendRing<T>(h: seq<T>, x: T): seq<T>
  {
    if |h| < MAX_CANDLES then h + [x] else h[1..] + [x]
  }

  /** The contents with the newest entry replaced by x. */
  function ReplaceNewest<T>(h: seq<T>, x: T): seq<T>
    requires |h| > 0
  {
    h[..|h| - 1] + [x]
  }

  /** Slot by slot, the array contents a hold the ring contents h, oldest
      first, with the newest entry in slot newest (-1 exactly when the ring
      is empty). */
  ghost predicate RingHolds<T>(a: seq<T>, newest: int, h: seq<T>)
  {
    && |a| == MAX_CANDLES && |h| <= MAX_CANDLES && -1 <= newest < MAX_CANDLES
    && (|h| == 0 <==> newest == -1)
    && forall k :: 0 <= k < |h| ==> a[SlotOf(newest, k)] == h[|h| - 1 - k]
  }

  /** Writing x into the next slot and advancing the index appends x to the
      ring's contents. */
  lemma RingAppend<T>(a: seq<T>, newest: int, h: seq<T>, x: T)
    requires RingHolds(a, newest, h)
    ensures RingHolds(a[NextSlot(newest) := x], NextSlot(newest), AppendRing(h, x))
  {
    var next := NextSlot(newest);
    var a', h' := a[next := x], AppendRing(h, x);
    forall k | 0 <= k < |h'|
      ensures a'[SlotOf(next, k)] == h'[|h'| - 1 - k]
    {
      if k > 0 {
        assert SlotOf(next, k) == SlotOf(newest, k - 1) != next;
        assert h'[|h'| - 1 - k] == h[|h| - k];
      }
    }
  }

  /** Writing x over the newest slot replaces the newest entry. */
  lemma RingReplace<T>(a: seq<T>, newest: int, h: seq<T>, x: T)
    requires RingHolds(a, newest, h) && |h| > 0
    ensures RingHolds(a[newest := x], newest, ReplaceNewest(h, x))
  {
    var a', h' := a[newest := x], ReplaceNewest(h, x);
    forall k | 0 <= k < |h'|
      ensures a'[SlotOf(newest, k)] == h'[|h'| - 1 - k]
    {
      if k > 0 {
        assert SlotOf(newest, k) != newest;
      }
    }
  }

  /** The newest entry sits in slot newest. */
  lemma RingNewest<T>(a: seq<T>, newest: int, h: seq<T>)
    requires RingHolds(a, newest, h) && |h| > 0
    ensures a[newest] == h[|h| - 1]
  {
    assert SlotOf(newest, 0) == newest;
  }

  /** The contents after appending every element of xs, in order. */
  function AppendAll<T>(h: seq<T>, xs: seq<T>): seq<T>
    decreases |xs|
  {
    if xs == [] then h else AppendRing(AppendAll(h, xs[..|xs| - 1]), xs[|xs| - 1])
  }

  /** One append never lets the ring exceed its capacity and always makes
      x the newest entry, with the older ones kept in order. */
  lemma AppendRingShape<T>(h: seq<T>, x: T)
    requires |h| <= MAX_CANDLES
    ensures var r := AppendRing(h, x);
      |r| == MinInt(|h| + 1, MAX_CANDLES) && r[|r| - 1] == x &&
      r[..|r| - 1] == h[|h| + 1 - |r|..]
  {
  }

  /** After k appends from an empty ring, it holds min(k, MAX_CANDLES)
      entries, and they are the last ones appended, in append order. */
  lemma {:induction false} AppendsFromEmpty<T>(xs: seq<T>)
    ensures var r := AppendAll([], xs);
      |r| == MinInt(|xs|, MAX_CANDLES) && r == xs[|xs| - |r|..]
    decreases |xs|
  {
    if xs != [] {
      var n := |xs|;
      var init := xs[..n - 1];
      AppendsFromEmpty(init);
      var prev := AppendAll([], init);
      assert prev == init[|init| - |prev|..];
      if n - 1 < MAX_CANDLES {
        assert prev == init;
        assert init + [xs[n - 1]] == xs;
      } else {
        assert |prev| == MAX_CANDLES;
        assert prev[1..] + [xs[n - 1]] == xs[n - MAX_CANDLES..];
      }
    }
  }
}
