/** The price-level queries of both engines as functions on the ring's
    contents, oldest first: getPriceLevels (data_fetcher.cpp and
    CandleStick.cpp) over every candle, and getPriceLevelsForVisibleBars
    over the usable candles among the newest few. */
module Levels {
  import opened Wrappers
  import opened CArith
  import opened Candles
  import opened PriceRange

  function LowOf(c: Candle): real
  {
    c.low
  }

  function HighOf(c: Candle): real
  {
    c.high
  }

  /** The reported range of a run of entries: (0, 100) for none, otherwise
      the least low and greatest high rounded outward to whole cents. */
  function RangeOf<T>(xs: seq<T>, low: T -> real, high: T -> real): (r: Range)
    ensures xs == [] ==> r == DEFAULT_RANGE
  {
    if xs == [] then DEFAULT_RANGE else RoundOutward(Extremes(xs, low, high).value)
  }

  /** A non-empty run's reported range holds every entry, each end lies
      within a cent of some entry's low or high, and it is ordered when
      every entry is. */
  lemma RangeOfCovers<T>(xs: seq<T>, low: T -> real, high: T -> real)
    requires xs != []
    ensures var r := RangeOf(xs, low, high);
      && (forall i :: 0 <= i < |xs| ==> r.lo <= low(xs[i]) && high(xs[i]) <= r.hi)
      && (exists i :: 0 <= i < |xs| && r.lo <= low(xs[i]) < r.lo + 0.01)
      && (exists i :: 0 <= i < |xs| && r.hi - 0.01 < high(xs[i]) <= r.hi)
      && ((forall i :: 0 <= i < |xs| ==> low(xs[i]) <= high(xs[i])) ==> r.lo <= r.hi)
  {
    ExtremesBounds(xs, low, high);
  }

  /** Rounding the fallback range outward leaves it as it is, so rounding it
      or not (CandleStick.cpp does, data_fetcher.cpp does not) is the same. */
  lemma RoundedDefault()
    ensures RoundOutward(DEFAULT_RANGE) == DEFAULT_RANGE
  {
    assert (0.0 * 100.0).Floor == 0;
    assert (-100.0 * 100.0).Floor == -10000;
  }

  /** The candles getPriceLevelsForVisibleBars checks: the newest
      min(barsToShow, |h|) of them, none for a non-positive count. */
  function Window(h: seq<Candle>, barsToShow: int): (w: seq<Candle>)
    ensures |w| == MaxInt(MinInt(barsToShow, |h|), 0)
    ensures w == h[|h| - |w|..]
  {
    h[|h| - MaxInt(MinInt(barsToShow, |h|), 0)..]
  }

  /** The candles of xs that pass the all-prices-positive check, in order. */
  function Usables(xs: seq<Candle>): seq<Candle>
    decreases |xs|
  {
    if xs == [] then [] else (if Usable(xs[0]) then [xs[0]] else []) + Usables(xs[1..])
  }

  /** Usables keeps exactly the usable candles. */
  lemma {:induction false} UsablesExact(xs: seq<Candle>)
    ensures forall c :: c in Usables(xs) <==> c in xs && Usable(c)
    decreases |xs|
  {
    if xs != [] {
      UsablesExact(xs[1..]);
      assert forall c :: c in xs <==> c == xs[0] || c in xs[1..];
    }
  }

  /** A run without a usable candle has no usable candles to report. */
  lemma {:induction false} UsablesNone(xs: seq<Candle>)
    requires forall i :: 0 <= i < |xs| ==> !Usable(xs[i])
    ensures Usables(xs) == []
    decreases |xs|
  {
    if xs != [] {
      UsablesNone(xs[1..]);
    }
  }

  /** getPriceLevelsForVisibleBars as a function of the contents. */
  function VisibleLevels(h: seq<Candle>, barsToShow: int): Range
  {
    RangeOf(Usables(Window(h, barsToShow)), LowOf, HighOf)
  }

  /** With no usable candle among those checked, the visible range is the
      fallback (0, 100). */
  lemma VisibleLevelsFallback(h: seq<Candle>, barsToShow: int)
    requires forall i :: 0 <= i < |Window(h, barsToShow)| ==> !Usable(Window(h, barsToShow)[i])
    ensures VisibleLevels(h, barsToShow) == DEFAULT_RANGE
  {
    UsablesNone(Window(h, barsToShow));
  }

  /** With some usable candle among those checked, the visible range holds
      every usable checked candle, each end lies within a cent of such a
      candle's low or high, and it is ordered when those candles are. */
  lemma VisibleLevelsCovers(h: seq<Candle>, barsToShow: int)
    requires exists c :: c in Window(h, barsToShow) && Usable(c)
    ensures var w := Window(h, barsToShow);
      var r := VisibleLevels(h, barsToShow);
      && (forall c :: c in w && Usable(c) ==> r.lo <= c.low && c.high <= r.hi)
      && (exists c :: c in w && Usable(c) && r.lo <= c.low < r.lo + 0.01)
      && (exists c :: c in w && Usable(c) && r.hi - 0.01 < c.high <= r.hi)
      && ((forall c :: c in w && Usable(c) ==> c.low <= c.high) ==> r.lo <= r.hi)
  {
    var w := Window(h, barsToShow);
    var u := Usables(w);
    UsablesExact(w);
    var c0 :| c0 in w && Usable(c0);
    assert c0 in u;
    RangeOfCovers(u, LowOf, HighOf);
    var r := VisibleLevels(h, barsToShow);
    forall c | c in w && Usable(c)
      ensures r.lo <= c.low && c.high <= r.hi
    {
      var j :| 0 <= j < |u| && u[j] == c;
    }
    var jl :| 0 <= jl < |u| && r.lo <= LowOf(u[jl]) < r.lo + 0.01;
    assert u[jl] in u;
    var jh :| 0 <= jh < |u| && r.hi - 0.01 < HighOf(u[jh]) <= r.hi;
    assert u[jh] in u;
    if forall c :: c in w && Usable(c) ==> c.low <= c.high {
      forall j | 0 <= j < |u| ensures LowOf(u[j]) <= HighOf(u[j]) {
        assert u[j] in u;
      }
    }
  }
}
