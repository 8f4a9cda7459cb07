/** The price-range statistics both engines compute for chart scaling: the
    least low and greatest high of a run of candles, and the outward rounding
    to whole cents that follows (floor(x * 100) / 100, ceil(x * 100) / 100). */
module PriceRange {
  import opened Wrappers
  import opened CArith

  datatype Range = Range(lo: real, hi: real)

  /** The fallback range (0, 100) reported when no candle qualifies. */
  const DEFAULT_RANGE: Range := Range(0.0, 100.0)

  /** Folds one candle's low and high into a running range, the way each
      loop step does std::min(*min_price, low) and std::max(*max_price, high). */
  function Widen(acc: Option<Range>, low: real, high: real): Range
  {
    match acc
    case None => Range(low, high)
    case Some(r) => Range(Min(r.lo, low), Max(r.hi, high))
  }

  /** The least low and the greatest high over xs (None when xs is empty),
      folded from the last element to the first. */
  function Extremes<T>(xs: seq<T>, low: T -> real, high: T -> real): Option<Range>
    decreases |xs|
  {
    if xs == [] then None else Some(Widen(Extremes(xs[1..], low, high), low(xs[0]), high(xs[0])))
  }

  /** Folding from the first element to the last gives the same range, so a
      loop that walks oldest-first computes Extremes too. */
  lemma {:induction false} ExtremesSnoc<T>(xs: seq<T>, x: T, low: T -> real, high: T -> real)
    ensures Extremes(xs + [x], low, high) == Some(Widen(Extremes(xs, low, high), low(x), high(x)))
    decreases |xs|
  {
    if xs != [] {
      assert (xs + [x])[1..] == xs[1..] + [x];
      ExtremesSnoc(xs[1..], x, low, high);
    } else {
      assert (xs + [x])[1..] == [];
    }
  }

  /** Extremes(xs) is absent exactly for an empty xs; otherwise its lo is a
      low of some element and no element's low is smaller, its hi is a high
      of some element and no element's high is larger, and lo <= hi when
      every element has low <= high. */
  lemma {:induction false} ExtremesBounds<T>(xs: seq<T>, low: T -> real, high: T -> real)
    ensures Extremes(xs, low, high).None? <==> xs == []
    ensures Extremes(xs, low, high).Some? ==>
      var r := Extremes(xs, low, high).value;
      && (forall i :: 0 <= i < |xs| ==> r.lo <= low(xs[i]) && high(xs[i]) <= r.hi)
      && (exists i :: 0 <= i < |xs| && low(xs[i]) == r.lo)
      && (exists i :: 0 <= i < |xs| && high(xs[i]) == r.hi)
      && ((forall i :: 0 <= i < |xs| ==> low(xs[i]) <= high(xs[i])) ==> r.lo <= r.hi)
    decreases |xs|
  {
    if xs != [] {
      var rest := xs[1..];
      ExtremesBounds(rest, low, high);
      var r := Extremes(xs, low, high).value;
      if rest == [] {
        assert low(xs[0]) == r.lo && high(xs[0]) == r.hi;
      } else {
        var q := Extremes(rest, low, high).value;
        assert forall i :: 1 <= i < |xs| ==> xs[i] == rest[i - 1];
        if r.lo != low(xs[0]) {
          var j :| 0 <= j < |rest| && low(rest[j]) == q.lo;
          assert low(xs[j + 1]) == r.lo;
        }
        if r.hi != high(xs[0]) {
          var j :| 0 <= j < |rest| && high(rest[j]) == q.hi;
          assert high(xs[j + 1]) == r.hi;
        }
      }
    }
  }

  /** floor(x * 100) / 100: x rounded down to a whole number of cents. */
  function RoundDownCents(x: real): (r: real)
    ensures r <= x < r + 0.01
  {
    ((x * 100.0).Floor as real) / 100.0
  }

  /** ceil(x * 100) / 100: x rounded up to a whole number of cents. */
  function RoundUpCents(x: real): (r: real)
    ensures r - 0.01 < x <= r
  {
    (-((-x * 100.0).Floor) as real) / 100.0
  }

  /** The range after the outward rounding: it still contains the unrounded
      range and widens each end by less than a cent. */
  function RoundOutward(r: Range): (s: Range)
    ensures s.lo <= r.lo < s.lo + 0.01 && s.hi - 0.01 < r.hi <= s.hi
  {
    Range(RoundDownCents(r.lo), RoundUpCents(r.hi))
  }
}
