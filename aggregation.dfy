/** The aggregator of data_fetcher.cpp (buildIntradayCandle) as functions
    on the ring's contents, oldest first. The class in data_fetcher_engine.dfy
    is proved to do to its array exactly what these functions do to the
    sequence; the lemmas here say what that means over several samples. */
module Aggregation {
  import opened CArith
  import opened Ring
  import opened Candles
  import opened Intervals

  /** The state buildIntradayCandle reads and writes: the candles, and its
      two function-static counters update_count and last_candle_count. */
  datatype AggState = AggState(history: seq<Candle>, updateCount: int, lastCandleCount: int)

  function Last<T>(s: seq<T>): T
    requires |s| > 0
  {
    s[|s| - 1]
  }

  /** The bookkeeping both regimes do first: the sample counter is zeroed
      when the buffer has shrunk since the last call or is empty, and the
      current size is remembered. */
  function Recount(s: AggState): AggState
  {
    var n := |s.history|;
    AggState(s.history, if n < s.lastCandleCount || n == 0 then 0 else s.updateCount, n)
  }

  /** Live regime: a sample opens a new, complete candle when the buffer is
      empty or its bucket differs from the newest candle's; otherwise it
      extends the newest candle, keeping its open and timestamp. */
  function LiveStep(s: AggState, price: real, timestamp: int, intervalSeconds: int): AggState
    requires s.history != [] ==> intervalSeconds != 0
  {
    var r := Recount(s);
    var h := r.history;
    if |h| == 0 || ShouldCreateNewCandle(timestamp, Last(h).timestamp, intervalSeconds) then
      r.(history := AppendRing(h, Opening(price, timestamp, true)))
    else
      r.(history := ReplaceNewest(h, Extend(Last(h), price).(isComplete := true)))
  }

  /** Test regime: a sample opens a new, incomplete candle when the buffer is
      empty or the newest candle is complete; otherwise it extends the newest
      candle, overwrites its timestamp, and completes it once the counter
      reaches perBar (TEST_DATA_UPDATES_PER_BAR). */
  function TestStep(s: AggState, price: real, timestamp: int, perBar: int): AggState
  {
    var r := Recount(s);
    var h := r.history;
    var count := r.updateCount + 1;
    if |h| == 0 then
      r.(history := AppendRing(h, Opening(price, timestamp, false)), updateCount := count)
    else if Last(h).isComplete then
      r.(history := AppendRing(h, Opening(price, timestamp, false)), updateCount := 1)
    else
      var c := Extend(Last(h), price).(timestamp := timestamp);
      r.(history := ReplaceNewest(h, if count >= perBar then c.(isComplete := true) else c),
         updateCount := count)
  }

  /** Every candle in h passes validateCandle. */
  predicate AllValid(h: seq<Candle>)
  {
    forall i :: 0 <= i < |h| ==> ValidateCandle(h[i])
  }

  /** A live sample with a positive price keeps every candle valid and the
      buffer within its capacity. */
  lemma LiveStepKeepsValid(s: AggState, price: real, timestamp: int, intervalSeconds: int)
    requires (s.history != [] ==> intervalSeconds != 0) && price > 0.0
    requires AllValid(s.history) && |s.history| <= MAX_CANDLES
    ensures var h := LiveStep(s, price, timestamp, intervalSeconds).history;
      AllValid(h) && 0 < |h| <= MAX_CANDLES
  {
    var h := s.history;
    if !(|h| == 0 || ShouldCreateNewCandle(timestamp, Last(h).timestamp, intervalSeconds)) {
      var c := Extend(Last(h), price).(isComplete := true);
      assert ValidateCandle(c);
      var h' := ReplaceNewest(h, c);
      assert forall i :: 0 <= i < |h'| - 1 ==> h'[i] == h[i];
    }
  }

  /** ReplaceNewest undoes the choice of the candle an append added. */
  lemma ReplaceAfterAppend<T>(h: seq<T>, c0: T, c1: T)
    ensures ReplaceNewest(AppendRing(h, c0), c1) == AppendRing(h, c1)
  {
  }

  /** Bucket determinism: starting a bucket with p1 at t1 and then feeding p2
      at a time t2 in the same bucket leaves exactly one new candle, opened
      at p1, closed at p2, spanning both prices, stamped t1. */
  lemma LiveSameBucket(s: AggState, p1: real, t1: int, p2: real, t2: int, intervalSeconds: int)
    requires intervalSeconds != 0
    requires s.history == [] || ShouldCreateNewCandle(t1, Last(s.history).timestamp, intervalSeconds)
    requires TruncDiv(t1, intervalSeconds) == TruncDiv(t2, intervalSeconds)
    ensures LiveStep(LiveStep(s, p1, t1, intervalSeconds), p2, t2, intervalSeconds).history ==
      AppendRing(s.history, Candle(p1, p2, Max(p1, p2), Min(p1, p2), t1, true))
  {
    var s1 := LiveStep(s, p1, t1, intervalSeconds);
    assert s1.history == AppendRing(s.history, Opening(p1, t1, true));
    ReplaceAfterAppend(s.history, Opening(p1, t1, true), Candle(p1, p2, Max(p1, p2), Min(p1, p2), t1, true));
  }

  /** New-bucket creation: a sample in a later bucket leaves the first
      candle as it was and opens a second one. */
  lemma LiveNewBucket(s: AggState, p1: real, t1: int, p2: real, t2: int, intervalSeconds: int)
    requires intervalSeconds != 0
    requires s.history == [] || ShouldCreateNewCandle(t1, Last(s.history).timestamp, intervalSeconds)
    requires TruncDiv(t1, intervalSeconds) != TruncDiv(t2, intervalSeconds)
    ensures LiveStep(LiveStep(s, p1, t1, intervalSeconds), p2, t2, intervalSeconds).history ==
      AppendRing(AppendRing(s.history, Opening(p1, t1, true)), Opening(p2, t2, true))
  {
  }

  /** Test regime, one sample: a new incomplete candle with the counter at 1
      exactly when the buffer is empty or its newest candle is complete;
      otherwise the older candles stay and the newest keeps its open. */
  lemma TestStepShape(s: AggState, price: real, timestamp: int, perBar: int)
    ensures var r := TestStep(s, price, timestamp, perBar);
      var h := s.history;
      && (h == [] || Last(h).isComplete ==>
            r.history == AppendRing(h, Opening(price, timestamp, false)) && r.updateCount == 1)
      && (h != [] && !Last(h).isComplete ==>
            |r.history| == |h| && r.history[..|h| - 1] == h[..|h| - 1] &&
            Last(r.history).open == Last(h).open && Last(r.history).close == price &&
            Last(r.history).timestamp == timestamp &&
            (Last(r.history).isComplete <==> r.updateCount >= perBar))
  {
  }

  /** Test-regime samples fed one after another. */
  function TestRun(s: AggState, prices: seq<real>, times: seq<int>, perBar: int): AggState
    requires |prices| == |times|
    decreases |prices|
  {
    if prices == [] then s
    else
      var n := |prices|;
      TestStep(TestRun(s, prices[..n - 1], times[..n - 1], perBar), prices[n - 1], times[n - 1], perBar)
  }

  /** The highest of a run of prices. */
  function MaxOf(ps: seq<real>): real
    requires |ps| > 0
    decreases |ps|
  {
    if |ps| == 1 then ps[0] else Max(MaxOf(ps[..|ps| - 1]), ps[|ps| - 1])
  }

  /** The lowest of a run of prices. */
  function MinOf(ps: seq<real>): real
    requires |ps| > 0
    decreases |ps|
  {
    if |ps| == 1 then ps[0] else Min(MinOf(ps[..|ps| - 1]), ps[|ps| - 1])
  }

  /** How many test samples one bar takes: TEST_DATA_UPDATES_PER_BAR, but
      never fewer than two, because the sample that opens a bar is never the
      one that completes it. */
  function BarLength(perBar: int): int
  {
    MaxInt(perBar, 2)
  }

  /** The candle a run of samples makes in the test regime. */
  function BarCandle(prices: seq<real>, lastTime: int, complete: bool): Candle
    requires |prices| > 0
  {
    Candle(prices[0], Last(prices), MaxOf(prices), MinOf(prices), lastTime, complete)
  }

  /** Test-regime counting: from an empty buffer or a completed newest
      candle, the first k samples (k up to BarLength) build one new candle
      (open = first price, close = last, high and low the extremes, timestamp
      of the last sample), the counter equals k, and the candle is complete
      exactly when k reaches BarLength. */
  lemma {:induction false} TestBarForms(s: AggState, prices: seq<real>, times: seq<int>, perBar: int)
    requires |prices| == |times| && 1 <= |prices| <= BarLength(perBar)
    requires |s.history| <= MAX_CANDLES
    requires s.history == [] || Last(s.history).isComplete
    ensures var r := TestRun(s, prices, times, perBar);
      && r.history == AppendRing(s.history, BarCandle(prices, Last(times), |prices| == BarLength(perBar)))
      && r.updateCount == |prices|
      && r.lastCandleCount <= |r.history|
    decreases |prices|
  {
    var n := |prices|;
    var pre, tpre := prices[..n - 1], times[..n - 1];
    if n == 1 {
      assert pre == [] && tpre == [];
      assert TestRun(s, prices, times, perBar) == TestStep(s, prices[0], times[0], perBar);
    } else {
      TestBarForms(s, pre, tpre, perBar);
      var r0 := TestRun(s, pre, tpre, perBar);
      var c0 := BarCandle(pre, Last(tpre), false);
      assert r0.history == AppendRing(s.history, c0);
      assert Last(r0.history) == c0;
      assert TestRun(s, prices, times, perBar) == TestStep(r0, prices[n - 1], times[n - 1], perBar);
      var rc := Recount(r0);
      assert rc.history == r0.history && rc.updateCount == n - 1 && !Last(rc.history).isComplete;
      var c1 := Extend(c0, prices[n - 1]).(timestamp := times[n - 1]);
      assert c1 == BarCandle(prices, Last(times), false);
      var c2 := BarCandle(prices, Last(times), n == BarLength(perBar));
      assert c2 == if n >= perBar then c1.(isComplete := true) else c1;
      ReplaceAfterAppend(s.history, c0, c2);
    }
  }
}
