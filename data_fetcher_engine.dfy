/** The DataFetcher of data_fetcher.cpp: a ring of MAX_CANDLES candles in an
    array, with newest_candle_index and num_candles, the function-static
    counters of buildIntradayCandle and updateData, and the configuration it
    reads. Every method is proved against the functions of Ring, Aggregation,
    Quotes and Levels through the ghost History: the ring's contents, oldest
    first. */
module DataFetcherEngine {
  import opened Wrappers
  import opened CArith
  import opened Ring
  import opened Candles
  import opened Intervals
  import opened PriceRange
  import opened Aggregation
  import opened Quotes
  import opened MarketHours
  import opened Levels

  /** unsigned long arithmetic on millis() wraps modulo 2^32. */
  const MILLIS_WRAP: int := 0x1_0000_0000

  /** The live-mode polling step in seconds: INTRADAY_UPDATE_INTERVAL / 1000
      (milliseconds, truncating), raised to one second when smaller. */
  function LiveStepSeconds(updateIntervalMillis: int): (s: int)
    ensures s >= 1
    ensures updateIntervalMillis >= 2000 ==> s * 1000 <= updateIntervalMillis < s * 1000 + 1000
    ensures updateIntervalMillis < 2000 ==> s == 1
  {
    MaxInt(TruncDiv(updateIntervalMillis, 1000), 1)
  }

  /** The fields of DataFetcher outside the ring and the aggregator's
      counters. */
  datatype Status = Status(lastUpdateTime: int, currentPrice: real, initialDataLoaded: bool, lastUpdateMillis: int)

  /** The backward scan of updateData: the newest close that is present and
      positive, with the timestamp at the same index, or (0, 0) if none. */
  method ScanLatestClose(timestamps: seq<Option<int>>, closes: seq<Option<real>>)
    returns (latestPrice: real, latestTimestamp: int)
    ensures match LatestPositiveClose(closes)
      case None => latestPrice == 0.0 && latestTimestamp == 0
      case Some(i) => latestPrice == closes[i].value && latestTimestamp == AsLong(timestamps, i)
  {
    latestPrice, latestTimestamp := 0.0, 0;
    var i := |closes| - 1;
    while i >= 0
      invariant -1 <= i < |closes|
      invariant LatestPositiveClose(closes) == LatestPositiveClose(closes[..i + 1])
    {
      assert Last(closes[..i + 1]) == closes[i] && closes[..i + 1][..i] == closes[..i];
      if closes[i].Some? && closes[i].value > 0.0 {
        latestPrice := closes[i].value;
        latestTimestamp := AsLong(timestamps, i);
        return;
      }
      i := i - 1;
    }
  }

  class DataFetcher {
    const candles: array<Candle>
    var newestIndex: int
    var numCandles: int
    var lastUpdateTime: int
    var currentPrice: real
    var initialDataLoaded: bool
    const currentSymbol: string
    /** buildIntradayCandle's static update_count and last_candle_count. */
    var updateCount: int
    var lastCandleCount: int
    /** updateData's static last_update_millis. */
    var lastUpdateMillis: int

    /** USE_TEST_DATA, YAHOO_INTERVAL, ENFORCE_MARKET_HOURS,
        TEST_DATA_UPDATES_PER_BAR, INTRADAY_UPDATE_INTERVAL and
        CANDLE_COLLECTION_DURATION. */
    const useTestData: bool
    const yahooInterval: string
    const enforceMarketHours: bool
    const updatesPerBar: int
    const updateIntervalMillis: int
    const collectionDuration: int

    /** The ring's contents, oldest first. */
    ghost var History: seq<Candle>

    /** The ring holds History: slot SlotOf(newest, k) is the candle k steps
        older than the newest, and the index is -1 exactly when empty. */
    ghost predicate Valid()
      reads this, candles
    {
      && candles.Length == MAX_CANDLES
      && 0 <= numCandles <= MAX_CANDLES
      && -1 <= newestIndex < MAX_CANDLES
      && (numCandles == 0 <==> newestIndex == -1)
      && |History| == numCandles
      && 0 <= lastUpdateMillis < MILLIS_WRAP
      && RingHolds(candles[..], newestIndex, History)
    }

    ghost function State(): AggState
      reads this
    {
      AggState(History, updateCount, lastCandleCount)
    }

    ghost function CurrentStatus(): Status
      reads this
    {
      Status(lastUpdateTime, currentPrice, initialDataLoaded, lastUpdateMillis)
    }

    /** The bucket width of the live regime: getIntervalSeconds(YAHOO_INTERVAL),
        positive for a table code and CANDLE_COLLECTION_DURATION otherwise. */
    function IntervalSeconds(): (s: int)
      ensures yahooInterval in INTERVAL_CODES ==> s > 0
      ensures yahooInterval !in INTERVAL_CODES ==> s == collectionDuration
    {
      GetIntervalSeconds(yahooInterval, collectionDuration)
    }

    /** The static initialisers: an empty ring and zeroed counters. */
    constructor (symbol: string, useTestData: bool, yahooInterval: string, enforceMarketHours: bool,
                 updatesPerBar: int, updateIntervalMillis: int, collectionDuration: int)
      ensures Valid() && fresh(candles)
      ensures History == [] && newestIndex == -1
      ensures CurrentStatus() == Status(0, 0.0, false, 0) && updateCount == 0 && lastCandleCount == 0
      ensures this.currentSymbol == symbol && this.useTestData == useTestData
      ensures this.yahooInterval == yahooInterval && this.enforceMarketHours == enforceMarketHours
      ensures this.updatesPerBar == updatesPerBar && this.updateIntervalMillis == updateIntervalMillis
      ensures this.collectionDuration == collectionDuration
    {
      candles := new Candle[MAX_CANDLES](_ => Candle(0.0, 0.0, 0.0, 0.0, 0, false));
      newestIndex, numCandles := -1, 0;
      lastUpdateTime, currentPrice, initialDataLoaded := 0, 0.0, false;
      currentSymbol := symbol;
      updateCount, lastCandleCount, lastUpdateMillis := 0, 0, 0;
      this.useTestData := useTestData;
      this.yahooInterval := yahooInterval;
      this.enforceMarketHours := enforceMarketHours;
      this.updatesPerBar := updatesPerBar;
      this.updateIntervalMillis := updateIntervalMillis;
      this.collectionDuration := collectionDuration;
      History := [];
    }

    /** reset: the ring is emptied (index -1, no candles) and the update
        time, current price and loaded flag are cleared; the array itself and
        the static counters are left alone. */
    method Reset()
      requires Valid()
      modifies this
      ensures Valid()
      ensures History == [] && numCandles == 0 && newestIndex == -1
      ensures CurrentStatus() == old(CurrentStatus()).(lastUpdateTime := 0, currentPrice := 0.0, initialDataLoaded := false)
      ensures updateCount == old(updateCount) && lastCandleCount == old(lastCandleCount)
    {
      newestIndex := -1;
      numCandles := 0;
      lastUpdateTime := 0;
      currentPrice := 0.0;
      initialDataLoaded := false;
      History := [];
    }

    /** updateCircularBuffer: the count grows up to MAX_CANDLES, the index
        advances by one modulo MAX_CANDLES, and only that slot is written, so
        the contents become AppendRing(History, candle). */
    method UpdateCircularBuffer(candle: Candle)
      requires Valid()
      modifies this, candles
      ensures Valid()
      ensures History == AppendRing(old(History), candle)
      ensures numCandles == MinInt(old(numCandles) + 1, MAX_CANDLES) && newestIndex == NextSlot(old(newestIndex))
      ensures candles[newestIndex] == candle
      ensures forall i :: 0 <= i < MAX_CANDLES && i != newestIndex ==> candles[i] == old(candles[i])
      ensures CurrentStatus() == old(CurrentStatus())
      ensures updateCount == old(updateCount) && lastCandleCount == old(lastCandleCount)
    {
      RingAppend(candles[..], newestIndex, History, candle);
      if numCandles < MAX_CANDLES {
        numCandles := numCandles + 1;
      }
      newestIndex := (newestIndex + 1) % MAX_CANDLES;
      candles[newestIndex] := candle;
      History := AppendRing(History, candle);
    }

    /** Writes the newest slot, the one candle the non-creating branches of
        buildIntradayCandle change. */
    method OverwriteNewest(candle: Candle)
      requires Valid() && numCandles > 0
      modifies this, candles
      ensures Valid()
      ensures History == ReplaceNewest(old(History), candle)
      ensures numCandles == old(numCandles) && newestIndex == old(newestIndex)
      ensures CurrentStatus() == old(CurrentStatus())
      ensures updateCount == old(updateCount) && lastCandleCount == old(lastCandleCount)
    {
      RingReplace(candles[..], newestIndex, History, candle);
      candles[newestIndex] := candle;
      History := ReplaceNewest(History, candle);
    }

    /** buildIntradayCandle: one sample, in the test regime (counted bars)
        or the live regime (wall-clock buckets), exactly as TestStep and
        LiveStep say; the current price becomes the sample's price. */
    method BuildIntradayCandle(price: real, timestamp: int)
      requires Valid() && (!useTestData && numCandles > 0 ==> IntervalSeconds() != 0)
      modifies this, candles
      ensures Valid()
      ensures useTestData ==> State() == TestStep(old(State()), price, timestamp, updatesPerBar)
      ensures !useTestData ==> State() == LiveStep(old(State()), price, timestamp, IntervalSeconds())
      ensures CurrentStatus() == old(CurrentStatus()).(currentPrice := price)
    {
      ghost var before := State();
      if numCandles < lastCandleCount || numCandles == 0 {
        updateCount := 0;
      }
      lastCandleCount := numCandles;
      if useTestData {
        CountedSample(price, timestamp, before);
      } else {
        BucketedSample(price, timestamp, before);
      }
      currentPrice := price;
    }

    /** The test-regime branch of buildIntradayCandle, after the counter
        bookkeeping: open a new incomplete candle, or extend the newest one
        and complete it once update_count reaches TEST_DATA_UPDATES_PER_BAR. */
    method CountedSample(price: real, timestamp: int, ghost before: AggState)
      requires Valid() && State() == Recount(before)
      modifies this, candles
      ensures Valid() && State() == TestStep(before, price, timestamp, updatesPerBar)
      ensures CurrentStatus() == old(CurrentStatus())
    {
      updateCount := updateCount + 1;
      if numCandles == 0 {
        UpdateCircularBuffer(Opening(price, timestamp, false));
      } else {
        RingNewest(candles[..], newestIndex, History);
        if candles[newestIndex].isComplete {
          UpdateCircularBuffer(Opening(price, timestamp, false));
          updateCount := 1;
        } else {
          var c := candles[newestIndex];
          c := c.(close := price, high := Max(c.high, price), low := Min(c.low, price), timestamp := timestamp);
          if updateCount >= updatesPerBar {
            c := c.(isComplete := true);
          }
          OverwriteNewest(c);
        }
      }
    }

    /** The live-regime branch of buildIntradayCandle, after the counter
        bookkeeping: open a new complete candle in a new bucket, or extend the
        newest one, keeping its open and timestamp. */
    method BucketedSample(price: real, timestamp: int, ghost before: AggState)
      requires Valid() && State() == Recount(before) && (numCandles > 0 ==> IntervalSeconds() != 0)
      modifies this, candles
      ensures Valid() && State() == LiveStep(before, price, timestamp, IntervalSeconds())
      ensures CurrentStatus() == old(CurrentStatus())
    {
      var intervalSeconds := GetIntervalSeconds(yahooInterval, collectionDuration);
      if numCandles == 0 {
        UpdateCircularBuffer(Opening(price, timestamp, true));
      } else {
        RingNewest(candles[..], newestIndex, History);
        if ShouldCreateNewCandle(timestamp, candles[newestIndex].timestamp, intervalSeconds) {
          UpdateCircularBuffer(Opening(price, timestamp, true));
        } else {
          var c := candles[newestIndex];
          OverwriteNewest(c.(close := price, high := Max(c.high, price), low := Min(c.low, price), isComplete := true));
        }
      }
    }

    /** fetchInitialData: the ring is changed only when InitialLoad loads
        something, and then it holds exactly the loaded candles, the price is
        the newest one's close and the data counts as loaded; every failure
        leaves the whole state as it was. */
    method FetchInitialData(symbol: string, interval: string, range: string, quote: QuoteSource) returns (ok: bool)
      requires Valid()
      modifies this, candles
      decreases LadderRank(range)
      ensures Valid()
      ensures ok <==> InitialLoad(quote, symbol, interval, range).result.Loaded?
      ensures ok ==> (Loaded(History) == InitialLoad(quote, symbol, interval, range).result &&
        CurrentStatus() == old(CurrentStatus()).(lastUpdateTime := 0, currentPrice := Last(History).close, initialDataLoaded := true))
      ensures !ok ==> unchanged(this) && unchanged(candles)
      ensures updateCount == old(updateCount) && lastCandleCount == old(lastCandleCount)
    {
      var response := quote(symbol, interval, range);
      if response.HttpFailure? {
        return false;
      }
      if response.size > MAX_PAYLOAD {
        var smallerRange := GetSmallerRange(range);
        if smallerRange != range {
          ok := FetchInitialData(symbol, interval, smallerRange, quote);
        } else {
          ok := FetchFallbackData(symbol, quote);
        }
        return;
      }
      if response.chart.None? {
        ok := FetchFallbackData(symbol, quote);
        return;
      }
      var chart := response.chart.value;
      if chart.timestamps.None? {
        return false;
      }
      var timestamps := chart.timestamps.value;
      if |timestamps| == 0 {
        return false;
      }
      LoadChart(chart);
      ok := true;
    }

    /** One pass of fetchInitialData's loading loop: the complete candle of
        data point dataIndex is appended to the ring. */
    method AppendPoint(chart: Chart, dataIndex: int)
      requires Valid() && numCandles < MAX_CANDLES
      modifies this, candles
      ensures Valid() && History == old(History) + [PointCandle(chart, dataIndex)]
      ensures CurrentStatus() == old(CurrentStatus())
      ensures updateCount == old(updateCount) && lastCandleCount == old(lastCandleCount)
    {
      var timestamps := Timestamps(chart);
      var candle := Candle(AsFloat(chart.opens, dataIndex), AsFloat(chart.closes, dataIndex),
                           AsFloat(chart.highs, dataIndex), AsFloat(chart.lows, dataIndex),
                           AsLong(timestamps, dataIndex), true);
      assert candle == PointCandle(chart, dataIndex);
      UpdateCircularBuffer(candle);
    }

    /** The end of a successful load: the price is the newest close and
        the data counts as loaded; the ring is left as it is. */
    method MarkLoaded(price: real)
      requires Valid()
      modifies this
      ensures Valid() && History == old(History)
      ensures numCandles == old(numCandles) && newestIndex == old(newestIndex)
      ensures CurrentStatus() == old(CurrentStatus()).(currentPrice := price, initialDataLoaded := true)
      ensures updateCount == old(updateCount) && lastCandleCount == old(lastCandleCount)
    {
      currentPrice := price;
      initialDataLoaded := true;
    }

    /** The buffer loading of fetchInitialData: reset, then the newest
        min(n, MAX_CANDLES) points appended in source order, so the contents
        become ChartHistory(chart); the price is the newest close. */
    method LoadChart(chart: Chart)
      requires Valid() && chart.timestamps.Some? && |chart.timestamps.value| > 0
      modifies this, candles
      ensures Valid() && History == ChartHistory(chart)
      ensures CurrentStatus() == old(CurrentStatus()).(lastUpdateTime := 0, currentPrice := Last(History).close, initialDataLoaded := true)
      ensures updateCount == old(updateCount) && lastCandleCount == old(lastCandleCount)
    {
      var timestamps := chart.timestamps.value;
      Reset();
      var dataSize := MinInt(|timestamps|, MAX_CANDLES);
      var startIndex := |timestamps| - dataSize;
      ghost var loaded := ChartHistory(chart);
      var i := 0;
      while i < dataSize
        invariant 0 <= i <= dataSize
        invariant Valid()
        invariant History == loaded[..i]
        invariant CurrentStatus() == old(CurrentStatus()).(lastUpdateTime := 0, currentPrice := 0.0, initialDataLoaded := false)
        invariant updateCount == old(updateCount) && lastCandleCount == old(lastCandleCount)
      {
        AppendPoint(chart, startIndex + i);
        assert History == loaded[..i + 1];
        i := i + 1;
      }
      assert loaded[..dataSize] == loaded;
      RingNewest(candles[..], newestIndex, History);
      MarkLoaded(candles[newestIndex].close);
    }

    /** fetchFallbackData: on success the ring holds the single candle
        FallbackLoad builds, the price is its close and the data counts as
        loaded; every failure leaves the whole state as it was. */
    method FetchFallbackData(symbol: string, quote: QuoteSource) returns (ok: bool)
      requires Valid()
      modifies this, candles
      ensures Valid()
      ensures ok <==> FallbackLoad(quote, symbol).Loaded?
      ensures ok ==> (Loaded(History) == FallbackLoad(quote, symbol) && numCandles == 1 &&
        CurrentStatus() == old(CurrentStatus()).(lastUpdateTime := 0, currentPrice := Last(History).close, initialDataLoaded := true))
      ensures !ok ==> unchanged(this) && unchanged(candles)
      ensures updateCount == old(updateCount) && lastCandleCount == old(lastCandleCount)
    {
      var response := quote(symbol, "1d", "1d");
      if response.HttpFailure? || response.chart.None? {
        return false;
      }
      var chart := response.chart.value;
      var timestamps := Timestamps(chart);
      if |timestamps| == 0 {
        return false;
      }
      Reset();
      var lastIndex := |timestamps| - 1;
      var candle := Candle(AsFloat(chart.opens, lastIndex), AsFloat(chart.closes, lastIndex),
                           AsFloat(chart.highs, lastIndex), AsFloat(chart.lows, lastIndex),
                           AsLong(timestamps, lastIndex), true);
      UpdateCircularBuffer(candle);
      MarkLoaded(candle.close);
      ok := true;
    }

    /** updateData. Test regime: unless fewer than INTRADAY_UPDATE_INTERVAL
        milliseconds (modulo 2^32) have passed, the sample price is fed to the
        aggregator at the current time. Live regime: unless fewer than
        LiveStepSeconds have passed, the update time is recorded first; then,
        market hours permitting, the newest accepted close of the 1m/1d chart
        is fed to the aggregator. Nothing changes on any early return. */
    method UpdateData(nowSec: int, nowMillis: int, testPrice: real, clock: WallClock, quote: QuoteSource)
      returns (updated: bool)
      requires Valid() && 0 <= nowMillis < MILLIS_WRAP
      requires !useTestData && numCandles > 0 ==> IntervalSeconds() != 0
      modifies this, candles
      ensures Valid()
      ensures useTestData ==>
        var due := (nowMillis - old(lastUpdateMillis)) % MILLIS_WRAP >= updateIntervalMillis % MILLIS_WRAP;
        && (updated <==> due)
        && (!due ==> unchanged(this) && unchanged(candles))
        && (due ==> (State() == TestStep(old(State()), testPrice, nowSec, updatesPerBar) &&
              CurrentStatus() == old(CurrentStatus()).(currentPrice := testPrice, lastUpdateMillis := nowMillis)))
      ensures !useTestData ==>
        var due := nowSec - old(lastUpdateTime) >= LiveStepSeconds(updateIntervalMillis);
        var q := if enforceMarketHours && !IsMarketOpen(false, enforceMarketHours, clock) then None
                 else LatestQuote(quote(currentSymbol, "1m", "1d"));
        && (updated <==> due && q.Some?)
        && (!due ==> unchanged(this) && unchanged(candles))
        && (due && q.None? ==> (State() == old(State()) && unchanged(candles) &&
              CurrentStatus() == old(CurrentStatus()).(lastUpdateTime := nowSec)))
        && (due && q.Some? ==> (State() == LiveStep(old(State()), q.value.0, q.value.1, IntervalSeconds()) &&
              CurrentStatus() == old(CurrentStatus()).(lastUpdateTime := nowSec, currentPrice := q.value.0)))
    {
      if useTestData {
        if (nowMillis - lastUpdateMillis) % MILLIS_WRAP < updateIntervalMillis % MILLIS_WRAP {
          return false;
        }
        lastUpdateMillis := nowMillis;
        BuildIntradayCandle(testPrice, nowSec);
        return true;
      }
      var updateIntervalSeconds := TruncDiv(updateIntervalMillis, 1000);
      if updateIntervalSeconds < 1 {
        updateIntervalSeconds := 1;
      }
      if nowSec - lastUpdateTime < updateIntervalSeconds {
        return false;
      }
      lastUpdateTime := nowSec;
      updated := FetchLatest(clock, quote);
    }

    /** The live part of updateData once an update is due: outside market
        hours (when they are enforced) nothing is requested; otherwise the
        1m/1d chart is requested and its newest accepted close, if any, is
        the current price and goes to the aggregator with its timestamp. */
    method FetchLatest(clock: WallClock, quote: QuoteSource) returns (updated: bool)
      requires Valid() && !useTestData && (numCandles > 0 ==> IntervalSeconds() != 0)
      modifies this, candles
      ensures Valid()
      ensures var q := if enforceMarketHours && !IsMarketOpen(false, enforceMarketHours, clock) then None
                       else LatestQuote(quote(currentSymbol, "1m", "1d"));
        && (updated <==> q.Some?)
        && (q.None? ==> unchanged(this) && unchanged(candles))
        && (q.Some? ==> (State() == LiveStep(old(State()), q.value.0, q.value.1, IntervalSeconds()) &&
              CurrentStatus() == old(CurrentStatus()).(currentPrice := q.value.0)))
    {
      if enforceMarketHours && !IsMarketOpen(useTestData, enforceMarketHours, clock) {
        return false;
      }
      var response := quote(currentSymbol, "1m", "1d");
      if response.HttpFailure? || response.size == 0 || response.chart.None? {
        return false;
      }
      var chart := response.chart.value;
      if chart.timestamps.None? {
        return false;
      }
      var timestamps := chart.timestamps.value;
      if |timestamps| == 0 || |chart.closes| == 0 {
        return false;
      }
      var latestPrice, latestTimestamp := ScanLatestClose(timestamps, chart.closes);
      if latestPrice > 0.0 {
        currentPrice := latestPrice;
        BuildIntradayCandle(latestPrice, latestTimestamp);
        return true;
      }
      return false;
    }

    /** getPriceLevels: walks the candles oldest first through
        (newest - count + i + 1 + MAX_CANDLES) % MAX_CANDLES and reports
        RangeOf the contents: (0, 100) when empty, else the least low and
        greatest high rounded outward to cents. */
    method GetPriceLevels() returns (r: Range)
      requires Valid()
      ensures r == RangeOf(History, LowOf, HighOf)
    {
      if numCandles == 0 {
        return DEFAULT_RANGE;
      }
      var acc: Option<Range> := None;
      var i := 0;
      while i < numCandles
        invariant 0 <= i <= numCandles
        invariant acc == Extremes(History[..i], LowOf, HighOf)
      {
        var index := (newestIndex - numCandles + i + 1 + MAX_CANDLES) % MAX_CANDLES;
        assert index == SlotOf(newestIndex, numCandles - 1 - i);
        var c := candles[index];
        ExtremesSnoc(History[..i], c, LowOf, HighOf);
        assert History[..i + 1] == History[..i] + [c];
        acc := Some(Widen(acc, c.low, c.high));
        i := i + 1;
      }
      assert History[..numCandles] == History;
      r := RoundOutward(acc.value);
    }

    /** getPriceLevelsForVisibleBars: walks the newest min(barsToShow, count)
        candles newest first through (newest - i + MAX_CANDLES) % MAX_CANDLES,
        folding in only those whose four prices are positive, and reports
        VisibleLevels of the contents. */
    method GetPriceLevelsForVisibleBars(barsToShow: int) returns (r: Range)
      requires Valid()
      ensures r == VisibleLevels(History, barsToShow)
    {
      if numCandles == 0 {
        return DEFAULT_RANGE;
      }
      var barsToCheck := MinInt(barsToShow, numCandles);
      var acc: Option<Range> := None;
      var i := 0;
      while i < barsToCheck
        invariant 0 <= i <= MaxInt(barsToCheck, 0)
        invariant acc == Extremes(Usables(History[numCandles - i..]), LowOf, HighOf)
      {
        var index := (newestIndex - i + MAX_CANDLES) % MAX_CANDLES;
        assert index == SlotOf(newestIndex, i);
        var c := candles[index];
        assert c == History[numCandles - 1 - i];
        ghost var rest := History[numCandles - i..];
        assert History[numCandles - 1 - i..] == [c] + rest;
        assert ([c] + rest)[1..] == rest;
        if c.high > 0.0 && c.low > 0.0 && c.open > 0.0 && c.close > 0.0 {
          assert Usables([c] + rest) == [c] + Usables(rest);
          assert ([c] + Usables(rest))[1..] == Usables(rest);
          acc := Some(Widen(acc, c.low, c.high));
        } else {
          assert Usables([c] + rest) == Usables(rest);
        }
        i := i + 1;
      }
      assert History[numCandles - MaxInt(barsToCheck, 0)..] == Window(History, barsToShow);
      if acc.None? {
        return DEFAULT_RANGE;
      }
      r := RoundOutward(acc.value);
    }
  }
}
