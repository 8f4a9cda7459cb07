/** The older engine of CandleStick.cpp: file-static arrays candles[] (open,
    high, low, close) and timestamps[], a ring over them with the same index
    arithmetic as DataFetcher, its own throttle and bucketing in
    fetch_intraday_data, the bulk load of fetch_candle_data and
    get_price_levels. */
module CandleStickEngine {
  import opened Wrappers
  import opened CArith
  import opened Ring
  import opened Candles
  import opened Intervals
  import opened PriceRange
  import opened Aggregation
  import opened Quotes
  import opened Levels

  /** candle_t. */
  datatype Bar = Bar(open: real, high: real, low: real, close: real)

  /** One ring position: the bar and the timestamps[] slot beside it. */
  datatype Entry = Entry(bar: Bar, timestamp: int)

  /** The bar update_circular_buffer writes: all four prices equal. */
  function FlatBar(price: real): (b: Bar)
    ensures b.open == b.high == b.low == b.close == price
  {
    Bar(price, price, price, price)
  }

  function EntryLow(e: Entry): real
  {
    e.bar.low
  }

  function EntryHigh(e: Entry): real
  {
    e.bar.high
  }

  /** low <= min(open, close) and max(open, close) <= high. */
  predicate Ordered(b: Bar)
  {
    b.low <= Min(b.open, b.close) && Max(b.open, b.close) <= b.high
  }

  /** What fetch_intraday_data does to the contents once it holds a
      non-zero price: a new flat bar stamped now when the ring is empty or
      now falls in another CANDLE_COLLECTION_DURATION bucket than the newest
      timestamp; otherwise only the newest bar's close, high and low change. */
  function IntradayStep(h: seq<Entry>, price: real, now: int, duration: int): (r: seq<Entry>)
    requires h != [] ==> duration != 0
    ensures |r| > 0 && Last(r).bar.close == price
  {
    if h == [] || ShouldCreateNewCandle(now, Last(h).timestamp, duration) then
      AppendRing(h, Entry(FlatBar(price), now))
    else
      var b := Last(h).bar;
      ReplaceNewest(h, Entry(b.(close := price, high := Max(b.high, price), low := Min(b.low, price)), Last(h).timestamp))
  }

  /** A step never breaks the OHLC ordering of any bar in the ring, and a
      step in the newest bar's bucket keeps its open and timestamp and the
      ring's size. */
  lemma IntradayStepKeepsOrdered(h: seq<Entry>, price: real, now: int, duration: int)
    requires (h != [] ==> duration != 0) && |h| <= MAX_CANDLES
    requires forall i :: 0 <= i < |h| ==> Ordered(h[i].bar)
    ensures var r := IntradayStep(h, price, now, duration);
      && (forall i :: 0 <= i < |r| ==> Ordered(r[i].bar))
      && |r| <= MAX_CANDLES
      && (h != [] && !ShouldCreateNewCandle(now, Last(h).timestamp, duration) ==>
            |r| == |h| && r[..|h| - 1] == h[..|h| - 1] &&
            Last(r).bar.open == Last(h).bar.open && Last(r).timestamp == Last(h).timestamp)
  {
    var r := IntradayStep(h, price, now, duration);
    if h == [] || ShouldCreateNewCandle(now, Last(h).timestamp, duration) {
      assert forall i :: 0 <= i < |r| - 1 ==> r[i] in h;
    } else {
      assert forall i :: 0 <= i < |r| - 1 ==> r[i] == h[i];
    }
  }

  /** The contents fetch_candle_data loads: the newest min(n, MAX_CANDLES)
      of the n points, oldest first, entry i being point n - |r| + i. */
  function LoadHistory(c: Chart): (r: seq<Entry>)
    ensures var n := |Timestamps(c)|;
      && |r| == MinInt(n, MAX_CANDLES)
      && forall i :: 0 <= i < |r| ==> r[i] == PointEntry(c, n - |r| + i)
  {
    var n := |Timestamps(c)|;
    var m := MinInt(n, MAX_CANDLES);
    var r := seq(m, i requires 0 <= i < m => PointEntry(c, n - m + i));
    assert forall i :: 0 <= i < m ==> r[i] == PointEntry(c, n - m + i);
    r
  }

  /** Data point j as a ring entry. */
  function PointEntry(c: Chart, j: int): Entry
  {
    Entry(Bar(AsFloat(c.opens, j), AsFloat(c.highs, j), AsFloat(c.lows, j), AsFloat(c.closes, j)),
          AsLong(Timestamps(c), j))
  }

  /** getCurrentPrice outside test mode: the first close of the 1d/1d chart,
      or 0 when the request or the parse fails or the close is null or
      missing. A non-zero price is always that first close. */
  function QuotedPrice(r: Response): (price: real)
    ensures price != 0.0 ==>
      r.Payload? && r.chart.Some? && |r.chart.value.closes| > 0 && r.chart.value.closes[0] == Some(price)
    ensures r.Payload? && r.chart.Some? && |r.chart.value.closes| > 0 && r.chart.value.closes[0].Some? ==>
      price == r.chart.value.closes[0].value
    ensures !(r.Payload? && r.chart.Some?) ==> price == 0.0
    ensures r.Payload? && r.chart.Some? && (|r.chart.value.closes| == 0 || r.chart.value.closes[0].None?) ==>
      price == 0.0
  {
    match r
    case HttpFailure => 0.0
    case Payload(_, None) => 0.0
    case Payload(_, Some(c)) => AsFloat(c.closes, 0)
  }

  /** A DataFetcher candle seen as an entry of this engine. */
  function ToEntry(c: Candle): Entry
  {
    Entry(Bar(c.open, c.high, c.low, c.close), c.timestamp)
  }

  function Project(h: seq<Candle>): (r: seq<Entry>)
    ensures |r| == |h| && forall i :: 0 <= i < |h| ==> r[i] == ToEntry(h[i])
  {
    seq(|h|, i requires 0 <= i < |h| => ToEntry(h[i]))
  }

  /** The two engines bucket alike: when both use the same bucket width,
      a live DataFetcher sample does to the prices and timestamps exactly
      what fetch_intraday_data does with the same price and time. */
  lemma EnginesBucketAlike(s: AggState, price: real, now: int, duration: int)
    requires s.history != [] ==> duration != 0
    ensures Project(LiveStep(s, price, now, duration).history) == IntradayStep(Project(s.history), price, now, duration)
  {
    var h := s.history;
    var p := Project(h);
    if h == [] || ShouldCreateNewCandle(now, Last(h).timestamp, duration) {
      var x := Opening(price, now, true);
      assert ToEntry(x) == Entry(FlatBar(price), now);
      if |h| < MAX_CANDLES {
        assert Project(h + [x]) == p + [ToEntry(x)];
      } else {
        assert Project(h[1..] + [x]) == p[1..] + [ToEntry(x)];
      }
    } else {
      var c := Extend(Last(h), price).(isComplete := true);
      assert Project(ReplaceNewest(h, c)) == ReplaceNewest(p, ToEntry(c));
    }
  }

  class CandleStick {
    const candles: array<Bar>
    const timestamps: array<int>
    var newestIndex: int
    var numCandles: int
    var lastUpdateTime: int
    var currentPrice: real

    /** USE_TEST_DATA, INTRADAY_UPDATE_INTERVAL (compared with seconds in
        this engine) and CANDLE_COLLECTION_DURATION. */
    const useTestData: bool
    const updateInterval: int
    const collectionDuration: int

    /** The ring's contents, oldest first. */
    ghost var History: seq<Entry>

    ghost predicate Valid()
      reads this, candles, timestamps
    {
      && candles.Length == MAX_CANDLES && timestamps.Length == MAX_CANDLES
      && 0 <= numCandles <= MAX_CANDLES
      && -1 <= newestIndex < MAX_CANDLES
      && (numCandles == 0 <==> newestIndex == -1)
      && |History| == numCandles
      && forall k :: 0 <= k < numCandles ==>
           Entry(candles[SlotOf(newestIndex, k)], timestamps[SlotOf(newestIndex, k)]) == History[numCandles - 1 - k]
    }

    constructor (useTestData: bool, updateInterval: int, collectionDuration: int)
      ensures Valid() && fresh(candles) && fresh(timestamps)
      ensures History == [] && newestIndex == -1 && lastUpdateTime == 0 && currentPrice == 0.0
      ensures this.useTestData == useTestData && this.updateInterval == updateInterval
      ensures this.collectionDuration == collectionDuration
    {
      candles := new Bar[MAX_CANDLES](_ => Bar(0.0, 0.0, 0.0, 0.0));
      timestamps := new int[MAX_CANDLES](_ => 0);
      newestIndex, numCandles := -1, 0;
      lastUpdateTime, currentPrice := 0, 0.0;
      this.useTestData := useTestData;
      this.updateInterval := updateInterval;
      this.collectionDuration := collectionDuration;
      History := [];
    }

    /** update_circular_buffer: a flat bar at price stamped now becomes the
        newest entry (count up to MAX_CANDLES, index advanced modulo
        MAX_CANDLES, only that slot of each array written), and the current
        price becomes price. */
    method UpdateCircularBuffer(price: real, now: int)
      requires Valid()
      modifies this, candles, timestamps
      ensures Valid()
      ensures History == AppendRing(old(History), Entry(FlatBar(price), now))
      ensures numCandles == MinInt(old(numCandles) + 1, MAX_CANDLES) && newestIndex == NextSlot(old(newestIndex))
      ensures forall i :: 0 <= i < MAX_CANDLES && i != newestIndex ==>
        candles[i] == old(candles[i]) && timestamps[i] == old(timestamps[i])
      ensures currentPrice == price && lastUpdateTime == old(lastUpdateTime)
    {
      ghost var oldNewest := newestIndex;
      if numCandles < MAX_CANDLES {
        numCandles := numCandles + 1;
      }
      newestIndex := (newestIndex + 1) % MAX_CANDLES;
      candles[newestIndex] := FlatBar(price);
      timestamps[newestIndex] := now;
      currentPrice := price;
      History := AppendRing(History, Entry(FlatBar(price), now));
      forall k | 0 <= k < numCandles
        ensures Entry(candles[SlotOf(newestIndex, k)], timestamps[SlotOf(newestIndex, k)]) == History[numCandles - 1 - k]
      {
        if k > 0 {
          assert SlotOf(newestIndex, k) == SlotOf(oldNewest, k - 1);
        }
      }
    }

    /** getCurrentPrice: in test mode the generator's price (an input here),
        otherwise QuotedPrice of the 1d/1d chart; either way it is stored as
        the current price, zero included. */
    method GetCurrentPrice(symbol: string, testPrice: real, quote: QuoteSource) returns (price: real)
      modifies this
      ensures price == (if useTestData then testPrice else QuotedPrice(quote(symbol, "1d", "1d")))
      ensures currentPrice == price
      ensures History == old(History) && numCandles == old(numCandles) && newestIndex == old(newestIndex)
      ensures lastUpdateTime == old(lastUpdateTime)
    {
      if useTestData {
        currentPrice := testPrice;
        return testPrice;
      }
      var response := quote(symbol, "1d", "1d");
      price := 0.0;
      if response.Payload? && response.chart.Some? {
        price := AsFloat(response.chart.value.closes, 0);
      }
      currentPrice := price;
    }

    /** fetch_intraday_data: nothing happens until INTRADAY_UPDATE_INTERVAL
        seconds have passed; then the time is recorded whatever follows, a
        zero price stops there (stored as the current price, ring
        unchanged), and any other price is folded in as IntradayStep says. */
    method FetchIntradayData(symbol: string, now: int, testPrice: real, quote: QuoteSource) returns (updated: bool)
      requires Valid() && (numCandles > 0 ==> collectionDuration != 0)
      modifies this, candles, timestamps
      ensures Valid()
      ensures now - old(lastUpdateTime) < updateInterval ==>
        !updated && unchanged(this) && unchanged(candles) && unchanged(timestamps)
      ensures now - old(lastUpdateTime) >= updateInterval ==>
        var price := if useTestData then testPrice else QuotedPrice(quote(symbol, "1d", "1d"));
        && lastUpdateTime == now && currentPrice == price
        && (updated <==> price != 0.0)
        && (price == 0.0 ==> History == old(History) && unchanged(candles) && unchanged(timestamps))
        && (price != 0.0 ==> History == IntradayStep(old(History), price, now, collectionDuration))
    {
      if now - lastUpdateTime < updateInterval {
        return false;
      }
      lastUpdateTime := now;
      var price := GetCurrentPrice(symbol, testPrice, quote);
      if price == 0.0 {
        return false;
      }
      currentPrice := price;
      if numCandles == 0 {
        UpdateCircularBuffer(price, now);
      } else {
        assert SlotOf(newestIndex, 0) == newestIndex;
        if TruncDiv(now, collectionDuration) != TruncDiv(timestamps[newestIndex], collectionDuration) {
          UpdateCircularBuffer(price, now);
        } else {
          var b := candles[newestIndex];
          candles[newestIndex] := b.(close := price, high := Max(b.high, price), low := Min(b.low, price));
          History := ReplaceNewest(History, Entry(candles[newestIndex], timestamps[newestIndex]));
          forall k | 0 <= k < numCandles
            ensures Entry(candles[SlotOf(newestIndex, k)], timestamps[SlotOf(newestIndex, k)]) == History[numCandles - 1 - k]
          {
            if k > 0 {
              assert SlotOf(newestIndex, k) != newestIndex;
            }
          }
        }
      }
      return true;
    }

    /** One pass of fetch_candle_data's loop: the point at dataIndex is
        appended (its open through update_circular_buffer, which also makes
        it the current price), then its close, high and low are written
        into the newest slot. */
    method AppendPoint(chart: Chart, dataIndex: int)
      requires Valid() && |History| < MAX_CANDLES
      modifies this, candles, timestamps
      ensures Valid()
      ensures History == old(History) + [PointEntry(chart, dataIndex)]
      ensures currentPrice == PointEntry(chart, dataIndex).bar.open && lastUpdateTime == old(lastUpdateTime)
    {
      var ts := Timestamps(chart);
      UpdateCircularBuffer(AsFloat(chart.opens, dataIndex), AsLong(ts, dataIndex));
      assert SlotOf(newestIndex, 0) == newestIndex;
      var b := candles[newestIndex];
      candles[newestIndex] := b.(close := AsFloat(chart.closes, dataIndex));
      candles[newestIndex] := candles[newestIndex].(high := AsFloat(chart.highs, dataIndex));
      candles[newestIndex] := candles[newestIndex].(low := AsFloat(chart.lows, dataIndex));
      assert Entry(candles[newestIndex], timestamps[newestIndex]) == PointEntry(chart, dataIndex);
      History := ReplaceNewest(History, PointEntry(chart, dataIndex));
      forall k | 0 <= k < numCandles
        ensures Entry(candles[SlotOf(newestIndex, k)], timestamps[SlotOf(newestIndex, k)]) == History[numCandles - 1 - k]
      {
        if k > 0 {
          assert SlotOf(newestIndex, k) != newestIndex;
        }
      }
    }

    /** fetch_candle_data: a failed request or parse changes nothing;
        otherwise the ring is emptied and then holds LoadHistory of the
        chart, and the current price is left as the newest point's open (each
        append stores its open as the price; close, high and low are written
        afterwards). */
    method FetchCandleData(symbol: string, quote: QuoteSource) returns (ok: bool)
      requires Valid()
      modifies this, candles, timestamps
      ensures Valid()
      ensures var r := quote(symbol, "1d", "2y");
        ok <==> r.Payload? && r.chart.Some?
      ensures !ok ==> unchanged(this) && unchanged(candles) && unchanged(timestamps)
      ensures ok ==> (History == LoadHistory(quote(symbol, "1d", "2y").chart.value) &&
        currentPrice == (if History == [] then old(currentPrice) else Last(History).bar.open) &&
        lastUpdateTime == old(lastUpdateTime))
    {
      var response := quote(symbol, "1d", "2y");
      if response.HttpFailure? || response.chart.None? {
        return false;
      }
      var chart := response.chart.value;
      var ts := Timestamps(chart);
      var dataSize := MinInt(|ts|, MAX_CANDLES);
      numCandles := 0;
      newestIndex := -1;
      History := [];
      ghost var loaded := LoadHistory(chart);
      var i := 0;
      while i < dataSize
        invariant 0 <= i <= dataSize
        invariant Valid()
        invariant History == loaded[..i]
        invariant i > 0 ==> currentPrice == loaded[i - 1].bar.open
        invariant i == 0 ==> currentPrice == old(currentPrice)
        invariant lastUpdateTime == old(lastUpdateTime)
      {
        var dataIndex := |ts| - dataSize + i;
        AppendPoint(chart, dataIndex);
        assert PointEntry(chart, dataIndex) == loaded[i];
        assert History == loaded[..i + 1];
        i := i + 1;
      }
      assert loaded[..dataSize] == loaded;
      return true;
    }

    /** get_price_levels: walks every entry oldest first through
        (newest - count + i + 1 + MAX_CANDLES) % MAX_CANDLES; (0, 100) when
        there is none, else the least low and greatest high, rounded outward
        to cents in both cases. That is RangeOf the contents, the same
        function DataFetcher's getPriceLevels computes. */
    method GetPriceLevels() returns (r: Range)
      requires Valid()
      ensures r == RangeOf(History, EntryLow, EntryHigh)
    {
      var acc: Option<Range> := None;
      var hasData := false;
      var i := 0;
      while i < numCandles
        invariant 0 <= i <= numCandles
        invariant acc == Extremes(History[..i], EntryLow, EntryHigh)
        invariant hasData <==> i > 0
      {
        var index := (newestIndex - numCandles + i + 1 + MAX_CANDLES) % MAX_CANDLES;
        assert index == SlotOf(newestIndex, numCandles - 1 - i);
        var e := Entry(candles[index], timestamps[index]);
        ExtremesSnoc(History[..i], e, EntryLow, EntryHigh);
        assert History[..i + 1] == History[..i] + [e];
        acc := Some(Widen(acc, e.bar.low, e.bar.high));
        hasData := true;
        i := i + 1;
      }
      assert History[..numCandles] == History;
      var unrounded := if !hasData then DEFAULT_RANGE else acc.value;
      RoundedDefault();
      r := RoundOutward(unrounded);
    }
  }
}
