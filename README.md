# LilyGo-Ticker candle engine in Dafny

This project models the OHLC candle engine of the LilyGo ticker firmware
(PIO-T-Display-s3-pro). The engine exists in three revisions, and the model
covers each of them:

- **`DataFetcher`** (data_fetcher.cpp), the current engine. It has:
  - a ring of `MAX_CANDLES` = 130 candles;
  - the two-regime aggregator `buildIntradayCandle`: live candles are
    bucketed by wall-clock interval, test candles by sample count;
  - the interval table and the range ladder;
  - the initial load, with its oversize retry and fallback;
  - the throttled live update with its backward close scan;
  - the two price-level queries;
  - `validateCandle`.
- **`StockTracker::CandleData` and `CandleBuffer`** (types.cpp). These are
  vector-backed candles that carry their own end time. The buffer evicts its
  front when full and completes its back before it starts a new candle.
- **The older engine of CandleStick.cpp.** It keeps static `candles[]` and
  `timestamps[]` arrays, runs its own throttle and bucketing in
  `fetch_intraday_data`, and has a bulk load and `get_price_levels`.

The model also covers `MarketHoursChecker::isMarketOpen` (market_hours.h)
and the ten-line text ring of the debug overlay (DebugOverlay.cpp).

The project has two layers.

- **Specification functions.** Pure functions on sequences describe what
  each operation does to the contents: the candles of a ring, oldest first.
  The lemmas state what that means over one or several calls: bucket
  determinism, test-bar counting, the range ladder, validity preserved, the
  buffer's shape, and which lines the overlay shows.
- **Classes.** Each engine's state is a class over arrays (or a sequence of
  objects for `CandleBuffer`), with the source's fields.
  - Each method is proved to change the state exactly as a specification
    function says.
  - The link is a ghost `History` (or `Printed`) kept by `Valid()`: the
    array slots hold the contents in ring order.

**Values and time**

- Prices are real numbers.
- Times are integers passed in as parameters.
- C++'s truncating integer division is written out (`CArith.TruncDiv`).
- The `unsigned long` millisecond subtraction is taken modulo 2^32.
- Configuration globals are constant fields set by the constructors:
  `USE_TEST_DATA`, `YAHOO_INTERVAL`, `ENFORCE_MARKET_HOURS`,
  `TEST_DATA_UPDATES_PER_BAR`, `INTRADAY_UPDATE_INTERVAL` and
  `CANDLE_COLLECTION_DURATION`.

**HTTP and JSON.** The HTTP client and the JSON parser are one abstract
function `QuoteSource` from (symbol, interval, range) to a `Response`:

- a failed request;
- or a payload of some size that either parsed into a `Chart` (parallel
  arrays whose elements may be null) or did not.

ArduinoJson's reading of a null or missing element as 0 is kept (`AsFloat`,
`AsLong`).

**Behaviour of the code worth knowing; the model follows it.**

- A parsed payload without timestamps fails with no fallback. Only an
  unparseable payload, or an oversized one on the bottom rung, falls back.
- The sample that opens a counted test bar never completes it, so a test
  bar takes `max(TEST_DATA_UPDATES_PER_BAR, 2)` samples
  (`Aggregation.BarLength`).
- Buckets use C++'s truncating division, for either sign of the width. For
  non-negative times this is the usual "same bucket" test, and the bucket
  lemmas are stated for those.
- An unknown interval code buckets by `CANDLE_COLLECTION_DURATION`.
- Text is handled as C `char`s: one model character per byte.

## Model

| member | source | states |
|---|---|---|
| Ring.SlotOf | PIO-T-Display-s3-pro/src/data_fetcher.cpp:562 | the slot k steps older than the newest is in range, steps backward and wraps from slot 0 to the last slot |
| Ring.NextSlot | PIO-T-Display-s3-pro/src/data_fetcher.cpp:509 | the next slot is in range and wraps from the last slot to 0 |
| Ring.RingAppend | PIO-T-Display-s3-pro/src/data_fetcher.cpp:504-511 | writing the next slot and advancing the index makes the array hold the contents with the candle appended, the oldest lost once full |
| Ring.RingReplace | PIO-T-Display-s3-pro/src/data_fetcher.cpp:464-469 | writing the newest slot replaces exactly the newest entry of the contents |
| Ring.RingNewest | PIO-T-Display-s3-pro/src/data_fetcher.cpp:131 | the newest entry sits in slot newest_candle_index |
| Ring.AppendRingShape | PIO-T-Display-s3-pro/src/data_fetcher.cpp:504-511 | one append gives min(count + 1, MAX_CANDLES) entries, the new one newest, the survivors in order |
| Ring.AppendsFromEmpty | PIO-T-Display-s3-pro/src/data_fetcher.cpp:504-511 | after k appends from empty the ring holds min(k, MAX_CANDLES) entries, the last ones appended, in order |
| Intervals.GetIntervalSeconds | PIO-T-Display-s3-pro/src/data_fetcher.cpp:482-502 | every known code gets the positive duration the code itself names ("90m" is 90 minutes, "60m" and "1h" one hour); any other string gets CANDLE_COLLECTION_DURATION |
| Intervals.CodeSecondsOfTable | PIO-T-Display-s3-pro/src/data_fetcher.cpp:483-498 | the literal reading of each table code is the number of seconds the table returns |
| Intervals.GetSmallerRange | PIO-T-Display-s3-pro/src/data_fetcher.cpp:139-152 | steps 1y, 6mo, 3mo, 1mo, 5d, 1d one rung down; the identity exactly on the bottom rung and on other strings; each real step lowers the ladder rank by one |
| CArith.TruncDiv | PIO-T-Display-s3-pro/src/CandleStick.cpp:93 | for any non-zero divisor the quotient truncates toward zero: q * b lies between 0 and the dividend, less than the divisor's magnitude from it |
| CArith.TruncDivNegated | PIO-T-Display-s3-pro/src/CandleStick.cpp:93 | C++ division by a negated divisor gives the negated quotient |
| Intervals.ShouldCreateNewCandle | PIO-T-Display-s3-pro/src/data_fetcher.cpp:475-480 | for any non-zero width, positive or negative, and non-negative times: true exactly when the current time lies outside the last candle's bucket [start, start + m), m the width's magnitude; times in one bucket are less than m apart |
| Candles.Opening | PIO-T-Display-s3-pro/src/data_fetcher.cpp:454-460 | a new candle has open = high = low = close = price, the given timestamp and completion flag |
| Candles.Extend | PIO-T-Display-s3-pro/src/data_fetcher.cpp:464-469 | a sample becomes the close, high becomes max(high, price) and low min(low, price), so the range only widens; open, timestamp and flag are kept; a valid candle stays valid for a positive price |
| Candles.ValidateCandle | PIO-T-Display-s3-pro/src/data_fetcher.cpp:770-797 | passes exactly when 0 < low <= min(open, close) and max(open, close) <= high |
| Candles.ValidIsUsable | PIO-T-Display-s3-pro/src/data_fetcher.cpp:574-575 | a candle that passes validateCandle also passes the positivity check of the visible-range query |
| PriceRange.ExtremesSnoc | PIO-T-Display-s3-pro/src/data_fetcher.cpp:523-528 | folding oldest-first, as the loop does, gives the same range as the reference fold |
| PriceRange.ExtremesBounds | PIO-T-Display-s3-pro/src/data_fetcher.cpp:523-528 | the range is absent only for no candles; otherwise lo is some low and no low is smaller, hi is some high and no high is larger, and lo <= hi for ordered candles |
| PriceRange.RoundDownCents | PIO-T-Display-s3-pro/src/data_fetcher.cpp:531 | floor(x * 100) / 100 is at most x and less than a cent below it |
| PriceRange.RoundUpCents | PIO-T-Display-s3-pro/src/data_fetcher.cpp:532 | ceil(x * 100) / 100 is at least x and less than a cent above it |
| PriceRange.RoundOutward | PIO-T-Display-s3-pro/src/data_fetcher.cpp:531-532 | the rounded range contains the unrounded one and widens each end by less than a cent |
| Levels.RangeOf | PIO-T-Display-s3-pro/src/data_fetcher.cpp:517-521 | no candles give the fallback range (0, 100) |
| Levels.RangeOfCovers | PIO-T-Display-s3-pro/src/data_fetcher.cpp:513-533 | a non-empty run's range holds every candle, each end within a cent of some low or high, ordered when the candles are |
| Levels.RoundedDefault | PIO-T-Display-s3-pro/src/CandleStick.cpp:163-170 | rounding the fallback (0, 100) outward leaves it unchanged, so the two engines agree on it |
| Levels.Window | PIO-T-Display-s3-pro/src/data_fetcher.cpp:548-562 | the checked candles are the newest min(bars_to_show, count) of them, none for a non-positive count |
| Levels.UsablesExact | PIO-T-Display-s3-pro/src/data_fetcher.cpp:574-577 | exactly the candles with four positive prices are folded in |
| Levels.VisibleLevelsFallback | PIO-T-Display-s3-pro/src/data_fetcher.cpp:585-591 | with no usable candle among those checked the result is (0, 100) |
| Levels.VisibleLevelsCovers | PIO-T-Display-s3-pro/src/data_fetcher.cpp:558-595 | with a usable checked candle the range holds every usable checked candle, each end lies within a cent of one, and it is ordered when they are |
| Aggregation.LiveStepKeepsValid | PIO-T-Display-s3-pro/src/data_fetcher.cpp:448-473 | a live sample with a positive price keeps every candle passing validateCandle and the count within 1..MAX_CANDLES |
| Aggregation.LiveSameBucket | PIO-T-Display-s3-pro/src/data_fetcher.cpp:449-470 | two samples in one new bucket make exactly one candle: open p1, close p2, high max, low min, stamped t1, complete |
| Aggregation.LiveNewBucket | PIO-T-Display-s3-pro/src/data_fetcher.cpp:451-462 | a sample in a later bucket leaves the first candle as it was and opens a second |
| Aggregation.TestStepShape | PIO-T-Display-s3-pro/src/data_fetcher.cpp:380-446 | a new incomplete candle with counter 1 exactly when the buffer is empty or its newest candle complete; otherwise older candles kept, open kept, close and timestamp set, complete exactly when the counter reaches the bar length |
| Aggregation.TestBarForms | PIO-T-Display-s3-pro/src/data_fetcher.cpp:380-446 | from an empty buffer or a completed candle, k <= max(N, 2) samples build one candle with the first price as open, the last as close, the extremes as high and low and the last time as timestamp; the counter is k and the candle completes exactly at k = max(N, 2) |
| Quotes.ChartHistory | PIO-T-Display-s3-pro/src/data_fetcher.cpp:113-129 | the loaded candles are the newest min(n, MAX_CANDLES) points in source order, all complete, the last being the newest point |
| Quotes.FallbackLoad | PIO-T-Display-s3-pro/src/data_fetcher.cpp:154-206 | loads exactly when the 1d/1d request parses and has a timestamp, and then yields one complete candle built from the chart's last point |
| Quotes.InitialLoad | PIO-T-Display-s3-pro/src/data_fetcher.cpp:38-137 | the requested range is tried first, each later range is the next rung down and every range but the last was oversized, so at most six are tried; the answer at the last range decides: the fallback (FallbackLoad) exactly when it is oversized or unparsed, the newest MAX_CANDLES points of its chart (ChartHistory) when it parses with timestamps, and failure exactly when the request fails or the parsed chart has no timestamps |
| Quotes.OversizedRetries | PIO-T-Display-s3-pro/src/data_fetcher.cpp:65-73 | an oversized payload above the bottom rung gives the load one rung down |
| Quotes.OversizedFallsBack | PIO-T-Display-s3-pro/src/data_fetcher.cpp:74-77 | an oversized payload on the bottom rung goes to the fallback |
| Quotes.LadderFromRung | PIO-T-Display-s3-pro/src/data_fetcher.cpp:64-78 | when every rung from k down is oversized, exactly those rungs are tried in order and then the fallback once |
| Quotes.LadderAllOversized | PIO-T-Display-s3-pro/src/data_fetcher.cpp:64-78 | all oversized from 1y: 1y, 6mo, 3mo, 1mo, 5d, 1d are requested, then the fallback once |
| Quotes.LatestPositiveClose | PIO-T-Display-s3-pro/src/data_fetcher.cpp:343-354 | the found index holds a present positive close and every later close is null or non-positive; none found only when no close qualifies |
| Quotes.LatestQuote | PIO-T-Display-s3-pro/src/data_fetcher.cpp:307-362 | a price reaches the aggregator exactly when the response is successful, non-empty and parsed with timestamps and has an accepted close; it is then the newest positive close with its own timestamp |
| DataFetcherEngine.LiveStepSeconds | PIO-T-Display-s3-pro/src/data_fetcher.cpp:277-281 | the live step is INTRADAY_UPDATE_INTERVAL / 1000 truncated, and at least one second |
| DataFetcherEngine.ScanLatestClose | PIO-T-Display-s3-pro/src/data_fetcher.cpp:343-354 | the backward scan returns the close and timestamp at LatestPositiveClose, or (0, 0) |
| DataFetcherEngine.DataFetcher.IntervalSeconds | PIO-T-Display-s3-pro/src/data_fetcher.cpp:449 | the live bucket width is positive for a table code and CANDLE_COLLECTION_DURATION otherwise |
| DataFetcherEngine.DataFetcher.constructor | PIO-T-Display-s3-pro/src/data_fetcher.cpp:6-11 | the statics start as an empty ring (index -1) with zeroed time, price, flag and counters |
| DataFetcherEngine.DataFetcher.Reset | PIO-T-Display-s3-pro/src/data_fetcher.cpp:799-805 | the ring is empty with index -1; time, price and loaded flag are cleared; counters kept |
| DataFetcherEngine.DataFetcher.UpdateCircularBuffer | PIO-T-Display-s3-pro/src/data_fetcher.cpp:504-511 | count = min(count + 1, MAX_CANDLES), index advanced modulo MAX_CANDLES, only that slot written; the contents become AppendRing |
| DataFetcherEngine.DataFetcher.OverwriteNewest | PIO-T-Display-s3-pro/src/data_fetcher.cpp:464-469 | only the newest slot changes; count and index kept |
| DataFetcherEngine.DataFetcher.BuildIntradayCandle | PIO-T-Display-s3-pro/src/data_fetcher.cpp:369-473 | the contents and counters change as TestStep (test regime) or LiveStep (live regime) say, and the current price becomes the sample's |
| DataFetcherEngine.DataFetcher.CountedSample | PIO-T-Display-s3-pro/src/data_fetcher.cpp:380-442 | the test-regime branch after the counter bookkeeping is TestStep |
| DataFetcherEngine.DataFetcher.BucketedSample | PIO-T-Display-s3-pro/src/data_fetcher.cpp:449-470 | the live-regime branch after the counter bookkeeping is LiveStep |
| DataFetcherEngine.DataFetcher.FetchInitialData | PIO-T-Display-s3-pro/src/data_fetcher.cpp:38-137 | succeeds exactly when InitialLoad loads; the ring then holds the loaded candles, the price is the newest close and the data is loaded; any failure changes nothing |
| DataFetcherEngine.DataFetcher.AppendPoint | PIO-T-Display-s3-pro/src/data_fetcher.cpp:118-128 | one loop pass appends the complete candle of data point dataIndex |
| DataFetcherEngine.DataFetcher.MarkLoaded | PIO-T-Display-s3-pro/src/data_fetcher.cpp:131-132 | sets the price and the loaded flag, ring untouched |
| DataFetcherEngine.DataFetcher.LoadChart | PIO-T-Display-s3-pro/src/data_fetcher.cpp:109-132 | after the reset and the loop the contents are ChartHistory and the price is the newest close |
| DataFetcherEngine.DataFetcher.FetchFallbackData | PIO-T-Display-s3-pro/src/data_fetcher.cpp:154-206 | succeeds exactly when FallbackLoad loads; the ring then holds that one candle with its close as price; any failure changes nothing |
| DataFetcherEngine.DataFetcher.UpdateData | PIO-T-Display-s3-pro/src/data_fetcher.cpp:208-367 | test regime: not due (millis modulo 2^32) changes nothing, due feeds the sample to TestStep; live regime: not due changes nothing, due records the time first, then feeds LatestQuote (unless market hours forbid) to LiveStep; returns whether data was folded in |
| DataFetcherEngine.DataFetcher.FetchLatest | PIO-T-Display-s3-pro/src/data_fetcher.cpp:290-366 | outside enforced market hours or without an accepted close nothing changes; otherwise the newest accepted close is the price and goes to LiveStep |
| DataFetcherEngine.DataFetcher.GetPriceLevels | PIO-T-Display-s3-pro/src/data_fetcher.cpp:513-533 | the oldest-first walk returns RangeOf the contents |
| DataFetcherEngine.DataFetcher.GetPriceLevelsForVisibleBars | PIO-T-Display-s3-pro/src/data_fetcher.cpp:535-598 | the newest-first walk returns VisibleLevels of the contents and changes nothing |
| MarketHours.IsMarketOpen | PIO-T-Display-s3-pro/src/market_hours.h:17-46 | test data or unenforced hours: open, even at weekends; unsynced clock: open; Saturday and Sunday: closed; otherwise open exactly from 06:30 inclusive to 13:00 exclusive |
| CandleBufferModel.Started | PIO-T-Display-s3-pro/src/types.cpp:11-19 | all four prices the opening price, the given start, ending one configured duration later, not completed, ordered |
| CandleBufferModel.Updated | PIO-T-Display-s3-pro/src/types.cpp:21-25 | close set, high and low only widened, open, times and flag kept, OHLC order preserved |
| CandleBufferModel.Completed | PIO-T-Display-s3-pro/src/types.cpp:27-29 | only the completion flag changes, to true |
| CandleBufferModel.CompleteIdempotent | PIO-T-Display-s3-pro/src/types.cpp:27-29 | completing twice is completing once |
| CandleBufferModel.AlignToInterval | PIO-T-Display-s3-pro/src/types.cpp:67-69 | a multiple of the interval; for t >= 0 the largest not above t, for t < 0 rounded toward zero |
| CandleBufferModel.NextCandleStart | PIO-T-Display-s3-pro/src/types.cpp:71-81 | for t >= 0 the least multiple of the duration at or after t, equal to t exactly when t is aligned |
| CandleBufferModel.CloseBack | PIO-T-Display-s3-pro/src/types.cpp:102-104 | only the back is completed |
| CandleBufferModel.Evicted | PIO-T-Display-s3-pro/src/types.cpp:106-108 | the front is dropped exactly when the buffer holds maxSize or more |
| CandleBufferModel.BufferStepSize | PIO-T-Display-s3-pro/src/types.cpp:97-122 | an update leaves between one and maxSize candles |
| CandleBufferModel.BufferStepStarts | PIO-T-Display-s3-pro/src/types.cpp:110-115 | a new candle starts at the old back's end time, or at the aligned current time when nothing is left after eviction |
| CandleBufferModel.BufferStepUpdates | PIO-T-Display-s3-pro/src/types.cpp:119-121 | a non-creating update changes only the back, as CandleData::update does |
| CandleBufferModel.BufferStepKeepsOpen | PIO-T-Display-s3-pro/src/types.cpp:101-115 | every candle but the back stays completed |
| CandleBufferModel.BufferStepKeepsContiguous | PIO-T-Display-s3-pro/src/types.cpp:110-115 | each candle keeps starting where the previous one ends |
| CandleBufferModel.BufferStepKeepsSpans | PIO-T-Display-s3-pro/src/types.cpp:97-122 | every candle keeps its configured span and its OHLC order |
| CandleBufferModel.BufferStepKeepsShape | PIO-T-Display-s3-pro/src/types.cpp:97-122 | one update keeps the whole shape: bounded, only the back open, contiguous, spans and order |
| CandleBufferModel.BufferRun | PIO-T-Display-s3-pro/src/types.cpp:97-122 | after any sequence of updates from empty the buffer has that shape, with at least one candle once anything was fed |
| CandleBufferModel.CandleData.constructor | PIO-T-Display-s3-pro/src/types.cpp:11-19 | the object's value is Started |
| CandleBufferModel.CandleData.Update | PIO-T-Display-s3-pro/src/types.cpp:21-25 | the object's value becomes Updated |
| CandleBufferModel.CandleData.Complete | PIO-T-Display-s3-pro/src/types.cpp:27-29 | the object's value becomes Completed |
| CandleBufferModel.CandleBuffer.constructor | PIO-T-Display-s3-pro/src/types.cpp:62-65 | an empty buffer with the given size and duration |
| CandleBufferModel.CandleBuffer.GetCurrentCandle | PIO-T-Display-s3-pro/src/types.cpp:124-126 | null exactly for an empty buffer, otherwise the back |
| CandleBufferModel.CandleBuffer.GetLastCompletedCandle | PIO-T-Display-s3-pro/src/types.cpp:128-130 | null exactly below two candles, otherwise the one before the back, which is completed |
| CandleBufferModel.CandleBuffer.ShouldCreateNewCandle | PIO-T-Display-s3-pro/src/types.cpp:83-95 | true exactly when the buffer is empty or the time has reached the back's end time |
| CandleBufferModel.CandleBuffer.CompleteBack | PIO-T-Display-s3-pro/src/types.cpp:102-104 | only the back's value changes, to completed |
| CandleBufferModel.CandleBuffer.UpdateBack | PIO-T-Display-s3-pro/src/types.cpp:119-121 | only the back's value changes, as CandleData::update says |
| CandleBufferModel.CandleBuffer.PushCandle | PIO-T-Display-s3-pro/src/types.cpp:115 | a fresh Started candle is appended, the others kept |
| CandleBufferModel.CandleBuffer.EvictFront | PIO-T-Display-s3-pro/src/types.cpp:106-108 | the front is dropped |
| CandleBufferModel.CandleBuffer.EvictAndPush | PIO-T-Display-s3-pro/src/types.cpp:106-115 | evict when full, then push a candle at the back's end time or the aligned time |
| CandleBufferModel.CandleBuffer.StartCandle | PIO-T-Display-s3-pro/src/types.cpp:101-118 | the creating branch does what BufferStep says |
| CandleBufferModel.CandleBuffer.Update | PIO-T-Display-s3-pro/src/types.cpp:97-122 | the values change as BufferStep says, the buffer invariant (at most maxSize, only the back open) is kept, new candles are fresh objects |
| CandleStickEngine.FlatBar | PIO-T-Display-s3-pro/src/CandleStick.cpp:38-41 | all four prices equal the price |
| CandleStickEngine.IntradayStep | PIO-T-Display-s3-pro/src/CandleStick.cpp:93-99 | a non-empty result whose newest close is the price |
| CandleStickEngine.IntradayStepKeepsOrdered | PIO-T-Display-s3-pro/src/CandleStick.cpp:93-99 | every bar stays in OHLC order and the count bounded; a same-bucket step keeps the count, the older bars, the open and the timestamp |
| CandleStickEngine.LoadHistory | PIO-T-Display-s3-pro/src/CandleStick.cpp:132-145 | the newest min(n, MAX_CANDLES) points in source order, entry i being point n - dataSize + i |
| CandleStickEngine.QuotedPrice | PIO-T-Display-s3-pro/src/CandleStick.cpp:51-73 | a non-zero price is the first close of a successful, parsed response; a present first close is the price; a failed request, a failed parse or a null or missing first close gives 0 |
| CandleStickEngine.EnginesBucketAlike | PIO-T-Display-s3-pro/src/CandleStick.cpp:93-99 | with the same bucket width, a live DataFetcher sample and fetch_intraday_data do the same to prices and timestamps |
| CandleStickEngine.CandleStick.constructor | PIO-T-Display-s3-pro/src/CandleStick.cpp:12-17 | the statics start as an empty ring with zero time and price |
| CandleStickEngine.CandleStick.UpdateCircularBuffer | PIO-T-Display-s3-pro/src/CandleStick.cpp:31-44 | count = min(count + 1, MAX_CANDLES), index advanced, only that slot of each array written with a flat bar and the time; the price becomes the current price |
| CandleStickEngine.CandleStick.GetCurrentPrice | PIO-T-Display-s3-pro/src/CandleStick.cpp:46-74 | the test price or QuotedPrice, stored as the current price even when zero; the ring untouched |
| CandleStickEngine.CandleStick.FetchIntradayData | PIO-T-Display-s3-pro/src/CandleStick.cpp:76-102 | not due: nothing changes; due: the time is recorded, a zero price stops with the ring unchanged, any other price is folded in as IntradayStep says |
| CandleStickEngine.CandleStick.AppendPoint | PIO-T-Display-s3-pro/src/CandleStick.cpp:140-144 | one loop pass appends data point dataIndex, its open becoming the current price |
| CandleStickEngine.CandleStick.FetchCandleData | PIO-T-Display-s3-pro/src/CandleStick.cpp:104-149 | succeeds exactly on a successful, parsed response; then the ring holds LoadHistory and the price is the newest point's open; failure changes nothing |
| CandleStickEngine.CandleStick.GetPriceLevels | PIO-T-Display-s3-pro/src/CandleStick.cpp:151-171 | the oldest-first walk returns RangeOf the contents, the same function DataFetcher's query computes |
| DebugOverlayModel.UntilNul | PIO-T-Display-s3-pro/src/DebugOverlay.cpp:28 | the C string is the prefix before the first NUL |
| DebugOverlayModel.UntilNulOfCString | PIO-T-Display-s3-pro/src/DebugOverlay.cpp:28 | a text without NUL is its own C string |
| DebugOverlayModel.StoredLine | PIO-T-Display-s3-pro/src/DebugOverlay.cpp:28 | the stored line is the longest NUL-free prefix of the text with at most MAX_LINE_LENGTH - 1 characters |
| DebugOverlayModel.Recent | PIO-T-Display-s3-pro/src/DebugOverlay.cpp:28-41 | the last min(k, MAX_DEBUG_LINES) prints, in print order |
| DebugOverlayModel.LineSlot | PIO-T-Display-s3-pro/src/DebugOverlay.cpp:36 | the slot i steps newer than the oldest is (current_line + i) % MAX_DEBUG_LINES |
| DebugOverlayModel.LinesAfterPrint | PIO-T-Display-s3-pro/src/DebugOverlay.cpp:28-32 | writing slot current_line and advancing it modulo MAX_DEBUG_LINES is one more print |
| DebugOverlayModel.Slots | PIO-T-Display-s3-pro/src/DebugOverlay.cpp:35-36 | slot i from the oldest holds the print MAX_DEBUG_LINES - i back, or an empty line |
| DebugOverlayModel.SlotsAreRecent | PIO-T-Display-s3-pro/src/DebugOverlay.cpp:35-36 | the slots oldest first are empty lines followed by the recent prints |
| DebugOverlayModel.JoinedAfterBlank | PIO-T-Display-s3-pro/src/DebugOverlay.cpp:37 | empty slots show nothing |
| DebugOverlayModel.RenderHistory | PIO-T-Display-s3-pro/src/DebugOverlay.cpp:34-41 | walking all slots from the oldest shows the non-empty recent prints in print order |
| DebugOverlayModel.JoinedLength | PIO-T-Display-s3-pro/src/DebugOverlay.cpp:37-40 | each shown line takes at most MAX_LINE_LENGTH characters with its newline |
| DebugOverlayModel.RenderFits | PIO-T-Display-s3-pro/src/DebugOverlay.cpp:34-41 | the shown text and its NUL always fit in the corrected buffer of MAX_DEBUG_LINES * MAX_LINE_LENGTH + 1 |
| DebugOverlayModel.JoinedRepeated | PIO-T-Display-s3-pro/src/DebugOverlay.cpp:37-40 | n copies of one non-empty line take n times its length plus one |
| DebugOverlayModel.AsWrittenOverflows | PIO-T-Display-s3-pro/src/DebugOverlay.cpp:34 | ten prints of a 49-character line make a 500-character text, which with its NUL needs one more byte than full_buffer has |
| DebugOverlayModel.DebugOverlay.constructor | PIO-T-Display-s3-pro/src/DebugOverlay.cpp:9-10 | every line empty, current_line 0 |
| DebugOverlayModel.DebugOverlay.DebugPrint | PIO-T-Display-s3-pro/src/DebugOverlay.cpp:24-45 | the stored line goes into slot current_line, only that slot changes, current_line advances modulo 10; the text shown is Render of the prints and fits the corrected buffer |
| DebugOverlayModel.DebugOverlay.RenderLines | PIO-T-Display-s3-pro/src/DebugOverlay.cpp:34-41 | the strcat loop builds Render of the prints, which fits the corrected buffer |
| DebugOverlayModel.DebugOverlay.SlotLine | PIO-T-Display-s3-pro/src/DebugOverlay.cpp:36 | the line read at (current_line + i) % 10 is slot i from the oldest |
| DebugOverlayModel.DebugOverlay.DebugClear | PIO-T-Display-s3-pro/src/DebugOverlay.cpp:47-49 | every line emptied, current_line 0, no prints remembered |

## Left out

- HTTP, JSON parsing, WiFi, LVGL drawing and labels, `lv_task_handler` and all `Serial` logging are left out. The quote source is an abstract function; the text debug_print hands to the label is its result.
- IEEE single-precision arithmetic is not modelled. Prices are real numbers, so rounding error in `floor(x * 100) / 100` is not captured.
- The float sentinels `numeric_limits<float>::max()` and `lowest()` are modelled as an absent accumulator. getPriceLevelsForVisibleBars' test "min is still the sentinel" is taken to mean "no usable candle"; a usable candle whose low is exactly `FLT_MAX` is not modelled.
- `time()`, `millis()` and `localtime_r` are parameters. isMarketOpen reads its own clock, so UpdateData takes the wall-clock reading as a separate `WallClock` argument.
- The random-walk generators (`getRandomPrice` in both engines, `initializeTestData`) are left out. Their output is an arbitrary price argument.
- `DataFetcher::initialize` is left out: it only chooses between the generator and fetchInitialData.
- `MarketHoursChecker::getNextMarketOpen` is left out: it depends on `mktime` normalisation and string formatting.
- `CandleData::toString` and debug_print's `vsnprintf` formatting are left out. The text is taken as already formatted; the stored line is its C string truncated to 49 characters.
- Timestamps are unbounded integers. The `long` truncation of JSON timestamps in CandleStick.cpp and the width of `time_t` are not modelled.
- The DataFetcher statics are fields of one class instance. The CandleStick.cpp file statics are fields of another.
- Intervals.ShouldCreateNewCandle: the bucket characterisation is stated for non-negative times only. For negative times the truncating division is modelled but no bucket property is claimed.
- DataFetcherEngine.DataFetcher.BuildIntradayCandle, BucketedSample, UpdateData and FetchLatest require a non-zero bucket width in the live regime once the ring is non-empty. That width is zero only for an unknown interval code with `CANDLE_COLLECTION_DURATION` 0, and then shouldCreateNewCandle divides by zero, which is undefined in C++. The constructor accepts any duration.
- CandleStickEngine.CandleStick.FetchIntradayData requires a non-zero `CANDLE_COLLECTION_DURATION` once the ring is non-empty, because the bucket test then divides by it (undefined in C++ for 0). The constructor accepts any duration, and negative ones are modelled with truncating division.
- `set_intraday_parameters` (CandleStick.cpp) is left out: the two globals it assigns are constant fields, so a call amounts to constructing the engine with those values.
- Text is a sequence of C `char`s, one model character per byte. Multi-byte UTF-8 and its truncation in the middle of a character are not modelled.
- CandleBufferModel.CandleBuffer.constructor requires maxSize >= 1. With maxSize 0, update would erase from an empty vector, which is undefined in C++.
- CandleBufferModel.Started: the end time uses the configured `candleDurationSec` (Config singleton), which may differ from the buffer's own `candleDuration`. Both are kept as separate parameters rather than assumed equal.
- CandleStickEngine.CandleStick.FetchIntradayData compares `INTRADAY_UPDATE_INTERVAL` directly with a difference of seconds, as the source does (in DataFetcher the same constant is in milliseconds).
- CandleStickEngine.CandleStick.FetchCandleData has no empty-data check. It leaves the current price as the newest point's open, since close, high and low are written after the append, and leaves it unchanged for an empty chart.
- CandleStickEngine.CandleStick.GetCurrentPrice stores 0 as the current price when the request fails, as the source does.

## Findings

| source | as written | input that shows it | evidently intended | confidence | as-written member | corrected member |
|---|---|---|---|---|---|---|
| PIO-T-Display-s3-pro/src/DebugOverlay.cpp:34 | `full_buffer` holds MAX_DEBUG_LINES * MAX_LINE_LENGTH = 500 bytes | ten debug_print calls, each with a 49-character text: the shown text is 10 * (49 + 1) = 500 characters, and strcat writes its NUL at index 500, one past the end | a buffer of 501 bytes (every line at its longest, each newline, and the NUL) | not executed | DebugOverlayModel.AsWrittenOverflows | DebugOverlayModel.RenderFits |
