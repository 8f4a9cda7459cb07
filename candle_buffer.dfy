/** StockTracker::CandleData and CandleBuffer (types.cpp): candles that know
    their own end time, kept in a vector that evicts its front when full and
    completes its back before starting the next candle. */
module CandleBufferModel {
  import opened Wrappers
  import opened CArith

  /** The state of one CandleData. */
  datatype CandleValue = CandleValue(open: real, high: real, low: real, close: real,
                                     timestamp: int, endTime: int, completed: bool)

  /** low <= min(open, close) and max(open, close) <= high. */
  predicate Ordered(v: CandleValue)
  {
    v.low <= Min(v.open, v.close) && Max(v.open, v.close) <= v.high
  }

  /** The CandleData constructor: all four prices the opening price, the
      start time given, the end one configured candle duration later, not
      completed. */
  function Started(openPrice: real, startTime: int, durationSec: int): (v: CandleValue)
    ensures v.open == v.high == v.low == v.close == openPrice
    ensures v.timestamp == startTime && v.endTime - v.timestamp == durationSec && !v.completed
    ensures Ordered(v)
  {
    CandleValue(openPrice, openPrice, openPrice, openPrice, startTime, startTime + durationSec, false)
  }

  /** CandleData::update: the price becomes the close and widens high and
      low; open, both times and the completion flag are kept, and the OHLC
      ordering survives. */
  function Updated(v: CandleValue, price: real): (w: CandleValue)
    ensures w.open == v.open && w.timestamp == v.timestamp && w.endTime == v.endTime && w.completed == v.completed
    ensures w.close == price && w.low <= price <= w.high && w.low <= v.low && v.high <= w.high
    ensures Ordered(v) ==> Ordered(w)
  {
    v.(high := Max(v.high, price), low := Min(v.low, price), close := price)
  }

  /** CandleData::complete: only the flag changes, to true. */
  function Completed(v: CandleValue): (w: CandleValue)
    ensures w.completed && w.(completed := v.completed) == v
  {
    v.(completed := true)
  }

  /** Completing twice is completing once. */
  lemma CompleteIdempotent(v: CandleValue)
    ensures Completed(Completed(v)) == Completed(v)
  {
  }

  /** alignToInterval: t / interval * interval with C++'s truncating
      division. For t >= 0 that is the largest multiple of the interval not
      above t; below zero it rounds toward zero instead. */
  function AlignToInterval(t: int, intervalSeconds: int): (r: int)
    requires intervalSeconds > 0
    ensures r % intervalSeconds == 0
    ensures t >= 0 ==> 0 <= r <= t < r + intervalSeconds
    ensures t < 0 ==> r - intervalSeconds < t <= r <= 0
  {
    var q := TruncDiv(t, intervalSeconds);
    MultipleMod(q, intervalSeconds);
    q * intervalSeconds
  }

  /** getNextCandleStart: t itself when aligned, else the next multiple. For
      t >= 0 the result is the least multiple of the duration at or after
      t. */
  function NextCandleStart(t: int, candleDuration: int): (r: int)
    requires candleDuration > 0
    ensures r % candleDuration == 0 || r == t
    ensures t >= 0 ==> t <= r < t + candleDuration && r % candleDuration == 0
    ensures t >= 0 ==> (r == t <==> t % candleDuration == 0)
  {
    var alignedCurrent := AlignToInterval(t, candleDuration);
    if alignedCurrent == t then t
    else
      MultipleMod(TruncDiv(t, candleDuration) + 1, candleDuration);
      assert alignedCurrent + candleDuration == (TruncDiv(t, candleDuration) + 1) * candleDuration;
      alignedCurrent + candleDuration
  }

  /** CandleBuffer::shouldCreateNewCandle on the buffer's values: always for
      an empty buffer, otherwise once the time reaches the back's end. */
  predicate StartsNew(vs: seq<CandleValue>, currentTime: int)
  {
    vs == [] || currentTime >= vs[|vs| - 1].endTime
  }

  /** The back of a buffer completed (nothing for an empty one). */
  function CloseBack(vs: seq<CandleValue>): (done: seq<CandleValue>)
    ensures |done| == |vs|
    ensures forall i :: 0 <= i < |vs| - 1 ==> done[i] == vs[i]
    ensures vs != [] ==> done[|vs| - 1] == Completed(vs[|vs| - 1])
  {
    if vs == [] then [] else vs[..|vs| - 1] + [Completed(vs[|vs| - 1])]
  }

  /** The front dropped when the buffer already holds maxSize candles. */
  function Evicted(done: seq<CandleValue>, maxSize: int): (kept: seq<CandleValue>)
    ensures |done| >= maxSize && done != [] ==> kept == done[1..]
    ensures |done| < maxSize ==> kept == done
  {
    if |done| >= maxSize && done != [] then done[1..] else done
  }

  /** CandleBuffer::update on the buffer's values, oldest first. A new
      candle completes the back, evicts the front when the buffer is full
      and starts at the back's end time, or at the aligned current time when
      nothing is left. Otherwise only the back absorbs the price. */
  function BufferStep(vs: seq<CandleValue>, price: real, now: int,
                      maxSize: int, candleDuration: int, configDuration: int): seq<CandleValue>
    requires maxSize >= 1 && candleDuration > 0
  {
    if StartsNew(vs, now) then
      var kept := Evicted(CloseBack(vs), maxSize);
      var startTime := if kept == [] then AlignToInterval(now, candleDuration) else kept[|kept| - 1].endTime;
      kept + [Started(price, startTime, configDuration)]
    else
      vs[..|vs| - 1] + [Updated(vs[|vs| - 1], price)]
  }

  /** Every candle but the back one is completed. */
  predicate OnlyBackOpen(vs: seq<CandleValue>)
  {
    forall i :: 0 <= i < |vs| - 1 ==> vs[i].completed
  }

  /** Each candle starts where the one before it ends. */
  predicate Contiguous(vs: seq<CandleValue>)
  {
    forall i :: 0 <= i < |vs| - 1 ==> vs[i + 1].timestamp == vs[i].endTime
  }

  /** Every candle lasts durationSec and is in OHLC order. */
  predicate Spans(vs: seq<CandleValue>, durationSec: int)
  {
    forall i :: 0 <= i < |vs| ==> vs[i].endTime - vs[i].timestamp == durationSec && Ordered(vs[i])
  }

  /** One update leaves between one and maxSize candles. */
  lemma BufferStepSize(vs: seq<CandleValue>, price: real, now: int,
                       maxSize: int, candleDuration: int, configDuration: int)
    requires maxSize >= 1 && candleDuration > 0 && |vs| <= maxSize
    ensures 1 <= |BufferStep(vs, price, now, maxSize, candleDuration, configDuration)| <= maxSize
  {
  }

  /** A new candle is the Started one, at the old back's end time unless
      the buffer was empty or had room for one candle only. */
  lemma BufferStepStarts(vs: seq<CandleValue>, price: real, now: int,
                         maxSize: int, candleDuration: int, configDuration: int)
    requires maxSize >= 1 && candleDuration > 0 && |vs| <= maxSize && StartsNew(vs, now)
    ensures var r := BufferStep(vs, price, now, maxSize, candleDuration, configDuration);
      && r[|r| - 1] == Started(price, r[|r| - 1].timestamp, configDuration)
      && r[|r| - 1].timestamp ==
           (if vs == [] || maxSize == 1 then AlignToInterval(now, candleDuration) else vs[|vs| - 1].endTime)
  {
  }

  /** An update that starts nothing changes only the back. */
  lemma BufferStepUpdates(vs: seq<CandleValue>, price: real, now: int,
                          maxSize: int, candleDuration: int, configDuration: int)
    requires maxSize >= 1 && candleDuration > 0 && !StartsNew(vs, now)
    ensures var r := BufferStep(vs, price, now, maxSize, candleDuration, configDuration);
      && |r| == |vs| && r[..|vs| - 1] == vs[..|vs| - 1]
      && r[|r| - 1] == Updated(vs[|vs| - 1], price)
  {
  }

  /** Every candle but the back stays completed. */
  lemma BufferStepKeepsOpen(vs: seq<CandleValue>, price: real, now: int,
                            maxSize: int, candleDuration: int, configDuration: int)
    requires maxSize >= 1 && candleDuration > 0 && OnlyBackOpen(vs)
    ensures OnlyBackOpen(BufferStep(vs, price, now, maxSize, candleDuration, configDuration))
  {
    if StartsNew(vs, now) {
      var kept := Evicted(CloseBack(vs), maxSize);
      assert forall i :: 0 <= i < |kept| ==> kept[i].completed;
    }
  }

  /** Each candle keeps starting where the one before it ends. */
  lemma BufferStepKeepsContiguous(vs: seq<CandleValue>, price: real, now: int,
                                  maxSize: int, candleDuration: int, configDuration: int)
    requires maxSize >= 1 && candleDuration > 0 && Contiguous(vs)
    ensures Contiguous(BufferStep(vs, price, now, maxSize, candleDuration, configDuration))
  {
    if StartsNew(vs, now) {
      var done := CloseBack(vs);
      assert forall i :: 0 <= i < |done| ==> done[i].timestamp == vs[i].timestamp && done[i].endTime == vs[i].endTime;
      assert Contiguous(done);
      assert Contiguous(Evicted(done, maxSize));
    }
  }

  /** Every candle keeps its span and its OHLC order. */
  lemma BufferStepKeepsSpans(vs: seq<CandleValue>, price: real, now: int,
                             maxSize: int, candleDuration: int, configDuration: int)
    requires maxSize >= 1 && candleDuration > 0 && Spans(vs, configDuration)
    ensures Spans(BufferStep(vs, price, now, maxSize, candleDuration, configDuration), configDuration)
  {
    if StartsNew(vs, now) {
      var done := CloseBack(vs);
      assert Spans(done, configDuration);
      assert Spans(Evicted(done, maxSize), configDuration);
    }
  }

  /** The buffer's shape: at most maxSize candles, every one but the back
      completed, each starting where the previous ends, each lasting
      durationSec and in OHLC order. */
  predicate Shaped(vs: seq<CandleValue>, maxSize: int, durationSec: int)
  {
    |vs| <= maxSize && OnlyBackOpen(vs) && Contiguous(vs) && Spans(vs, durationSec)
  }

  /** One update keeps the shape and leaves at least one candle. */
  lemma BufferStepKeepsShape(vs: seq<CandleValue>, price: real, now: int,
                             maxSize: int, candleDuration: int, configDuration: int)
    requires maxSize >= 1 && candleDuration > 0 && Shaped(vs, maxSize, configDuration)
    ensures var r := BufferStep(vs, price, now, maxSize, candleDuration, configDuration);
      Shaped(r, maxSize, configDuration) && |r| >= 1
  {
    BufferStepSize(vs, price, now, maxSize, candleDuration, configDuration);
    BufferStepKeepsOpen(vs, price, now, maxSize, candleDuration, configDuration);
    BufferStepKeepsContiguous(vs, price, now, maxSize, candleDuration, configDuration);
    BufferStepKeepsSpans(vs, price, now, maxSize, candleDuration, configDuration);
  }

  /** Updates fed one after another to an initially empty buffer. Whatever
      the prices and times, the result has the buffer's shape, and at least
      one candle once anything was fed. */
  function BufferRun(prices: seq<real>, times: seq<int>,
                     maxSize: int, candleDuration: int, configDuration: int): (vs: seq<CandleValue>)
    requires |prices| == |times| && maxSize >= 1 && candleDuration > 0
    ensures Shaped(vs, maxSize, configDuration)
    ensures prices != [] ==> |vs| >= 1
    decreases |prices|
  {
    if prices == [] then []
    else
      var n := |prices|;
      var before := BufferRun(prices[..n - 1], times[..n - 1], maxSize, candleDuration, configDuration);
      BufferStepKeepsShape(before, prices[n - 1], times[n - 1], maxSize, candleDuration, configDuration);
      BufferStep(before, prices[n - 1], times[n - 1], maxSize, candleDuration, configDuration)
  }

  /** One CandleData object. */
  class CandleData {
    var open: real
    var high: real
    var low: real
    var close: real
    var timestamp: int
    var endTime: int
    var completed: bool

    function Value(): CandleValue
      reads this
    {
      CandleValue(open, high, low, close, timestamp, endTime, completed)
    }

    /** CandleData(openPrice, startTime); durationSec is the configured
        candle duration (Config stock.candleDurationSec). */
    constructor (openPrice: real, startTime: int, durationSec: int)
      ensures Value() == Started(openPrice, startTime, durationSec)
    {
      open, high, low, close := openPrice, openPrice, openPrice, openPrice;
      timestamp := startTime;
      endTime := startTime + durationSec;
      completed := false;
    }

    method Update(price: real)
      modifies this
      ensures Value() == Updated(old(Value()), price)
    {
      high := Max(high, price);
      low := Min(low, price);
      close := price;
    }

    method Complete()
      modifies this
      ensures Value() == Completed(old(Value()))
    {
      completed := true;
    }
  }

  /** The values of a run of CandleData objects, in order. */
  function Values(cs: seq<CandleData>): (vs: seq<CandleValue>)
    reads set c | c in cs
    ensures |vs| == |cs| && forall i :: 0 <= i < |cs| ==> vs[i] == cs[i].Value()
  {
    seq(|cs|, i reads set c | c in cs requires 0 <= i < |cs| => cs[i].Value())
  }

  /** The vector of owned CandleData objects. */
  class CandleBuffer {
    var candles: seq<CandleData>
    const maxSize: int
    const candleDuration: int
    /** The candle length CandleData's constructor reads from the
        configuration (which may differ from candleDuration). */
    const configDuration: int

    ghost predicate Valid()
      reads this, set c | c in candles
    {
      && maxSize >= 1 && candleDuration > 0
      && |candles| <= maxSize
      && Distinct()
      && OnlyBackOpen(Values(candles))
    }

    constructor (maxSize: int, candleDurationSec: int, configDuration: int)
      requires maxSize >= 1 && candleDurationSec > 0
      ensures Valid() && candles == []
      ensures this.maxSize == maxSize && candleDuration == candleDurationSec && this.configDuration == configDuration
    {
      candles := [];
      this.maxSize := maxSize;
      candleDuration := candleDurationSec;
      this.configDuration := configDuration;
    }

    /** getCurrentCandle: none for an empty buffer, else the back. */
    function GetCurrentCandle(): (c: Option<CandleData>)
      reads this
      ensures c.None? <==> |candles| == 0
      ensures c.Some? ==> c.value == candles[|candles| - 1]
    {
      if |candles| == 0 then None else Some(candles[|candles| - 1])
    }

    /** getLastCompletedCandle: none below two candles, else the one before
        the back, which the buffer's invariant says is completed. */
    function GetLastCompletedCandle(): (c: Option<CandleData>)
      reads this, set c | c in candles
      ensures c.None? <==> |candles| < 2
      ensures c.Some? ==> c.value == candles[|candles| - 2]
      ensures c.Some? && Valid() ==> c.value.completed
    {
      if |candles| < 2 then None else Some(candles[|candles| - 2])
    }

    /** shouldCreateNewCandle, read through the buffer's values. */
    predicate ShouldCreateNewCandle(currentTime: int)
      reads this, set c | c in candles
      ensures ShouldCreateNewCandle(currentTime) <==> StartsNew(Values(candles), currentTime)
    {
      if |candles| == 0 then true else currentTime >= candles[|candles| - 1].endTime
    }

    /** Distinct objects: changing one leaves the others' values alone. */
    ghost predicate Distinct()
      reads this
    {
      forall i, j :: 0 <= i < j < |candles| ==> candles[i] != candles[j]
    }

    /** candles.back().complete() */
    method CompleteBack()
      requires |candles| > 0 && Distinct()
      modifies candles[|candles| - 1]
      ensures Values(candles) == old(Values(candles))[..|candles| - 1] + [Completed(old(Values(candles))[|candles| - 1])]
    {
      ghost var before := Values(candles);
      var back := candles[|candles| - 1];
      back.Complete();
      forall i | 0 <= i < |candles| - 1
        ensures candles[i].Value() == before[i]
      {
        assert candles[i] != back;
      }
    }

    /** candles.back().update(price) */
    method UpdateBack(price: real)
      requires |candles| > 0 && Distinct()
      modifies candles[|candles| - 1]
      ensures Values(candles) == old(Values(candles))[..|candles| - 1] + [Updated(old(Values(candles))[|candles| - 1], price)]
    {
      ghost var before := Values(candles);
      var back := candles[|candles| - 1];
      back.Update(price);
      forall i | 0 <= i < |candles| - 1
        ensures candles[i].Value() == before[i]
      {
        assert candles[i] != back;
      }
    }

    /** candles.push_back(CandleData(price, startTime)) */
    method PushCandle(price: real, startTime: int)
      requires Distinct()
      modifies this
      ensures Distinct()
      ensures |candles| == |old(candles)| + 1 && candles[..|old(candles)|] == old(candles)
      ensures fresh(candles[|candles| - 1])
      ensures Values(candles) == old(Values(candles)) + [Started(price, startTime, configDuration)]
    {
      ghost var kept := Values(candles);
      var c := new CandleData(price, startTime, configDuration);
      candles := candles + [c];
      assert Values(candles) == kept + [c.Value()];
    }

    /** candles.erase(candles.begin()) */
    method EvictFront()
      requires |candles| > 0 && Distinct()
      modifies this
      ensures Distinct() && candles == old(candles)[1..]
      ensures Values(candles) == old(Values(candles))[1..]
    {
      candles := candles[1..];
    }

    /** The part of update after the back is completed: evict the front
        when full, then push a candle starting at the back's end time, or at
        the aligned current time when nothing is left. */
    method EvictAndPush(price: real, now: int)
      requires maxSize >= 1 && candleDuration > 0 && Distinct()
      modifies this
      ensures Distinct()
      ensures var kept := Evicted(old(Values(candles)), maxSize);
        Values(candles) == kept + [Started(price, if kept == [] then AlignToInterval(now, candleDuration) else kept[|kept| - 1].endTime, configDuration)]
      ensures forall c :: c in candles ==> c in old(candles) || fresh(c)
    {
      ghost var done := Values(candles);
      if |candles| >= maxSize {
        EvictFront();
      }
      ghost var kept := Values(candles);
      assert kept == Evicted(done, maxSize);
      var startTime := if |candles| == 0 then AlignToInterval(now, candleDuration) else candles[|candles| - 1].endTime;
      PushCandle(price, startTime);
    }

    /** The branch of update that starts a new candle. */
    method StartCandle(price: real, now: int)
      requires maxSize >= 1 && candleDuration > 0 && Distinct()
      requires StartsNew(Values(candles), now)
      modifies this, set c | c in candles
      ensures Distinct()
      ensures Values(candles) == BufferStep(old(Values(candles)), price, now, maxSize, candleDuration, configDuration)
      ensures forall c :: c in candles ==> c in old(candles) || fresh(c)
    {
      ghost var vs := Values(candles);
      if |candles| != 0 {
        CompleteBack();
      }
      assert Values(candles) == CloseBack(vs);
      EvictAndPush(price, now);
    }

    /** update(price) at time now: the values change as BufferStep says;
        every new candle is a fresh object. */
    method Update(price: real, now: int)
      requires Valid()
      modifies this, set c | c in candles
      ensures Valid()
      ensures Values(candles) == BufferStep(old(Values(candles)), price, now, maxSize, candleDuration, configDuration)
      ensures forall c :: c in candles ==> c in old(candles) || fresh(c)
    {
      ghost var before := Values(candles);
      BufferStepSize(before, price, now, maxSize, candleDuration, configDuration);
      BufferStepKeepsOpen(before, price, now, maxSize, candleDuration, configDuration);
      if ShouldCreateNewCandle(now) {
        StartCandle(price, now);
      } else {
        UpdateBack(price);
      }
    }
  }
}
