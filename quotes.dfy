/** The quote source of data_fetcher.cpp as an abstract oracle, and what the
    fetch controller makes of its answers: the initial load with its range
    ladder and fallback (fetchInitialData, fetchFallbackData), and the
    latest-price scan of the live update (updateData). */
module Quotes {
  import opened Wrappers
  import opened CArith
  import opened Ring
  import opened Candles
  import opened Intervals
  import opened Aggregation

  /** The parsed chart: chart.result[0].timestamp (None when the member is
      missing) and the quote arrays open/high/low/close, whose elements may be
      JSON null (None). A missing array is an empty one. */
  datatype Chart = Chart(
    timestamps: Option<seq<Option<int>>>,
    opens: seq<Option<real>>,
    highs: seq<Option<real>>,
    lows: seq<Option<real>>,
    closes: seq<Option<real>>)

  /** One HTTP GET of a chart URL: a non-200 status, or a body of some size
      that either parses (Some) or is rejected by the JSON parser (None). */
  datatype Response = HttpFailure | Payload(size: nat, chart: Option<Chart>)

  /** The remote API: (symbol, interval, range) to response. */
  type QuoteSource = (string, string, string) -> Response

  /** Payloads above this many bytes are not parsed (50KB). */
  const MAX_PAYLOAD: int := 50000

  /** ArduinoJson's as<float>() of element i: 0 when it is null or missing. */
  function AsFloat(xs: seq<Option<real>>, i: int): real
  {
    if 0 <= i < |xs| && xs[i].Some? then xs[i].value else 0.0
  }

  /** ArduinoJson's as<long>() of element i: 0 when it is null or missing. */
  function AsLong(xs: seq<Option<int>>, i: int): int
  {
    if 0 <= i < |xs| && xs[i].Some? then xs[i].value else 0
  }

  /** The timestamp array as as<JsonArray>() sees it: empty when missing. */
  function Timestamps(c: Chart): seq<Option<int>>
  {
    if c.timestamps.Some? then c.timestamps.value else []
  }

  /** The complete candle the loader builds from data point i. */
  function PointCandle(c: Chart, i: int): Candle
  {
    Candle(AsFloat(c.opens, i), AsFloat(c.closes, i), AsFloat(c.highs, i), AsFloat(c.lows, i),
           AsLong(Timestamps(c), i), true)
  }

  /** What the success path of fetchInitialData loads: the newest
      min(n, MAX_CANDLES) of the n points, oldest first, every one complete,
      the last one being the newest point. */
  function ChartHistory(c: Chart): (h: seq<Candle>)
    ensures var n := |Timestamps(c)|;
      && |h| == MinInt(n, MAX_CANDLES)
      && (forall i :: 0 <= i < |h| ==> h[i].isComplete && h[i] == PointCandle(c, n - |h| + i))
      && (n > 0 ==> Last(h) == PointCandle(c, n - 1))
  {
    var n := |Timestamps(c)|;
    var m := MinInt(n, MAX_CANDLES);
    var h := seq(m, i requires 0 <= i < m => PointCandle(c, n - m + i));
    assert forall i :: 0 <= i < m ==> h[i] == PointCandle(c, n - m + i);
    h
  }

  /** The outcome of a load: nothing loaded, or the buffer's new contents. */
  datatype Load = Failed | Loaded(history: seq<Candle>)

  /** An initial load: the ranges requested in turn, whether the fallback
      request was made, and the outcome. */
  datatype LoadRun = LoadRun(tried: seq<string>, usedFallback: bool, result: Load)

  /** fetchFallbackData: one request at interval 1d, range 1d. It loads
      exactly when that request parses and has at least one timestamp, and
      then the buffer holds one complete candle, the chart's last point. */
  function FallbackLoad(quote: QuoteSource, symbol: string): (l: Load)
    ensures l.Loaded? ==> |l.history| == 1 && l.history[0].isComplete
    ensures var r := quote(symbol, "1d", "1d");
      && (l.Loaded? <==> r.Payload? && r.chart.Some? && |Timestamps(r.chart.value)| > 0)
      && (l.Loaded? ==> l.history == [PointCandle(r.chart.value, |Timestamps(r.chart.value)| - 1)])
  {
    match quote(symbol, "1d", "1d")
    case HttpFailure => Failed
    case Payload(_, None) => Failed
    case Payload(_, Some(c)) =>
      if |Timestamps(c)| == 0 then Failed else Loaded([PointCandle(c, |Timestamps(c)| - 1)])
  }

  /** fetchInitialData: an oversized payload retries one rung down the range
      ladder, or falls back once the ladder is exhausted; a payload that does
      not parse falls back; a parsed payload without timestamps fails with no
      fallback. At most five retries happen, so at most six ranges are tried.
      Every range before the last one tried was oversized and each is the
      next rung down from the one before; the answer at the last range
      decides the outcome: the fallback exactly when it is oversized or does
      not parse, the newest MAX_CANDLES points of its chart when it parses
      with timestamps, and a failure otherwise. */
  function InitialLoad(quote: QuoteSource, symbol: string, interval: string, range: string): (run: LoadRun)
    ensures 1 <= |run.tried| <= LadderRank(range) + 1 && run.tried[0] == range
    ensures run.usedFallback ==> run.result == FallbackLoad(quote, symbol)
    ensures run.result.Loaded? ==> 0 < |run.result.history| <= MAX_CANDLES
    ensures forall k :: 0 <= k < |run.tried| - 1 ==>
      Oversized(quote, symbol, interval, run.tried[k]) && run.tried[k + 1] == GetSmallerRange(run.tried[k]) != run.tried[k]
    ensures var last := quote(symbol, interval, Last(run.tried));
      && (run.usedFallback <==> last.Payload? && (last.size > MAX_PAYLOAD || last.chart.None?))
      && (!run.usedFallback && run.result.Loaded? ==>
            last.Payload? && last.chart.Some? && run.result.history == ChartHistory(last.chart.value))
      && (!run.usedFallback && run.result.Failed? <==>
            last.HttpFailure? ||
            (last.size <= MAX_PAYLOAD && last.chart.Some? && |Timestamps(last.chart.value)| == 0))
    decreases LadderRank(range)
  {
    match quote(symbol, interval, range)
    case HttpFailure => LoadRun([range], false, Failed)
    case Payload(size, chart) =>
      if size > MAX_PAYLOAD then
        var smaller := GetSmallerRange(range);
        if smaller != range then
          var rest := InitialLoad(quote, symbol, interval, smaller);
          rest.(tried := [range] + rest.tried)
        else
          LoadRun([range], true, FallbackLoad(quote, symbol))
      else
        match chart
        case None => LoadRun([range], true, FallbackLoad(quote, symbol))
        case Some(c) =>
          if c.timestamps.None? || |c.timestamps.value| == 0 then LoadRun([range], false, Failed)
          else LoadRun([range], false, Loaded(ChartHistory(c)))
  }

  /** The response at (symbol, interval, range) is too large to parse. */
  predicate Oversized(quote: QuoteSource, symbol: string, interval: string, range: string)
  {
    quote(symbol, interval, range).Payload? && quote(symbol, interval, range).size > MAX_PAYLOAD
  }

  /** An oversized payload above the bottom rung: the load is the one a
      rung down, with this range tried first. */
  lemma OversizedRetries(quote: QuoteSource, symbol: string, interval: string, range: string)
    requires Oversized(quote, symbol, interval, range) && GetSmallerRange(range) != range
    ensures var rest := InitialLoad(quote, symbol, interval, GetSmallerRange(range));
      InitialLoad(quote, symbol, interval, range) == rest.(tried := [range] + rest.tried)
  {
  }

  /** An oversized payload on the bottom rung goes to the fallback. */
  lemma OversizedFallsBack(quote: QuoteSource, symbol: string, interval: string, range: string)
    requires Oversized(quote, symbol, interval, range) && GetSmallerRange(range) == range
    ensures InitialLoad(quote, symbol, interval, range) == LoadRun([range], true, FallbackLoad(quote, symbol))
  {
  }

  /** The range ladder: when every rung from the k-th down answers with an
      oversized payload, the load tries exactly those rungs in order and then
      makes the fallback request. */
  lemma {:induction false} LadderFromRung(quote: QuoteSource, symbol: string, interval: string, k: nat)
    requires k < |RANGE_LADDER|
    requires forall j :: k <= j < |RANGE_LADDER| ==> Oversized(quote, symbol, interval, RANGE_LADDER[j])
    ensures InitialLoad(quote, symbol, interval, RANGE_LADDER[k]) ==
      LoadRun(RANGE_LADDER[k..], true, FallbackLoad(quote, symbol))
    decreases |RANGE_LADDER| - k
  {
    var range := RANGE_LADDER[k];
    assert Oversized(quote, symbol, interval, range);
    if k + 1 < |RANGE_LADDER| {
      assert GetSmallerRange(range) == RANGE_LADDER[k + 1];
      OversizedRetries(quote, symbol, interval, range);
      LadderFromRung(quote, symbol, interval, k + 1);
      assert RANGE_LADDER[k..] == [range] + RANGE_LADDER[k + 1..];
    } else {
      assert range == "1d";
      OversizedFallsBack(quote, symbol, interval, range);
    }
  }

  /** From "1y" with every response oversized: 1y, 6mo, 3mo, 1mo, 5d, 1d are
      requested in that order and the fallback exactly once after them. */
  lemma LadderAllOversized(quote: QuoteSource, symbol: string, interval: string)
    requires forall r :: r in RANGE_LADDER ==> Oversized(quote, symbol, interval, r)
    ensures InitialLoad(quote, symbol, interval, "1y") ==
      LoadRun(["1y", "6mo", "3mo", "1mo", "5d", "1d"], true, FallbackLoad(quote, symbol))
  {
    LadderFromRung(quote, symbol, interval, 0);
  }

  /** A close the live update accepts: present and strictly positive. */
  predicate PositiveClose(x: Option<real>)
  {
    x.Some? && x.value > 0.0
  }

  /** The index of the newest accepted close: every later close is null or
      not positive; None when no close is accepted. */
  function LatestPositiveClose(closes: seq<Option<real>>): (idx: Option<nat>)
    ensures idx.Some? ==>
      idx.value < |closes| && PositiveClose(closes[idx.value]) &&
      forall j :: idx.value < j < |closes| ==> !PositiveClose(closes[j])
    ensures idx.None? ==> forall j :: 0 <= j < |closes| ==> !PositiveClose(closes[j])
    decreases |closes|
  {
    if closes == [] then None
    else if PositiveClose(Last(closes)) then Some(|closes| - 1)
    else LatestPositiveClose(closes[..|closes| - 1])
  }

  /** The price and timestamp the live update hands to the aggregator, or
      None when the request fails, the body is empty or unparseable, the
      timestamp or close array is missing or empty, or no close is accepted.
      A price handed on is always positive and is the newest accepted close;
      conversely, a chart that passes every check and has an accepted close
      always yields a quote. */
  function LatestQuote(r: Response): (q: Option<(real, int)>)
    ensures q.Some? ==>
      && r.Payload? && r.size > 0 && r.chart.Some?
      && var c := r.chart.value;
      && c.timestamps.Some? && |c.timestamps.value| > 0
      && LatestPositiveClose(c.closes).Some?
      && var i := LatestPositiveClose(c.closes).value;
      && q.value.0 == c.closes[i].value > 0.0
      && q.value.1 == AsLong(c.timestamps.value, i)
    ensures (r.Payload? && r.size > 0 && r.chart.Some? &&
             r.chart.value.timestamps.Some? && |r.chart.value.timestamps.value| > 0 &&
             LatestPositiveClose(r.chart.value.closes).Some?) ==> q.Some?
  {
    match r
    case HttpFailure => None
    case Payload(size, chart) =>
      if size == 0 then None
      else
        match chart
        case None => None
        case Some(c) =>
          if c.timestamps.None? then None
          else if |c.timestamps.value| == 0 || |c.closes| == 0 then None
          else
            match LatestPositiveClose(c.closes)
            case None => None
            case Some(i) => Some((c.closes[i].value, AsLong(c.timestamps.value, i)))
  }
}
