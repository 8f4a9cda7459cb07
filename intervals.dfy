/** The pure timing helpers of data_fetcher.cpp: the interval table
    (getIntervalSeconds), the range-shrinking ladder (getSmallerRange) and the
    bucket test (shouldCreateNewCandle). Interval and range codes are the
    Yahoo chart API's strings. */
module Intervals {
  import opened CArith

  /** The interval codes the table knows. */
  const INTERVAL_CODES: set<string> := {"1m", "2m", "5m", "15m", "30m", "60m", "1h", "90m", "1d"}

  /** The value of a string of decimal digits. */
  function DigitsValue(s: string): nat
    requires forall i :: 0 <= i < |s| ==> '0' <= s[i] <= '9'
    decreases |s|
  {
    if s == [] then 0 else DigitsValue(s[..|s| - 1]) * 10 + (s[|s| - 1] as int - '0' as int)
  }

  /** Seconds in one unit of an interval code: minutes, hours or days. */
  function UnitSeconds(unit: char): int
  {
    match unit
    case 'm' => 60
    case 'h' => 3600
    case 'd' => 86400
    case _ => 0
  }

  /** What an interval code says when read literally, a count followed by a
      unit ("90m" is 90 minutes); 0 for anything not of that shape. */
  function CodeSeconds(code: string): int
  {
    if |code| >= 2 && forall i :: 0 <= i < |code| - 1 ==> '0' <= code[i] <= '9' then
      DigitsValue(code[..|code| - 1]) * UnitSeconds(code[|code| - 1])
    else 0
  }

  /** getIntervalSeconds: the length of one candle for an interval code. Every
      code the table knows gets the duration the code itself names; every other
      string gets the configured default (CANDLE_COLLECTION_DURATION). */
  function GetIntervalSeconds(interval: string, defaultSeconds: int): (s: int)
    ensures interval in INTERVAL_CODES ==> s == CodeSeconds(interval) && s > 0
    ensures interval !in INTERVAL_CODES ==> s == defaultSeconds
  {
    CodeSecondsOfTable();
    if interval == "1m" then 60
    else if interval == "2m" then 120
    else if interval == "5m" then 300
    else if interval == "15m" then 900
    else if interval == "30m" then 1800
    else if interval == "60m" || interval == "1h" then 3600
    else if interval == "90m" then 5400
    else if interval == "1d" then 86400
    else defaultSeconds
  }

  /** A one-digit code read literally. */
  lemma OneDigitCode(d: char, unit: char)
    requires '0' <= d <= '9'
    ensures CodeSeconds([d, unit]) == (d as int - '0' as int) * UnitSeconds(unit)
  {
    var code := [d, unit];
    assert code[..|code| - 1] == [d];
    assert [d][..0] == [];
    assert DigitsValue([d]) == d as int - '0' as int;
  }

  /** A two-digit code read literally. */
  lemma TwoDigitCode(d1: char, d0: char, unit: char)
    requires '0' <= d1 <= '9' && '0' <= d0 <= '9'
    ensures CodeSeconds([d1, d0, unit]) ==
      ((d1 as int - '0' as int) * 10 + (d0 as int - '0' as int)) * UnitSeconds(unit)
  {
    var code := [d1, d0, unit];
    assert code[..|code| - 1] == [d1, d0];
    assert [d1, d0][..1] == [d1];
    assert [d1][..0] == [];
    assert DigitsValue([d1]) == d1 as int - '0' as int;
    assert DigitsValue([d1, d0]) == (d1 as int - '0' as int) * 10 + (d0 as int - '0' as int);
  }

  /** The literal reading of each code the table knows. */
  lemma CodeSecondsOfTable()
    ensures CodeSeconds("1m") == 60 && CodeSeconds("2m") == 120 && CodeSeconds("5m") == 300
    ensures CodeSeconds("15m") == 900 && CodeSeconds("30m") == 1800 && CodeSeconds("60m") == 3600
    ensures CodeSeconds("1h") == 3600 && CodeSeconds("90m") == 5400 && CodeSeconds("1d") == 86400
  {
    OneDigitCode('1', 'm');
    OneDigitCode('2', 'm');
    OneDigitCode('5', 'm');
    OneDigitCode('1', 'h');
    OneDigitCode('1', 'd');
    TwoDigitCode('1', '5', 'm');
    TwoDigitCode('3', '0', 'm');
    TwoDigitCode('6', '0', 'm');
    TwoDigitCode('9', '0', 'm');
  }

  /** The descending ladder of range codes the initial fetch retries along. */
  const RANGE_LADDER: seq<string> := ["1y", "6mo", "3mo", "1mo", "5d", "1d"]

  /** How many rungs lie below a range on the ladder; 0 for the bottom rung
      "1d" and for every code not on the ladder. */
  function LadderRank(range: string): (rank: nat)
    ensures rank <= |RANGE_LADDER| - 1
  {
    if range == "1y" then 5
    else if range == "6mo" then 4
    else if range == "3mo" then 3
    else if range == "1mo" then 2
    else if range == "5d" then 1
    else 0
  }

  /** getSmallerRange: the next rung down the ladder, or the range itself when
      it is the bottom rung or not on the ladder. Each real step lowers the
      rank by one, so a chain of retries ends. */
  function GetSmallerRange(range: string): (smaller: string)
    ensures forall i :: 0 <= i < |RANGE_LADDER| - 1 && range == RANGE_LADDER[i] ==> smaller == RANGE_LADDER[i + 1]
    ensures range !in RANGE_LADDER[..|RANGE_LADDER| - 1] ==> smaller == range
    ensures smaller == range <==> LadderRank(range) == 0
    ensures smaller != range ==> LadderRank(smaller) + 1 == LadderRank(range)
  {
    assert RANGE_LADDER[..|RANGE_LADDER| - 1] == ["1y", "6mo", "3mo", "1mo", "5d"];
    if range == "1y" then "6mo"
    else if range == "6mo" then "3mo"
    else if range == "3mo" then "1mo"
    else if range == "1mo" then "5d"
    else if range == "5d" then "1d"
    else range
  }

  /** The start of the interval-long bucket a timestamp falls in, as C++'s
      truncating division computes it. */
  function BucketStart(t: int, intervalSeconds: int): int
    requires intervalSeconds > 0
  {
    TruncDiv(t, intervalSeconds) * intervalSeconds
  }

  /** shouldCreateNewCandle: the two times fall in different buckets. A
      negative width buckets as its magnitude does (C++ truncates either
      way). For non-negative times that is exactly "the current time lies
      outside the bucket [start, start + width) of the last candle's time",
      and times in one bucket are less than a width apart. */
  predicate ShouldCreateNewCandle(currentTime: int, lastCandleTime: int, intervalSeconds: int)
    requires intervalSeconds != 0
    ensures var m := if intervalSeconds > 0 then intervalSeconds else -intervalSeconds;
      && (0 <= currentTime && 0 <= lastCandleTime ==>
            (ShouldCreateNewCandle(currentTime, lastCandleTime, intervalSeconds) <==>
              !(BucketStart(lastCandleTime, m) <= currentTime < BucketStart(lastCandleTime, m) + m)))
      && ((0 <= currentTime && 0 <= lastCandleTime &&
           !ShouldCreateNewCandle(currentTime, lastCandleTime, intervalSeconds)) ==>
            -m < currentTime - lastCandleTime < m)
  {
    var m := if intervalSeconds > 0 then intervalSeconds else -intervalSeconds;
    var cur := TruncDiv(currentTime, intervalSeconds);
    var last := TruncDiv(lastCandleTime, intervalSeconds);
    TruncDivNegated(currentTime, m);
    TruncDivNegated(lastCandleTime, m);
    BucketFacts(currentTime, lastCandleTime, m);
    cur != last
  }

  /** The quotient facts ShouldCreateNewCandle's contract rests on. */
  lemma BucketFacts(a: int, b: int, n: int)
    requires n > 0
    ensures 0 <= a && 0 <= b ==>
      (TruncDiv(a, n) == TruncDiv(b, n) <==> BucketStart(b, n) <= a < BucketStart(b, n) + n)
    ensures 0 <= a && 0 <= b && TruncDiv(a, n) == TruncDiv(b, n) ==> -n < a - b < n
  {
    if 0 <= a && 0 <= b && BucketStart(b, n) <= a < BucketStart(b, n) + n {
      QuotientUnique(a, n, TruncDiv(b, n));
    }
  }

  /** A non-negative number has exactly one truncated quotient. */
  lemma QuotientUnique(a: int, n: int, q: int)
    requires n > 0 && a >= 0 && q * n <= a < q * n + n
    ensures TruncDiv(a, n) == q
  {
    var t := TruncDiv(a, n);
    if t < q {
      MulGap(q, t, n);
      assert false;
    } else if t > q {
      MulGap(t, q, n);
      assert false;
    }
  }
}
