/** enhanced_candle_t (data_fetcher.h) and the per-candle checks of
    data_fetcher.cpp. */
module Candles {
  import opened CArith

  datatype Candle = Candle(open: real, close: real, high: real, low: real, timestamp: int, isComplete: bool)

  /** The candle every new bucket starts with: open, high, low and close all
      equal to the first sample's price. */
  function Opening(price: real, timestamp: int, complete: bool): (c: Candle)
    ensures c.open == c.high == c.low == c.close == price
    ensures c.timestamp == timestamp && c.isComplete == complete
  {
    Candle(price, price, price, price, timestamp, complete)
  }

  /** Folds a sample into a candle: close = price, high and low extended to
      include it. Open, timestamp and the completion flag are kept; the range
      only ever widens, and a candle that passed validateCandle still passes
      it after a positive sample. */
  function Extend(c: Candle, price: real): (d: Candle)
    ensures d.open == c.open && d.timestamp == c.timestamp && d.isComplete == c.isComplete
    ensures d.close == price && d.high == Max(c.high, price) && d.low == Min(c.low, price)
    ensures d.low <= d.close <= d.high && d.low <= c.low && c.high <= d.high
    ensures ValidateCandle(c) && price > 0.0 ==> ValidateCandle(d)
  {
    c.(close := price, high := Max(c.high, price), low := Min(c.low, price))
  }

  /** validateCandle: the OHLC ordering low <= min(open, close) and
      max(open, close) <= high holds and every price is positive. */
  predicate ValidateCandle(c: Candle)
    ensures ValidateCandle(c) <==>
      0.0 < c.low && c.low <= Min(c.open, c.close) && Max(c.open, c.close) <= c.high
  {
    if c.high < c.open || c.high < c.close || c.high < c.low then false
    else if c.low > c.open || c.low > c.close || c.low > c.high then false
    else if c.open <= 0.0 || c.close <= 0.0 || c.high <= 0.0 || c.low <= 0.0 then false
    else true
  }

  /** The check getPriceLevelsForVisibleBars applies before it lets a candle
      count: all four prices are positive (an uninitialised slot is not). */
  predicate Usable(c: Candle)
  {
    c.high > 0.0 && c.low > 0.0 && c.open > 0.0 && c.close > 0.0
  }

  /** A candle that passes validateCandle is usable for the range query. */
  lemma ValidIsUsable(c: Candle)
    requires ValidateCandle(c)
    ensures Usable(c) && c.low <= c.high
  {
  }
}
