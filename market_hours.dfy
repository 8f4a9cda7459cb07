/** MarketHoursChecker::isMarketOpen (market_hours.h) as a predicate over the
    configuration flags and a reading of the wall clock. */
module MarketHours {
  /** Regular session, Pacific time: 06:30 to 13:00. */
  const MARKET_OPEN_HOUR: int := 6
  const MARKET_OPEN_MINUTE: int := 30
  const MARKET_CLOSE_HOUR: int := 13
  const MARKET_CLOSE_MINUTE: int := 0

  /** Below this many seconds since the epoch the clock is taken to be not
      yet synchronised (8 * 3600 * 2). */
  const CLOCK_SYNCED_FROM: int := 8 * 3600 * 2

  /** One reading of time() and the fields localtime_r derives from it:
      tm_wday (0 = Sunday), tm_hour and tm_min. */
  datatype WallClock = WallClock(now: int, weekday: int, hour: int, minute: int)

  /** Reference reading of the window: the clock shows hour:minute at or
      after h:m, compared hour first, then minute. */
  predicate ClockAtLeast(hour: int, minute: int, h: int, m: int)
  {
    hour > h || (hour == h && minute >= m)
  }

  /** isMarketOpen. Test data or unenforced hours always count as open, and
      those flags are looked at before anything else, weekends included; an
      unsynchronised clock counts as open; Saturday and Sunday are closed;
      otherwise the market is open from 06:30 inclusive to 13:00 exclusive. */
  predicate IsMarketOpen(useTestData: bool, enforceMarketHours: bool, clock: WallClock): (open: bool)
    ensures useTestData || !enforceMarketHours ==> open
    ensures !useTestData && enforceMarketHours && clock.now < CLOCK_SYNCED_FROM ==> open
    ensures (!useTestData && enforceMarketHours && clock.now >= CLOCK_SYNCED_FROM &&
             (clock.weekday == 0 || clock.weekday == 6)) ==> !open
    ensures (!useTestData && enforceMarketHours && clock.now >= CLOCK_SYNCED_FROM &&
             clock.weekday != 0 && clock.weekday != 6 && 0 <= clock.minute < 60) ==>
      (open <==> ClockAtLeast(clock.hour, clock.minute, MARKET_OPEN_HOUR, MARKET_OPEN_MINUTE) &&
                 !ClockAtLeast(clock.hour, clock.minute, MARKET_CLOSE_HOUR, MARKET_CLOSE_MINUTE))
  {
    if useTestData || !enforceMarketHours then true
    else if clock.now < CLOCK_SYNCED_FROM then true
    else if clock.weekday == 0 || clock.weekday == 6 then false
    else
      var currentMinutes := clock.hour * 60 + clock.minute;
      var marketStartMinutes := MARKET_OPEN_HOUR * 60 + MARKET_OPEN_MINUTE;
      var marketEndMinutes := MARKET_CLOSE_HOUR * 60 + MARKET_CLOSE_MINUTE;
      currentMinutes >= marketStartMinutes && currentMinutes < marketEndMinutes
  }
}
