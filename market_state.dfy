/**
 * The market-session calculator of the Indonesia Stock Exchange client:
 * trading hours 09:00 through 15:30 on weekdays, public holidays taken
 * from a holiday service and kept in a cache that is refreshed after
 * twelve hours, the next opening time, and the one-line state message.
 *
 * The clock is a value: `millis` stands for `System.currentTimeMillis()`
 * when the cache is checked, `local` for `LocalDateTime.now()`, and
 * `afterFetch` for `System.currentTimeMillis()` once both years have been
 * fetched. The holiday service is a function from a year to the text of
 * its response, or `None` when the request fails.
 */
module MarketState {
  import opened Wrappers
  import opened JavaLang
  import opened Display
  import opened Calendar

  const MarketOpenHour: int := 9
  const MarketCloseHour: int := 15
  const MarketCloseMinute: int := 30

  /** `TimeUnit.HOURS.toMillis(12)`. */
  const HolidayCacheDuration: int := 12 * 60 * 60 * 1000

  /** The text the holiday response is split on: `"date":"`. */
  const DateKey: string := "\"date\":\""

  datatype Clock = Clock(millis: int, local: LocalDateTime, afterFetch: int)

  // ---------------------------------------------------------------------
  // Trading hours
  // ---------------------------------------------------------------------

  /** `isWeekend`: ISO day of week 6 (Saturday) or 7 (Sunday). */
  predicate IsWeekend(t: LocalDateTime)
  {
    DayOfWeek(t.date) >= 6
  }

  /** `isMarketOpen`: from 09:00 through 15:30; seconds are not looked at. */
  predicate IsMarketOpen(t: LocalDateTime)
  {
    (t.hour > MarketOpenHour || t.hour == MarketOpenHour)
    && (t.hour < MarketCloseHour || (t.hour == MarketCloseHour && t.minute <= MarketCloseMinute))
  }

  /** `isAfterMarketClose`, as written: the hour is 15 or later and the minute is past 30. */
  predicate IsAfterMarketClose(t: LocalDateTime)
  {
    t.hour >= MarketCloseHour && t.minute > MarketCloseMinute
  }

  /** The market is open exactly for the minutes of the day from 540 (09:00) to 930 (15:30). */
  lemma OpenMinutes(t: LocalDateTime)
    ensures IsMarketOpen(t) <==> 9 * 60 <= t.hour * 60 + t.minute <= 15 * 60 + 30
  {
  }

  /**
   * The after-close test needs both the hour and the minute: 16:10 is
   * neither open nor "after close", while 15:45 is after close.
   */
  lemma AfterCloseAsWritten()
    ensures var t := DateTime(Date(2025, 1, 2), 16, 10, 0, 0);
      !IsMarketOpen(t) && !IsAfterMarketClose(t)
    ensures var t := DateTime(Date(2025, 1, 2), 15, 45, 0, 0);
      !IsMarketOpen(t) && IsAfterMarketClose(t)
  {
  }

  /** At most two days in a row are weekend days. */
  lemma WeekendEnds(d: LocalDate)
    ensures DayOfWeek(d) < 6 || DayOfWeek(NextDay(d)) < 6 || DayOfWeek(NextDay(NextDay(d))) < 6
  {
    var next := NextDay(d);
    DayOfWeekNextDay(d);
    DayOfWeekNextDay(next);
    WeekCycle(DayOfWeek(d), DayOfWeek(next), DayOfWeek(NextDay(next)));
  }

  lemma WeekCycle(w1: int, w2: int, w3: int)
    requires 1 <= w1 <= 7 && w2 == w1 % 7 + 1 && w3 == w2 % 7 + 1
    ensures w1 < 6 || w2 < 6 || w3 < 6
  {
  }

  // ---------------------------------------------------------------------
  // The holiday cache as a value
  // ---------------------------------------------------------------------

  /** The fields `holidayCache` and `lastHolidayFetch` of the service. */
  datatype HolidayCache = HolidayCache(holidays: set<LocalDate>, lastFetch: int)

  /** `isCacheValid`: fetched less than twelve hours ago and not empty. */
  predicate CacheValid(c: HolidayCache, now: int)
  {
    now - c.lastFetch < HolidayCacheDuration && c.holidays != {}
  }

  /**
   * The date a chunk of the response starts with: its first ten
   * characters as an ISO date. A shorter chunk (`substring` throws) or
   * an invalid date (`LocalDate.parse` throws) gives nothing.
   */
  function ChunkDate(chunk: string): Option<LocalDate>
  {
    if |chunk| < 10 then None else ParseIsoDate(chunk[..10])
  }

  function ChunkDates(chunk: string): set<LocalDate>
  {
    match ChunkDate(chunk)
    case None => {}
    case Some(d) => {d}
  }

  /** The dates of chunks `lo` up to `hi` (exclusive). */
  function DatesBetween(chunks: seq<string>, lo: int, hi: int): set<LocalDate>
    requires hi <= |chunks|
    decreases hi - lo
  {
    if hi <= lo || hi <= 0 then {} else DatesBetween(chunks, lo, hi - 1) + ChunkDates(chunks[hi - 1])
  }

  /** `parseAndAddHolidays`: the dates of all chunks but the first of the split response. */
  function HolidaysIn(json: string): set<LocalDate>
  {
    var chunks := JavaSplit(json, DateKey);
    DatesBetween(chunks, 1, |chunks|)
  }

  lemma {:induction false} DatesBetweenIff(chunks: seq<string>, lo: int, hi: int, d: LocalDate)
    requires 0 <= lo && hi <= |chunks|
    ensures d in DatesBetween(chunks, lo, hi) <==> exists k :: lo <= k < hi && ChunkDate(chunks[k]) == Some(d)
    decreases hi - lo
  {
    if hi > lo && hi > 0 {
      DatesBetweenIff(chunks, lo, hi - 1, d);
      if ChunkDate(chunks[hi - 1]) == Some(d) {
        assert d in ChunkDates(chunks[hi - 1]);
      }
      if d in ChunkDates(chunks[hi - 1]) {
        assert ChunkDate(chunks[hi - 1]) == Some(d);
      }
    }
  }

  /**
   * A date is read from a response exactly when some chunk after the
   * first starts with its ISO text; every other chunk is skipped on its own.
   */
  lemma HolidaysInIff(json: string, d: LocalDate)
    ensures var chunks := JavaSplit(json, DateKey);
      d in HolidaysIn(json) <==> exists k :: 1 <= k < |chunks| && ChunkDate(chunks[k]) == Some(d)
  {
    DatesBetweenIff(JavaSplit(json, DateKey), 1, |JavaSplit(json, DateKey)|, d);
  }

  /** A chunk that starts with the ISO text of a date yields that date, whatever follows it. */
  lemma ChunkOfIsoDate(d: LocalDate, rest: string)
    requires 0 <= d.year <= 9999
    ensures ChunkDate(IsoDate(d) + rest) == Some(d)
  {
    assert (IsoDate(d) + rest)[..10] == IsoDate(d);
    ParseIsoDateOfIsoDate(d);
  }

  /** What `fetchHolidaysForYear(year)` adds: nothing when the request fails. */
  function Fetched(fetch: int -> Option<string>, year: int): set<LocalDate>
  {
    match fetch(year)
    case None => {}
    case Some(text) => HolidaysIn(text)
  }

  /** What the requests for the current year and the next one found. */
  datatype Found = Found(thisYear: set<LocalDate>, nextYear: set<LocalDate>)

  function FetchBoth(fetch: int -> Option<string>, year: int): Found
  {
    Found(Fetched(fetch, year), Fetched(fetch, year + 1))
  }

  /**
   * `updateHolidayCache`, given what the two requests find: a valid cache
   * is kept; otherwise both years' holidays are added and the fetch time
   * is set to the clock reading taken after the fetches, even when both
   * requests fail.
   */
  function Refresh(c: HolidayCache, clock: Clock, found: Found): HolidayCache
  {
    if CacheValid(c, clock.millis) then c
    else HolidayCache(c.holidays + found.thisYear + found.nextYear, clock.afterFetch)
  }

  /** A valid cache is left alone. */
  lemma RefreshKeepsValidCache(c: HolidayCache, clock: Clock, found: Found)
    requires CacheValid(c, clock.millis)
    ensures Refresh(c, clock, found) == c
  {
  }

  /** The fetch time is set even when both requests fail; the holidays are then kept as they were. */
  lemma RefreshAfterFailedFetches(c: HolidayCache, clock: Clock, fetch: int -> Option<string>, year: int)
    requires !CacheValid(c, clock.millis)
    requires fetch(year) == None && fetch(year + 1) == None
    ensures Refresh(c, clock, FetchBoth(fetch, year)) == HolidayCache(c.holidays, clock.afterFetch)
  {
    var found := FetchBoth(fetch, year);
    assert found.thisYear == {} && found.nextYear == {};
    assert c.holidays + {} + {} == c.holidays;
  }

  /** Holidays are only ever added to the cache, never removed. */
  lemma RefreshOnlyAdds(c: HolidayCache, clock: Clock, found: Found)
    ensures c.holidays <= Refresh(c, clock, found).holidays
  {
  }

  /** At one instant a second refresh changes nothing. */
  lemma RefreshIdempotent(c: HolidayCache, clock: Clock, found: Found)
    ensures Refresh(Refresh(c, clock, found), clock, found) == Refresh(c, clock, found)
  {
    var r := Refresh(c, clock, found);
    if !CacheValid(c, clock.millis) && !CacheValid(r, clock.millis) {
      assert r.holidays + found.thisYear + found.nextYear == r.holidays;
    }
  }

  /** A refresh that finds any holiday leaves a cache that stays valid for twelve hours. */
  lemma RefreshedCacheValid(c: HolidayCache, clock: Clock, found: Found, later: int)
    requires !CacheValid(c, clock.millis)
    requires Refresh(c, clock, found).holidays != {}
    requires later < clock.afterFetch + HolidayCacheDuration
    ensures CacheValid(Refresh(c, clock, found), later)
  {
  }

  // ---------------------------------------------------------------------
  // The next opening time
  // ---------------------------------------------------------------------

  /** A day the market stays shut: a weekend day or a holiday. */
  predicate Blocked(d: LocalDate, holidays: set<LocalDate>)
  {
    DayOfWeek(d) >= 6 || d in holidays
  }

  /** The latest day number among the holidays (0 when there are none). */
  ghost function Horizon(holidays: set<LocalDate>): (m: int)
    ensures forall h :: h in holidays ==> DayNumber(h) <= m
    decreases holidays
  {
    if holidays == {} then 0
    else
      var h :| h in holidays;
      var rest := Horizon(holidays - {h});
      if DayNumber(h) >= rest then DayNumber(h) else rest
  }

  /** Days left on a weekend: two on Saturday, one on Sunday. */
  function WeekendLeft(d: LocalDate): nat
  {
    if DayOfWeek(d) == 6 then 2 else if DayOfWeek(d) == 7 then 1 else 0
  }

  /**
   * A bound on the search for a working day: three per day up to the
   * last holiday, then what is left of a weekend.
   */
  ghost function Rank(d: LocalDate, holidays: set<LocalDate>): nat
  {
    var n := Horizon(holidays) - DayNumber(d);
    (if n >= 0 then 3 * (n + 1) else 0) + WeekendLeft(d)
  }

  lemma RankDecreases(d: LocalDate, holidays: set<LocalDate>)
    requires Blocked(d, holidays)
    ensures Rank(NextDay(d), holidays) < Rank(d, holidays)
  {
    DayNumberNextDay(d);
    DayOfWeekNextDay(d);
  }

  /** The first date from `d` on that is neither a weekend day nor a holiday. */
  function FirstWorkingDay(d: LocalDate, holidays: set<LocalDate>): LocalDate
    decreases Rank(d, holidays)
  {
    if !Blocked(d, holidays) then d
    else
      RankDecreases(d, holidays);
      FirstWorkingDay(NextDay(d), holidays)
  }

  /**
   * The working day found is not blocked, is not before `d`, and every
   * day from `d` up to it is blocked.
   */
  lemma {:induction false} FirstWorkingDayIsFirst(d: LocalDate, holidays: set<LocalDate>)
    ensures var w := FirstWorkingDay(d, holidays);
      !Blocked(w, holidays) && DayNumber(w) >= DayNumber(d)
      && w == PlusDays(d, DayNumber(w) - DayNumber(d))
      && forall n :: 0 <= n < DayNumber(w) - DayNumber(d) ==> Blocked(PlusDays(d, n), holidays)
    decreases Rank(d, holidays)
  {
    if Blocked(d, holidays) {
      RankDecreases(d, holidays);
      var next := NextDay(d);
      FirstWorkingDayIsFirst(next, holidays);
      DayNumberNextDay(d);
      var w := FirstWorkingDay(d, holidays);
      assert w == FirstWorkingDay(next, holidays);
      var gap := DayNumber(w) - DayNumber(d);
      assert w == PlusDays(d, gap);
      forall n | 0 <= n < gap
        ensures Blocked(PlusDays(d, n), holidays)
      {
        if n > 0 {
          assert PlusDays(d, n) == PlusDays(next, n - 1);
        }
      }
    }
  }

  /** `plusDays(1)` on a date-time: the time of day is kept. */
  function PlusOneDay(t: LocalDateTime): LocalDateTime
  {
    t.(date := NextDay(t.date))
  }

  /**
   * Where the search starts: `from`'s date, or the next day when after
   * close, at 09:00:00. `withSecond(0)` leaves the nanoseconds alone.
   */
  function OpeningOf(from: LocalDateTime): (t: LocalDateTime)
    ensures t.hour == MarketOpenHour && t.minute == 0 && t.second == 0 && t.nano == from.nano
  {
    var start := if IsAfterMarketClose(from) then PlusOneDay(from) else from;
    start.(hour := MarketOpenHour, minute := 0, second := 0)
  }

  /** `findNextWorkingDay(from)` for a fixed set of holidays. */
  function NextOpen(from: LocalDateTime, holidays: set<LocalDate>): LocalDateTime
  {
    var start := OpeningOf(from);
    start.(date := FirstWorkingDay(start.date, holidays))
  }

  /**
   * The next opening is 09:00:00 (sub-second part kept) on the first day,
   * from `from`'s date or the day after when after close, that is neither
   * a weekend day nor a holiday.
   */
  lemma NextOpenIsFirstWorkingMorning(from: LocalDateTime, holidays: set<LocalDate>)
    ensures var t := NextOpen(from, holidays);
      var first := if IsAfterMarketClose(from) then NextDay(from.date) else from.date;
      var gap := DayNumber(t.date) - DayNumber(first);
      t.hour == 9 && t.minute == 0 && t.second == 0 && t.nano == from.nano
      && !Blocked(t.date, holidays) && gap >= 0 && t.date == PlusDays(first, gap)
      && forall n :: 0 <= n < gap ==> Blocked(PlusDays(first, n), holidays)
  {
    FirstWorkingDayIsFirst(OpeningOf(from).date, holidays);
  }

  /** When `from`'s own day is shut, the market opens on a later day. */
  lemma BlockedDayOpensLater(from: LocalDateTime, holidays: set<LocalDate>)
    requires Blocked(from.date, holidays)
    ensures DayNumber(NextOpen(from, holidays).date) > DayNumber(from.date)
  {
    var start := OpeningOf(from);
    FirstWorkingDayIsFirst(start.date, holidays);
    if IsAfterMarketClose(from) {
      DayNumberNextDay(from.date);
    }
  }

  // ---------------------------------------------------------------------
  // Durations
  // ---------------------------------------------------------------------

  /** Nanoseconds since midnight. */
  function NanoOfDay(t: LocalDateTime): int
  {
    ((t.hour * 60 + t.minute) * 60 + t.second) * 1_000_000_000 + t.nano
  }

  /**
   * The whole seconds of `Duration.between(a, b)`: the exact difference in
   * nanoseconds, rounded down to a second as `Duration.ofNanos` does.
   */
  function SecondsBetween(a: LocalDateTime, b: LocalDateTime): int
  {
    ((DayNumber(b.date) - DayNumber(a.date)) * 86_400_000_000_000 + NanoOfDay(b) - NanoOfDay(a)) / 1_000_000_000
  }

  /** `Duration.toHours()`: truncated toward zero. */
  function Hours(a: LocalDateTime, b: LocalDateTime): int
  {
    TruncDiv(SecondsBetween(a, b), 3600)
  }

  /** `Duration.toMinutesPart()`: the minutes, truncated toward zero, modulo 60 with the sign kept. */
  function MinutesPart(a: LocalDateTime, b: LocalDateTime): int
  {
    TruncRem(TruncDiv(SecondsBetween(a, b), 60), 60)
  }

  lemma NanoOfDayBounds(t: LocalDateTime)
    ensures 0 <= NanoOfDay(t) < 86_400_000_000_000
  {
  }

  /** On a weekend or holiday the countdown is never negative. */
  lemma BlockedCountdownNotNegative(now: LocalDateTime, holidays: set<LocalDate>)
    requires Blocked(now.date, holidays)
    ensures SecondsBetween(now, NextOpen(now, holidays)) > 0
    ensures Hours(now, NextOpen(now, holidays)) >= 0
  {
    var next := NextOpen(now, holidays);
    BlockedDayOpensLater(now, holidays);
    NanoOfDayBounds(now);
    NanoOfDayBounds(next);
    var diff := (DayNumber(next.date) - DayNumber(now.date)) * 86_400_000_000_000 + NanoOfDay(next) - NanoOfDay(now);
    assert diff >= 1_000_000_000;
  }

  // ---------------------------------------------------------------------
  // The state message
  // ---------------------------------------------------------------------

  function OpenMessage(noColor: bool): string
  {
    Color(Green, "OPEN", noColor)
  }

  /** `getHolidayMessage(now)`. */
  function HolidayMessage(now: LocalDateTime, holidays: set<LocalDate>, noColor: bool): string
  {
    Color(Red, "CLOSED (Holiday) - Opens in " + IntToString(Hours(now, NextOpen(now, holidays))) + " hours", noColor)
  }

  /** `getWeekendMessage(now)`. */
  function WeekendMessage(now: LocalDateTime, holidays: set<LocalDate>, noColor: bool): string
  {
    Color(Red, "CLOSED (Weekend) - Opens in " + IntToString(Hours(now, NextOpen(now, holidays))) + " hours", noColor)
  }

  /** `getClosedMessage(now)`. */
  function ClosedMessage(now: LocalDateTime, holidays: set<LocalDate>, noColor: bool): string
  {
    var next := NextOpen(now, holidays);
    Color(Red, "CLOSED - Opens in " + IntToString(Hours(now, next)) + " hours "
      + IntToString(MinutesPart(now, next)) + " minutes", noColor)
  }

  /** `getMarketStateInfo()`: holiday first, then weekend, then open, then closed. */
  function MarketMessage(now: LocalDateTime, holidays: set<LocalDate>, noColor: bool): string
  {
    if now.date in holidays then HolidayMessage(now, holidays, noColor)
    else if IsWeekend(now) then WeekendMessage(now, holidays, noColor)
    else if IsMarketOpen(now) then OpenMessage(noColor)
    else ClosedMessage(now, holidays, noColor)
  }

  /** The text behind a red message starts with `C`, which tells it apart from `OPEN`. */
  lemma RedIsNotOpen(text: string, noColor: bool)
    requires |text| > 0 && text[0] == 'C'
    ensures Color(Red, text, noColor) != OpenMessage(noColor)
  {
    if noColor {
      assert OpenMessage(noColor)[0] == 'O';
    } else {
      assert Color(Red, text, noColor)[3] == '1';
      assert OpenMessage(noColor)[3] == '2';
    }
  }

  /** "OPEN" is shown exactly on a weekday that is not a holiday, within trading hours. */
  lemma OpenIffTradingTime(now: LocalDateTime, holidays: set<LocalDate>, noColor: bool)
    ensures MarketMessage(now, holidays, noColor) == OpenMessage(noColor)
      <==> now.date !in holidays && !IsWeekend(now) && IsMarketOpen(now)
  {
    var next := NextOpen(now, holidays);
    var hours := IntToString(Hours(now, next));
    if now.date in holidays {
      RedIsNotOpen("CLOSED (Holiday) - Opens in " + hours + " hours", noColor);
    } else if IsWeekend(now) {
      RedIsNotOpen("CLOSED (Weekend) - Opens in " + hours + " hours", noColor);
    } else if !IsMarketOpen(now) {
      RedIsNotOpen("CLOSED - Opens in " + hours + " hours " + IntToString(MinutesPart(now, next)) + " minutes", noColor);
    }
  }

  /** A holiday takes priority over the weekend and over trading hours. */
  lemma HolidayFirst(now: LocalDateTime, holidays: set<LocalDate>, noColor: bool)
    requires now.date in holidays
    ensures MarketMessage(now, holidays, noColor) == HolidayMessage(now, holidays, noColor)
    ensures Hours(now, NextOpen(now, holidays)) >= 0
  {
    BlockedCountdownNotNegative(now, holidays);
  }

  /**
   * The after-close test as written: on a working Thursday at 16:10 the
   * next opening found is 09:00 of the same day, so the countdown is
   * negative.
   */
  lemma LateAfternoonCountdown()
    ensures var now := DateTime(Date(2025, 1, 2), 16, 10, 0, 0);
      NextOpen(now, {}) == DateTime(Date(2025, 1, 2), 9, 0, 0, 0)
      && Hours(now, NextOpen(now, {})) == -7
      && MinutesPart(now, NextOpen(now, {})) == -10
  {
    var now := DateTime(Date(2025, 1, 2), 16, 10, 0, 0);
    var d := Date(2025, 1, 2);
    assert DayNumber(d) == 20090;
    assert DayOfWeek(d) == 4;
    assert FirstWorkingDay(d, {}) == d;
    assert SecondsBetween(now, NextOpen(now, {})) == -25800;
  }

  // ---------------------------------------------------------------------
  // The service object
  // ---------------------------------------------------------------------

  class MarketStateService {
    var holidayCache: set<LocalDate>
    var lastHolidayFetch: int
    const noColor: bool

    function State(): HolidayCache
      reads this
    {
      HolidayCache(holidayCache, lastHolidayFetch)
    }

    constructor (noColor: bool)
      ensures State() == HolidayCache({}, 0) && this.noColor == noColor
    {
      holidayCache := {};
      lastHolidayFetch := 0;
      this.noColor := noColor;
    }

    /** `getMarketStateInfo()`. */
    method GetMarketStateInfo(clock: Clock, fetch: int -> Option<string>) returns (info: string)
      modifies this
      ensures State() == Refresh(old(State()), clock, FetchBoth(fetch, clock.local.date.year))
      ensures info == MarketMessage(clock.local, Refresh(old(State()), clock, FetchBoth(fetch, clock.local.date.year)).holidays, noColor)
    {
      var now := clock.local;
      var today := now.date;
      var holiday := IsHoliday(today, clock, fetch);
      if holiday {
        info := GetHolidayMessage(now, clock, fetch);
        RefreshIdempotent(old(State()), clock, FetchBoth(fetch, clock.local.date.year));
        return;
      }
      if IsWeekend(now) {
        info := GetWeekendMessage(now, clock, fetch);
        RefreshIdempotent(old(State()), clock, FetchBoth(fetch, clock.local.date.year));
        return;
      }
      if IsMarketOpen(now) {
        info := Color(Green, "OPEN", noColor);
        return;
      }
      info := GetClosedMessage(now, clock, fetch);
      RefreshIdempotent(old(State()), clock, FetchBoth(fetch, clock.local.date.year));
    }

    /** `updateHolidayCache()`. */
    method UpdateHolidayCache(clock: Clock, fetch: int -> Option<string>)
      modifies this
      ensures State() == Refresh(old(State()), clock, FetchBoth(fetch, clock.local.date.year))
    {
      if CacheValid(State(), clock.millis) {
        return;
      }
      var currentYear := clock.local.date.year;
      ghost var found := FetchBoth(fetch, currentYear);
      assert found.thisYear == Fetched(fetch, currentYear) && found.nextYear == Fetched(fetch, currentYear + 1);
      FetchHolidaysForYear(currentYear, fetch);
      FetchHolidaysForYear(currentYear + 1, fetch);
      lastHolidayFetch := clock.afterFetch;
      assert State() == HolidayCache(old(holidayCache) + found.thisYear + found.nextYear, clock.afterFetch);
    }

    /** `fetchHolidaysForYear(year)`: a failed request is reported and adds nothing. */
    method FetchHolidaysForYear(year: int, fetch: int -> Option<string>)
      modifies this
      ensures holidayCache == old(holidayCache) + Fetched(fetch, year)
      ensures lastHolidayFetch == old(lastHolidayFetch)
    {
      match fetch(year)
      case None =>
      case Some(text) =>
        ParseAndAddHolidays(text);
    }

    /** `parseAndAddHolidays(json)`: every chunk after the first adds the date it starts with, if any. */
    method ParseAndAddHolidays(json: string)
      modifies this
      ensures holidayCache == old(holidayCache) + HolidaysIn(json)
      ensures lastHolidayFetch == old(lastHolidayFetch)
    {
      var holidays := JavaSplit(json, DateKey);
      var i := 1;
      while i < |holidays|
        invariant 1 <= i && (i <= |holidays| || i == 1)
        invariant holidayCache == old(holidayCache) + DatesBetween(holidays, 1, Min(i, |holidays|))
        invariant lastHolidayFetch == old(lastHolidayFetch)
      {
        var chunk := holidays[i];
        if |chunk| >= 10 {
          var parsed := ParseIsoDate(chunk[..10]);
          if parsed.Some? {
            holidayCache := holidayCache + {parsed.value};
          }
        }
        i := i + 1;
      }
    }

    /** `isHoliday(date)`: refreshes the cache, then looks the date up. */
    method IsHoliday(date: LocalDate, clock: Clock, fetch: int -> Option<string>) returns (holiday: bool)
      modifies this
      ensures State() == Refresh(old(State()), clock, FetchBoth(fetch, clock.local.date.year))
      ensures holiday <==> date in holidayCache
    {
      UpdateHolidayCache(clock, fetch);
      holiday := date in holidayCache;
    }

    /** `getHolidayMessage(now)`. */
    method GetHolidayMessage(now: LocalDateTime, clock: Clock, fetch: int -> Option<string>) returns (message: string)
      modifies this
      ensures State() == Refresh(old(State()), clock, FetchBoth(fetch, clock.local.date.year))
      ensures message == HolidayMessage(now, State().holidays, noColor)
    {
      var nextWorkingDay := FindNextWorkingDay(now, clock, fetch);
      var hoursUntilOpen := Hours(now, nextWorkingDay);
      message := Color(Red, "CLOSED (Holiday) - Opens in " + IntToString(hoursUntilOpen) + " hours", noColor);
    }

    /** `getWeekendMessage(now)`. */
    method GetWeekendMessage(now: LocalDateTime, clock: Clock, fetch: int -> Option<string>) returns (message: string)
      modifies this
      ensures State() == Refresh(old(State()), clock, FetchBoth(fetch, clock.local.date.year))
      ensures message == WeekendMessage(now, State().holidays, noColor)
    {
      var nextWorkingDay := FindNextWorkingDay(now, clock, fetch);
      var hoursUntilOpen := Hours(now, nextWorkingDay);
      message := Color(Red, "CLOSED (Weekend) - Opens in " + IntToString(hoursUntilOpen) + " hours", noColor);
    }

    /** `getClosedMessage(now)`. */
    method GetClosedMessage(now: LocalDateTime, clock: Clock, fetch: int -> Option<string>) returns (message: string)
      modifies this
      ensures State() == Refresh(old(State()), clock, FetchBoth(fetch, clock.local.date.year))
      ensures message == ClosedMessage(now, State().holidays, noColor)
    {
      var nextOpen := FindNextWorkingDay(now, clock, fetch);
      var hoursUntilOpen := Hours(now, nextOpen);
      var minutesUntilOpen := MinutesPart(now, nextOpen);
      message := Color(Red, "CLOSED - Opens in " + IntToString(hoursUntilOpen) + " hours "
        + IntToString(minutesUntilOpen) + " minutes", noColor);
    }

    /**
     * `findNextWorkingDay(from)`: from the start of the search, one day at
     * a time while the day is a weekend day or a holiday. The weekend test
     * comes first, so the cache is consulted only on weekdays.
     */
    method FindNextWorkingDay(from: LocalDateTime, clock: Clock, fetch: int -> Option<string>) returns (nextOpen: LocalDateTime)
      modifies this
      ensures State() == Refresh(old(State()), clock, FetchBoth(fetch, clock.local.date.year))
      ensures nextOpen == NextOpen(from, State().holidays)
    {
      ghost var before := State();
      ghost var found := FetchBoth(fetch, clock.local.date.year);
      ghost var after := Refresh(before, clock, found);
      ghost var holidays := after.holidays;
      RefreshIdempotent(before, clock, found);
      nextOpen := from;
      if IsAfterMarketClose(from) {
        nextOpen := PlusOneDay(nextOpen);
      }
      nextOpen := nextOpen.(hour := MarketOpenHour, minute := 0, second := 0);
      ghost var start := nextOpen;
      assert start == OpeningOf(from);
      while true
        invariant State() == before || State() == after
        invariant nextOpen == start.(date := nextOpen.date)
        invariant FirstWorkingDay(nextOpen.date, holidays) == FirstWorkingDay(start.date, holidays)
        decreases Rank(nextOpen.date, holidays)
      {
        if !IsWeekend(nextOpen) {
          var holiday := IsHoliday(nextOpen.date, clock, fetch);
          if !holiday {
            break;
          }
        }
        RankDecreases(nextOpen.date, holidays);
        nextOpen := PlusOneDay(nextOpen);
      }
    }
  }
}
