/**
 * The all-in-one command object. It carries its own copies of the price
 * history, the chart and the market calculator, with its own fields. The
 * chart and market copies follow the service classes line for line, so
 * their methods here run the service code on the command's fields and
 * are specified by the same functions; the history update is written out
 * because it also computes the price colour.
 */
module IdxStock {
  import opened Wrappers
  import opened JavaLang
  import opened Display
  import opened Calendar
  import opened StockData
  import opened Chart
  import opened MarketState

  /** The clock as the command reads it: one reading serves both the check and the stamp. */
  function EarlyStamp(clock: Clock): (c: Clock)
    ensures c.millis == c.afterFetch == clock.millis && c.local == clock.local
  {
    clock.(afterFetch := clock.millis)
  }

  /**
   * The command's refresh and the service's add the same holidays; they
   * differ only in the time stamped on a refilled cache, which for the
   * command is the reading taken before the fetches.
   */
  lemma RefreshCopiesAgree(c: HolidayCache, clock: Clock, found: Found)
    ensures Refresh(c, EarlyStamp(clock), found).holidays == Refresh(c, clock, found).holidays
    ensures !CacheValid(c, clock.millis) ==> Refresh(c, EarlyStamp(clock), found).lastFetch == clock.millis
    ensures CacheValid(c, clock.millis) ==> Refresh(c, EarlyStamp(clock), found) == Refresh(c, clock, found) == c
  {
  }

  class IdxStockCommand {
    var symbol: string
    const noColor: bool
    /** The random colour picked at start-up. */
    const stockColor: string
    /** The width found by `stty size`, or 80. */
    const terminalWidth: int

    var priceHistory: seq<real>
    var timeHistory: seq<LocalDateTime>
    var previousPrice: real
    var hasRealData: bool

    var holidayCache: set<LocalDate>
    var lastHolidayFetch: int

    function PriceState(): StockData.History<LocalDateTime>
      reads this
    {
      StockData.History(priceHistory, timeHistory, hasRealData, previousPrice)
    }

    function HolidayState(): HolidayCache
      reads this
    {
      HolidayCache(holidayCache, lastHolidayFetch)
    }

    ghost predicate Valid()
      reads this
    {
      Bounded(PriceState())
    }

    constructor (symbol: string, noColor: bool, stockColor: string, terminalWidth: int)
      ensures Valid() && PriceState() == EmptyHistory() && HolidayState() == HolidayCache({}, 0)
      ensures this.symbol == symbol && this.noColor == noColor
      ensures this.stockColor == stockColor && this.terminalWidth == terminalWidth
    {
      this.symbol := symbol;
      this.noColor := noColor;
      this.stockColor := stockColor;
      this.terminalWidth := terminalWidth;
      priceHistory := [];
      timeHistory := [];
      previousPrice := 0.0;
      hasRealData := false;
      holidayCache := {};
      lastHolidayFetch := 0;
    }

    /** The start of `call()`: append `:IDX` unless the symbol already ends with it. */
    method AppendIdxSuffix()
      modifies this
      ensures symbol == NormalizeSymbol(old(symbol))
      ensures EndsWith(symbol, IdxSuffix)
      ensures EndsWith(old(symbol), IdxSuffix) ==> symbol == old(symbol)
      ensures PriceState() == old(PriceState()) && HolidayState() == old(HolidayState())
    {
      if !EndsWith(symbol, IdxSuffix) {
        symbol := symbol + IdxSuffix;
      }
    }

    /**
     * The quote handling of `fetchAndDisplayData` once a price was read:
     * pick the price colour against the previous price, store the price,
     * then the one-shot clear, the append and the eviction past 30.
     * `at` is the value of `LocalDateTime.now()`.
     */
    method RecordPrice(price: real, at: LocalDateTime) returns (priceColor: string)
      requires Valid()
      modifies this
      ensures Valid()
      ensures PriceState() == Update(old(PriceState()), price, at)
      ensures priceColor == Reset <==> old(previousPrice) == 0.0
      ensures old(previousPrice) != 0.0 ==> (priceColor == Green <==> price >= old(previousPrice))
      ensures old(previousPrice) != 0.0 && price < old(previousPrice) ==> priceColor == Red
      ensures symbol == old(symbol) && HolidayState() == old(HolidayState())
    {
      priceColor := if previousPrice == 0.0 then Reset else if price >= previousPrice then Green else Red;
      previousPrice := price;
      if !hasRealData && |priceHistory| >= 2 {
        priceHistory := [];
        timeHistory := [];
        hasRealData := true;
      }
      priceHistory := priceHistory + [price];
      timeHistory := timeHistory + [at];
      if |priceHistory| > MaxHistorySize {
        priceHistory := priceHistory[1..];
        timeHistory := timeHistory[1..];
      }
    }

    /** `generateChart()`: the chart of the command's own history, at its own width and colours. */
    method GenerateChart() returns (r: ChartResult)
      ensures r == ChartOutcome(priceHistory, timeHistory, terminalWidth, stockColor, noColor)
    {
      var chart := new ChartService(terminalWidth, stockColor, noColor);
      r := chart.GenerateChart(priceHistory, timeHistory);
    }

    /** A market calculator holding the command's holiday fields. */
    method Market() returns (market: MarketStateService)
      ensures fresh(market)
      ensures market.State() == HolidayState() && market.noColor == noColor
    {
      market := new MarketStateService(noColor);
      market.holidayCache := holidayCache;
      market.lastHolidayFetch := lastHolidayFetch;
    }

    /**
     * `updateHolidayCache()`. The command reads the clock once, before
     * fetching, and stamps the cache with that reading: the service's
     * refresh on a clock whose after-fetch reading is the early one.
     */
    method UpdateHolidayCache(clock: Clock, fetch: int -> Option<string>)
      modifies this
      ensures HolidayState() == Refresh(old(HolidayState()), EarlyStamp(clock), FetchBoth(fetch, clock.local.date.year))
      ensures PriceState() == old(PriceState()) && symbol == old(symbol)
    {
      var market := Market();
      market.UpdateHolidayCache(EarlyStamp(clock), fetch);
      holidayCache, lastHolidayFetch := market.holidayCache, market.lastHolidayFetch;
    }

    /** `fetchHolidaysForYear(year)`: the response's dates are added; a failed request adds nothing. */
    method FetchHolidaysForYear(year: int, fetch: int -> Option<string>)
      modifies this
      ensures holidayCache == old(holidayCache) + Fetched(fetch, year)
      ensures lastHolidayFetch == old(lastHolidayFetch)
      ensures PriceState() == old(PriceState()) && symbol == old(symbol)
    {
      var market := Market();
      market.FetchHolidaysForYear(year, fetch);
      holidayCache := market.holidayCache;
    }

    /** `isHoliday(date)`. */
    method IsHoliday(date: LocalDate, clock: Clock, fetch: int -> Option<string>) returns (holiday: bool)
      modifies this
      ensures HolidayState() == Refresh(old(HolidayState()), EarlyStamp(clock), FetchBoth(fetch, clock.local.date.year))
      ensures holiday <==> date in holidayCache
      ensures PriceState() == old(PriceState()) && symbol == old(symbol)
    {
      var market := Market();
      holiday := market.IsHoliday(date, EarlyStamp(clock), fetch);
      holidayCache, lastHolidayFetch := market.holidayCache, market.lastHolidayFetch;
    }

    /** `findNextWorkingDay(from)`. */
    method FindNextWorkingDay(from: LocalDateTime, clock: Clock, fetch: int -> Option<string>) returns (nextOpen: LocalDateTime)
      modifies this
      ensures HolidayState() == Refresh(old(HolidayState()), EarlyStamp(clock), FetchBoth(fetch, clock.local.date.year))
      ensures nextOpen == NextOpen(from, holidayCache)
      ensures PriceState() == old(PriceState()) && symbol == old(symbol)
    {
      var market := Market();
      nextOpen := market.FindNextWorkingDay(from, EarlyStamp(clock), fetch);
      holidayCache, lastHolidayFetch := market.holidayCache, market.lastHolidayFetch;
    }

    /** `getMarketStateInfo()`, with the weekend and open-hours tests written inline. */
    method GetMarketStateInfo(clock: Clock, fetch: int -> Option<string>) returns (info: string)
      modifies this
      ensures HolidayState() == Refresh(old(HolidayState()), EarlyStamp(clock), FetchBoth(fetch, clock.local.date.year))
      ensures info == MarketMessage(clock.local, holidayCache, noColor)
      ensures PriceState() == old(PriceState()) && symbol == old(symbol)
    {
      var market := Market();
      info := market.GetMarketStateInfo(EarlyStamp(clock), fetch);
      holidayCache, lastHolidayFetch := market.holidayCache, market.lastHolidayFetch;
    }
  }
}
