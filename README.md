# idx-cli core, modelled in Dafny

idx-cli is a terminal client for live Indonesia Stock Exchange (IDX) quotes.
It polls a quote page for a symbol, keeps a short price history, draws the
history as a ten-row text chart, and shows whether the market is open,
using a cache of public holidays. This project models the in-memory logic
behind those three features and proves properties of it. The three
features are:

- **The price history** (`StockData`, in `stock_data.dfy`). Prices and
  their timestamps are kept in two parallel lists of at most 30 entries;
  the oldest entry is evicted first. The history is cleared at most once:
  on the first update that finds at least two entries while no real data
  has been seen yet, which from the empty start is the third update. A
  run of fewer than three updates never clears. The history also gives the price colour (reset, green
  for up or flat, red for down) and normalises symbols to end in `:IDX`.
  The history is a value (`History`, with `Update` and `Run`) and the
  `StockDataService` class is proved against it.
- **The chart** (`Chart`, in `chart.dfy`). The chart shows the last
  `min(size, terminalWidth - 10)` prices. Each price gets a row from 0 to
  9, where the row is `(int) (9 * (price - min) / range)` over the whole
  history. Each column holds a dot on its row and a bar joining it to the
  previous column's row. The rows are printed top first, each behind a
  price label. An axis follows, then a line of `HH:mm:ss` time marks that
  skips eight columns after each mark. The grid is a 10 x N `array2<char>`
  filled by the same nested loops as the source. The text is built by
  methods proved equal to the functions `Body`, `Axis` and `Markers`. Too
  few prices give the text "Collecting data...". The two exceptions the
  source can throw are results of their own.
- **The market calculator** (`MarketState`, in `market_state.dfy`).
  - Trading hours are 09:00 through 15:30 on weekdays.
  - Holidays come from a web service, one request per year. They are kept
    in a set with a twelve-hour time-to-live.
  - The next opening is found by a day-by-day search.
  - The state message is chosen in priority order: holiday, then weekend,
    then open, then closed.
  The cache refresh is the function `Refresh`, and the
  `MarketStateService` class is proved against it. The search loop
  terminates because of a rank that bounds it by the last holiday and the
  rest of a weekend.

`IdxStockCommand` is the older all-in-one command (`IdxStock`, in
`idx_stock_command.dfy`). It holds its own copies of all three features.
Its chart and market methods run the service code on the command's own
fields. Its history update is written out, because it also picks the
price colour. Its cache refresh differs from the service's in one respect:
it stamps the cache with the clock reading taken before the fetches
(`EarlyStamp`).

Supporting modules:
- `JavaLang` (`java_lang.dfy`): truncating division, `endsWith`,
  `repeat`, `%8s`, `%.0f`, `Long.toString`, the `(int)` cast of a double,
  and `String.split` on a literal delimiter, with its removal of trailing
  empty strings.
- `Calendar` (`calendar.dfy`): proleptic Gregorian dates, day numbers and
  the ISO day of week, `plusDays`, strict `LocalDate.parse` of
  `YYYY-MM-DD`, and `HH:mm:ss`.
- `Display` (`display.dfy`): the ANSI codes and `DisplayUtil.color`.

Inputs the program reads at run time are parameters:
- the clock is a `Clock` value:
  - `millis` is `System.currentTimeMillis()` when the cache is checked;
  - `local` is `LocalDateTime.now()`;
  - `afterFetch` is the milliseconds read after both years are fetched;
- each history update takes its timestamp as an argument;
- the holiday service is a function from a year to `Option<string>`;
- the quote page is a function from a symbol to `Option<Quote>`.

Source paths below are relative to the repository root.

## Model

| member | source | states |
|---|---|---|
| StockData.NormalizeSymbol | src/main/java/com/riyuner/service/StockDataService.java:33 | the result always ends with `:IDX`; a symbol that already ends with it is returned unchanged, any other gets `:IDX` appended |
| StockData.NormalizeSymbolIdempotent | src/main/java/com/riyuner/service/StockDataService.java:33 | normalising twice gives the same symbol as normalising once |
| StockData.Update | src/main/java/com/riyuner/service/StockDataService.java:64-78 | one update: `previousPrice` becomes the price; `hasRealData` becomes set once the list held two entries; parallel lists stay parallel and at most 30 long; the new price and time are last; on the one-shot clear only the new sample remains; otherwise the old entries survive in order with at most the oldest one evicted |
| StockData.RunBounded | src/main/java/com/riyuner/service/StockDataService.java:64-76 | from any history with equal-length lists of at most 30 entries, every sequence of updates keeps them equal in length and at most 30 long |
| StockData.RealDataPersists | src/main/java/com/riyuner/service/StockDataService.java:65-69 | once `hasRealData` is set, no sequence of updates resets it |
| StockData.ClearsAtMostOnce | src/main/java/com/riyuner/service/StockDataService.java:65-69 | over any sequence of updates the clear fires at most once; it never fires if real data was already seen, and if it fired the flag ends set |
| StockData.RunFromEmpty | src/main/java/com/riyuner/service/StockDataService.java:65-76 | from the empty start state, after n updates both lists hold exactly the last `n` samples for n <= 2 and the last `min(n - 2, 30)` samples for n >= 3, in arrival order, and `hasRealData` is set exactly when n >= 3 |
| StockData.ThirdUpdateClears | src/main/java/com/riyuner/service/StockDataService.java:65-72 | from empty, two updates give `[p1, p2]` and the third leaves exactly `[p3]` |
| StockData.StockDataService.constructor | src/main/java/com/riyuner/service/StockDataService.java:22-30 | a new service has empty lists, `previousPrice` 0 and no real data |
| StockData.StockDataService.FetchStockData | src/main/java/com/riyuner/service/StockDataService.java:32-51 | the page of the normalised symbol is looked up; a found price is recorded as one `Update`; a missing page leaves the history unchanged |
| StockData.StockDataService.UpdatePriceHistory | src/main/java/com/riyuner/service/StockDataService.java:64-78 | the fields after the call are `Update` of the fields before, and the length invariant is kept |
| StockData.StockDataService.DeterminePriceColor | src/main/java/com/riyuner/service/StockDataService.java:80-83 | RESET exactly when `previousPrice` is 0; otherwise GREEN exactly when the current price is at least the previous one, and RED when it is lower |
| StockData.StockDataService.GetPriceHistory | src/main/java/com/riyuner/service/StockDataService.java:89-91 | the current price list, at most 30 long |
| StockData.StockDataService.GetTimeHistory | src/main/java/com/riyuner/service/StockDataService.java:93-95 | the current timestamp list, as long as the price list |
| StockData.StockDataService.HasEnoughData | src/main/java/com/riyuner/service/StockDataService.java:97-99 | true exactly when at least two prices are held, the same threshold at which the chart stops showing its placeholder (`Chart.CollectingIffTooFewPrices`) |
| Chart.SeqMin | src/main/java/com/riyuner/service/ChartService.java:25 | the minimum is one of the prices and no price is smaller |
| Chart.SeqMax | src/main/java/com/riyuner/service/ChartService.java:26 | the maximum is one of the prices and no price is larger |
| Chart.RowForBounds | src/main/java/com/riyuner/service/ChartService.java:52 | a price between the minimum and the maximum gets a row from 0 to 9; a flat history is range 0, and every price then gets row 0 |
| Chart.RowForMonotone | src/main/java/com/riyuner/service/ChartService.java:52 | a higher price never gets a lower row |
| Chart.RowForExtremes | src/main/java/com/riyuner/service/ChartService.java:25-52 | when the prices are not all equal, the minimum is drawn on row 0 and the maximum on row 9 |
| Chart.Window | src/main/java/com/riyuner/service/ChartService.java:49-51 | column `i` shows price `size - dataPoints + i`: the most recent prices, right-aligned |
| Chart.ColumnIsConnected | src/main/java/com/riyuner/service/ChartService.java:53-68 | every column holds exactly one dot, on its price's row; column 0 holds nothing else; a later column is non-blank exactly on the rows from the previous column's row to its own |
| Chart.ExtremesReachEdges | src/main/java/com/riyuner/service/ChartService.java:25-53 | when the whole history is shown and the prices are not all equal, some column has its dot on the top row and some on the bottom row |
| Chart.ExampleRows | src/main/java/com/riyuner/service/ChartService.java:52 | the prices `[10, 20, 10]` are drawn on rows `[0, 9, 0]` |
| Chart.ChartSymbol | src/main/java/com/riyuner/service/ChartService.java:90-95 | with colour on, a dot or a bar is printed between the stock's colour code and the reset code; other cells, and every cell when colour is off, are printed as the bare character |
| Chart.PlainSymbols | src/main/java/com/riyuner/service/ChartService.java:83-85 | without colour a row of the body is its cells, one character per column |
| Chart.PlainAxis | src/main/java/com/riyuner/service/ChartService.java:97-101 | without colour the axis is 9 spaces, one dash per column, a newline and 9 spaces |
| Chart.PlanShape | src/main/java/com/riyuner/service/ChartService.java:105-117 | the time-mark steps start at column 0, mark exactly the columns that are multiples of the interval, and move on by 8 columns after a mark and by 1 after a space |
| Chart.MarksDoNotOverlap | src/main/java/com/riyuner/service/ChartService.java:105-117 | column 0 always has a mark, and any later step starts at least 8 columns after a mark |
| Chart.MarkInterval | src/main/java/com/riyuner/service/ChartService.java:105 | the interval is at least 1 |
| Chart.CollectingIffTooFewPrices | src/main/java/com/riyuner/service/ChartService.java:22-36 | the result is "Collecting data..." exactly when fewer than two prices are held, since a drawn chart always contains a newline |
| Chart.ChartErrors | src/main/java/com/riyuner/service/ChartService.java:29-110 | with two or more prices, the negative-array-size error occurs exactly when the width is under 10; the out-of-bounds error occurs exactly when the width is over 10 and there are fewer timestamps than columns |
| Chart.ChartService.constructor | src/main/java/com/riyuner/service/ChartService.java:16-20 | the width and colours are stored as given |
| Chart.ChartService.GenerateChart | src/main/java/com/riyuner/service/ChartService.java:22-36 | the result is `ChartOutcome`: the placeholder, one of the two exceptions, or the body, axis and marks of the last `min(size, width - 10)` prices |
| Chart.ChartService.BuildChartString | src/main/java/com/riyuner/service/ChartService.java:71-77 | the text is body, then axis, then marks; reading the time of the first shown column fails when there are fewer timestamps than columns |
| Chart.ChartService.InitializeChartGrid | src/main/java/com/riyuner/service/ChartService.java:38-46 | a new 10 x dataPoints grid, every cell blank |
| Chart.ChartService.PlotChartPoints | src/main/java/com/riyuner/service/ChartService.java:48-59 | from a blank grid, every cell becomes `Cell` of the window's rows: the dot and bar layout of `Chart.ColumnIsConnected` |
| Chart.ChartService.PlotColumn | src/main/java/com/riyuner/service/ChartService.java:50-57 | one pass of the plotting loop paints column `i` completely and changes no other column |
| Chart.ChartService.PlotTrendLine | src/main/java/com/riyuner/service/ChartService.java:61-69 | in column `i`, exactly the blank cells between the previous price's row and `y` become bars; a dot is never overwritten and no other column changes |
| Chart.ChartService.FormatChartSymbol | src/main/java/com/riyuner/service/ChartService.java:90-95 | the same text as `ChartSymbol` for the service's colour settings |
| Chart.ChartService.BuildChartBody | src/main/java/com/riyuner/service/ChartService.java:79-88 | the body is the ten rows from row 9 down to row 0, each its label, its formatted cells and a newline |
| Chart.ChartService.BuildChartRow | src/main/java/com/riyuner/service/ChartService.java:81-86 | one row is its label, then the formatted cells of all columns, then a newline |
| Chart.ChartService.FormatRowLabel | src/main/java/com/riyuner/service/ChartService.java:81-82 | the label of row `i` is `%.0f` of `min + range * i / 9`, padded to eight characters and followed by a space and a bar, in blue |
| Chart.ChartService.BuildChartAxis | src/main/java/com/riyuner/service/ChartService.java:97-101 | the axis text `Axis(dataPoints)` |
| Chart.ChartService.BuildTimeMarkers | src/main/java/com/riyuner/service/ChartService.java:103-118 | the marks follow the steps of `Plan` (see `Chart.PlanShape`): at column `i`, a yellow bar and the blue `HH:mm:ss` of timestamp `size - dataPoints + i`, then a jump of eight columns; elsewhere a space |
| Chart.ChartService.MarkColumn | src/main/java/com/riyuner/service/ChartService.java:107-116 | one pass of the loop: on a multiple of the interval the next column is eight further on, otherwise one; the text appended, followed by the marks from the next column, is the marks from this column |
| Chart.ChartService.FormatTimeMark | src/main/java/com/riyuner/service/ChartService.java:111-112 | one mark is the yellow bar followed by the blue time |
| JavaLang.TruncDiv | src/main/java/com/riyuner/service/MarketStateService.java:115 | Java's integer division, truncated toward zero |
| JavaLang.TruncRem | src/main/java/com/riyuner/service/MarketStateService.java:130 | Java's remainder: dividend = divisor * quotient + remainder, with the remainder taking the dividend's sign |
| JavaLang.DoubleToInt | src/main/java/com/riyuner/service/ChartService.java:52 | the `(int)` cast drops the fraction, rounding toward zero |
| JavaLang.FormatNoDecimals | src/main/java/com/riyuner/service/ChartService.java:81 | `%.0f` of a non-negative value is digits within 0.5 of it; a negative value gets a leading minus |
| JavaLang.PadLeft | src/main/java/com/riyuner/service/ChartService.java:82 | `%8s` keeps the text at the right end and pads the left with spaces, never truncating |
| JavaLang.JoinSplit | src/main/java/com/riyuner/service/MarketStateService.java:86 | joining the pieces of a split with the delimiter gives back the text |
| JavaLang.JavaSplitCases | src/main/java/com/riyuner/service/MarketStateService.java:86 | `split` gives the whole text when the delimiter does not occur, otherwise the pieces without trailing empty ones; no piece contains the delimiter |
| Calendar.DayOfWeekNextDay | src/main/java/com/riyuner/service/MarketStateService.java:102-104 | the ISO day of week of the next day follows the 7-day cycle |
| Calendar.EpochIsThursday | src/main/java/com/riyuner/service/MarketStateService.java:102-104 | 1970-01-01 is day 0, a Thursday (4) |
| Calendar.ParseIsoDateOfIsoDate | src/main/java/com/riyuner/service/MarketStateService.java:89-90 | parsing the `YYYY-MM-DD` text of any date with a four-digit year gives that date back |
| Calendar.ParseIsoDateSound | src/main/java/com/riyuner/service/MarketStateService.java:89-90 | every ten-character text the parser accepts is exactly the `YYYY-MM-DD` text of the date it returns |
| Calendar.Hms | src/main/java/com/riyuner/service/ChartService.java:104-110 | `HH:mm:ss` is eight characters wide, with two-digit hour, minute and second separated by colons |
| Display.Color | src/main/java/com/riyuner/util/DisplayUtil.java:19-21 | without colour the plain text; otherwise the code, the text, then RESET |
| Display.ColorContainsText | src/main/java/com/riyuner/util/DisplayUtil.java:19-21 | the decorated text contains the plain text, right after the code |
| MarketState.OpenMinutes | src/main/java/com/riyuner/service/MarketStateService.java:106-111 | open exactly from minute 540 (09:00) to minute 930 (15:30) of the day; seconds are not looked at, so 15:30:59 is open |
| MarketState.AfterCloseAsWritten | src/main/java/com/riyuner/service/MarketStateService.java:151-153 | 16:10 is neither open nor after close; 15:45 is closed and after close |
| MarketState.WeekendEnds | src/main/java/com/riyuner/service/MarketStateService.java:102-104 | at most two days in a row are weekend days |
| MarketState.DatesBetweenIff | src/main/java/com/riyuner/service/MarketStateService.java:87-94 | a date is collected from chunks `lo` up to `hi` exactly when one of those chunks yields it |
| MarketState.HolidaysInIff | src/main/java/com/riyuner/service/MarketStateService.java:85-95 | a date is added exactly when some chunk after the first starts with its ISO text; chunk 0, short chunks and invalid dates add nothing and do not affect the others |
| MarketState.ChunkOfIsoDate | src/main/java/com/riyuner/service/MarketStateService.java:89-90 | a chunk that starts with a date's ISO text yields that date, whatever follows |
| MarketState.RefreshKeepsValidCache | src/main/java/com/riyuner/service/MarketStateService.java:51-68 | a cache fetched under twelve hours ago and not empty is left unchanged |
| MarketState.RefreshAfterFailedFetches | src/main/java/com/riyuner/service/MarketStateService.java:51-83 | when the cache is stale and both requests fail, the holidays are kept as they were and the fetch time is still set |
| MarketState.RefreshOnlyAdds | src/main/java/com/riyuner/service/MarketStateService.java:51-63 | a refresh never removes a holiday |
| MarketState.RefreshIdempotent | src/main/java/com/riyuner/service/MarketStateService.java:51-63 | at one clock reading, a second refresh changes nothing |
| MarketState.RefreshedCacheValid | src/main/java/com/riyuner/service/MarketStateService.java:51-68 | a refresh that leaves any holiday in the cache makes it valid until twelve hours after the stamped time |
| MarketState.RankDecreases | src/main/java/com/riyuner/service/MarketStateService.java:144-146 | each step of the search over a weekend day or holiday brings it closer to its end |
| MarketState.FirstWorkingDayIsFirst | src/main/java/com/riyuner/service/MarketStateService.java:144-146 | the day found is neither a weekend day nor a holiday, is not before the start, and every day from the start up to it is one of those |
| MarketState.OpeningOf | src/main/java/com/riyuner/service/MarketStateService.java:136-142 | the search starts at 09:00:00 and keeps the sub-second part |
| MarketState.NextOpenIsFirstWorkingMorning | src/main/java/com/riyuner/service/MarketStateService.java:135-149 | the next opening is 09:00:00, with the sub-second part kept, on the first day that is not a weekend day or holiday, counting from `from`'s date, or from the next day when after close |
| MarketState.BlockedDayOpensLater | src/main/java/com/riyuner/service/MarketStateService.java:135-149 | when `from`'s own day is a weekend day or holiday, the opening is on a later day |
| MarketState.NanoOfDayBounds | src/main/java/com/riyuner/service/MarketStateService.java:115 | the time of day is under 24 hours |
| MarketState.BlockedCountdownNotNegative | src/main/java/com/riyuner/service/MarketStateService.java:113-125 | on a weekend day or holiday the countdown to the opening is positive, so the hours shown are not negative |
| MarketState.RedIsNotOpen | src/main/java/com/riyuner/service/MarketStateService.java:44-48 | a red closed message is never the same text as the green OPEN |
| MarketState.OpenIffTradingTime | src/main/java/com/riyuner/service/MarketStateService.java:32-48 | OPEN is shown exactly on a weekday that is not a holiday, within trading hours |
| MarketState.HolidayFirst | src/main/java/com/riyuner/service/MarketStateService.java:32-49 | on a holiday the holiday message is shown, whatever the day or time, with a non-negative number of hours |
| MarketState.LateAfternoonCountdown | src/main/java/com/riyuner/service/MarketStateService.java:127-153 | on a working Thursday at 16:10 the next opening found is 09:00 of the same day, so the message counts -7 hours and -10 minutes |
| MarketState.MarketStateService.constructor | src/main/java/com/riyuner/service/MarketStateService.java:24-30 | a new calculator has an empty cache fetched at time 0 |
| MarketState.MarketStateService.GetMarketStateInfo | src/main/java/com/riyuner/service/MarketStateService.java:32-49 | the cache is refreshed once, and the message is `MarketMessage` of the refreshed holidays: holiday, then weekend, then open, then closed |
| MarketState.MarketStateService.UpdateHolidayCache | src/main/java/com/riyuner/service/MarketStateService.java:51-63 | the new cache is `Refresh` of the old one: kept when valid, otherwise both years' holidays added and the fetch time set to the reading after the fetches |
| MarketState.MarketStateService.FetchHolidaysForYear | src/main/java/com/riyuner/service/MarketStateService.java:70-83 | the holidays of the year's response are added; a failed request adds nothing; the fetch time is unchanged |
| MarketState.MarketStateService.ParseAndAddHolidays | src/main/java/com/riyuner/service/MarketStateService.java:85-95 | exactly the dates of `HolidaysIn` are added (see `MarketState.HolidaysInIff`); nothing is removed |
| MarketState.MarketStateService.IsHoliday | src/main/java/com/riyuner/service/MarketStateService.java:97-100 | the cache is refreshed, then the answer is whether the date is in it |
| MarketState.MarketStateService.GetHolidayMessage | src/main/java/com/riyuner/service/MarketStateService.java:113-118 | red "CLOSED (Holiday) - Opens in N hours", N the whole hours to the next opening |
| MarketState.MarketStateService.GetWeekendMessage | src/main/java/com/riyuner/service/MarketStateService.java:120-125 | red "CLOSED (Weekend) - Opens in N hours" |
| MarketState.MarketStateService.GetClosedMessage | src/main/java/com/riyuner/service/MarketStateService.java:127-133 | red "CLOSED - Opens in H hours M minutes", with the truncated hours and the minutes part of the duration |
| MarketState.MarketStateService.FindNextWorkingDay | src/main/java/com/riyuner/service/MarketStateService.java:135-149 | the loop ends, and it returns `NextOpen` of the refreshed holidays (see `MarketState.NextOpenIsFirstWorkingMorning`); the cache ends refreshed |
| IdxStock.EarlyStamp | src/main/java/com/riyuner/IdxStockCommand.java:194-206 | the command's single clock reading serves both the validity check and the stamp |
| IdxStock.RefreshCopiesAgree | src/main/java/com/riyuner/IdxStockCommand.java:193-210 | the command's refresh adds the same holidays as the service's; a stale cache is stamped with the reading taken before fetching |
| IdxStock.IdxStockCommand.constructor | src/main/java/com/riyuner/IdxStockCommand.java:57-91 | a new command has an empty holiday cache fetched at time 0 and keeps the width and colour it is given; its empty history and `previousPrice` 0 are the field initialisers at lines 188-190 |
| IdxStock.IdxStockCommand.AppendIdxSuffix | src/main/java/com/riyuner/IdxStockCommand.java:431-433 | the symbol afterwards ends with `:IDX`, is unchanged if it already did, and is `NormalizeSymbol` of the old one, so a second run changes nothing |
| IdxStock.IdxStockCommand.RecordPrice | src/main/java/com/riyuner/IdxStockCommand.java:354-376 | the colour is RESET exactly when the previous price is 0, otherwise GREEN exactly when the price is at least the previous one, else RED; the history becomes `Update` of the old one, keeping the length invariant |
| IdxStock.IdxStockCommand.GenerateChart | src/main/java/com/riyuner/IdxStockCommand.java:109-186 | the same result as the service's chart (`ChartOutcome`) of the command's history, width and colours |
| IdxStock.IdxStockCommand.Market | src/main/java/com/riyuner/IdxStockCommand.java:57-58 | a calculator holding exactly the command's holiday fields |
| IdxStock.IdxStockCommand.UpdateHolidayCache | src/main/java/com/riyuner/IdxStockCommand.java:193-210 | `Refresh` with the stamp taken before the fetches; the price history and symbol are unchanged |
| IdxStock.IdxStockCommand.FetchHolidaysForYear | src/main/java/com/riyuner/IdxStockCommand.java:212-237 | the year's holidays are added by the same tolerant parse (lines 223-233); a failed request adds nothing |
| IdxStock.IdxStockCommand.IsHoliday | src/main/java/com/riyuner/IdxStockCommand.java:240-243 | the cache is refreshed, then the date is looked up |
| IdxStock.IdxStockCommand.FindNextWorkingDay | src/main/java/com/riyuner/IdxStockCommand.java:280-297 | `NextOpen` of the refreshed holidays: 09:00:00 on the first working day from the start date, which moves to the next day only when `hour >= 15 && minute > 30` |
| IdxStock.IdxStockCommand.GetMarketStateInfo | src/main/java/com/riyuner/IdxStockCommand.java:245-277 | `MarketMessage` of the refreshed holidays; the inline open test at lines 264-267 is `IsMarketOpen` |

## Left out

- Network access via Jsoup is not modelled. This covers the quote page, including `extractPriceChange` and the scraping in `fetchAndDisplayData`, and the holiday requests. Both are oracle parameters. What the model covers starts where the fetched text or price arrives.
- The detail rows of `--detailed`, the header, the currency line and `DisplayService` are screen layout, so they are not modelled.
- `formatCurrency` is not modelled: it is locale-dependent number formatting.
- `StockData` (the model class) is the `Quote` datatype.
- Floating point: prices are exact `real`s, so `double` rounding is not modelled. `%.0f` is written with ASCII digits; the default locale's digits and `String.format`'s locale are not modelled. The row cast, `%.0f` and the NaN of a flat history are written out: a flat history puts every point on row 0.
- The clock and the passing of time: each call takes one `Clock` value. In the source, every `isHoliday` inside the `findNextWorkingDay` loop reads the clock anew. The model uses one reading and one fetch oracle for the whole call. While the cache stays invalid (both fetches came back with nothing), every `isHoliday` in that loop refreshes again, as in the source. With the clock and the oracle fixed, each of those refreshes leaves the state it found, by `MarketState.RefreshIdempotent`.
- `Chart.ChartErrors`: the model subtracts the 10-column label margin from the width exactly. Java's `terminalWidth - 10` is 32-bit and wraps for widths below -2147483638, so for such widths the iff does not describe the source. The width is the `stty` column count or the default 80, which never comes near that.
- A console warning for each failed request is not modelled, because it is output only.
- The `try` around the two fetches in `updateHolidayCache` cannot catch anything, since `fetchHolidaysForYear` catches its own errors. So the stamp is always written.
- `Duration.between` is taken as exact nanoseconds, floored to seconds. Its overflow for spans of about 292 years is not modelled.
- Terminal concerns are not modelled, because they are terminal I/O:
  - `stty` width detection;
  - `clearScreen`, cursor and alternate-screen escapes;
  - random colour generation;
  - the poll loop with `sleep`;
  - `call()` past its symbol normalisation.
  The width and the colour are constructor arguments.
- Aliasing: `getPriceHistory` and `getTimeHistory` return the live lists. The model returns the current sequences, so later updates through a returned reference are not captured.
- The command's inline chart and market code is not modelled separately. The command methods run the service methods, because the two copies agree step for step: same window, same rows, same dot and bar rule, same labels, axis and marks. The one difference, the clock reading used for the stamp, is modelled.
- Years past 9999 and before 0: the ISO text of such years has a sign or more digits. The parse and print lemmas are stated for years 0 to 9999, the range a `YYYY-MM-DD` chunk can hold.
