/**
 * ChartService: the ten-row text chart of the recent prices. The visible
 * window is the last `min(size, terminalWidth - 10)` prices; each column
 * holds a dot at the price's row and a vertical bar joining it to the
 * previous column's row; the rows are printed top first behind a price
 * label, then a dashed axis and a line of `HH:mm:ss` time marks.
 */
module Chart {
  import opened Wrappers
  import opened JavaLang
  import opened Display
  import opened Calendar

  const ChartHeight: nat := 10
  const LabelMargin: int := 10
  const Dot: char := '\U{2022}'
  const Bar: char := '\U{2502}'
  const Blank: char := ' '
  const Collecting: string := "Collecting data..."
  /** Every `HH:mm:ss` mark is eight characters wide. */
  const TimeWidth: nat := 8

  /** What `generateChart` produces: the text, or the exception it throws. */
  datatype ChartResult =
    | Rendered(text: string)
    | NegativeArraySize
    | IndexOutOfBounds

  // ---------------------------------------------------------------------
  // Scaling
  // ---------------------------------------------------------------------

  /** `stream().min()` of a non-empty list. */
  function SeqMin(xs: seq<real>): (m: real)
    requires |xs| > 0
    ensures m in xs
    ensures forall i :: 0 <= i < |xs| ==> m <= xs[i]
  {
    if |xs| == 1 then xs[0]
    else
      var rest := SeqMin(xs[1..]);
      assert forall i :: 1 <= i < |xs| ==> xs[i] == xs[1..][i - 1];
      if xs[0] <= rest then xs[0] else rest
  }

  /** `stream().max()` of a non-empty list. */
  function SeqMax(xs: seq<real>): (m: real)
    requires |xs| > 0
    ensures m in xs
    ensures forall i :: 0 <= i < |xs| ==> xs[i] <= m
  {
    if |xs| == 1 then xs[0]
    else
      var rest := SeqMax(xs[1..]);
      assert forall i :: 1 <= i < |xs| ==> xs[i] == xs[1..][i - 1];
      if xs[0] >= rest then xs[0] else rest
  }

  /** `max - min`: the spread of the prices, the `range` of the chart. */
  function Spread(xs: seq<real>): (d: real)
    requires |xs| > 0
    ensures d >= 0.0
  {
    SeqMax(xs) - SeqMin(xs)
  }

  /** Every price lies in `[lo, lo + range]`. */
  predicate InRange(prices: seq<real>, lo: real, range: real)
  {
    forall i :: 0 <= i < |prices| ==> lo <= prices[i] <= lo + range
  }

  /** `Math.min(size, terminalWidth - 10)`: the number of columns drawn. */
  function DataPoints(size: int, terminalWidth: int): int
  {
    Min(size, terminalWidth - LabelMargin)
  }

  /**
   * The row of a price, `(int) (9 * (price - min) / range)`. When every
   * price is the same the quotient is NaN and the cast gives 0.
   */
  function RowFor(price: real, lo: real, range: real): int
  {
    if range == 0.0 then 0
    else DoubleToInt((ChartHeight - 1) as real * (price - lo) / range)
  }

  /** A price within the range lands on one of the ten rows; a flat history puts it on row 0. */
  lemma RowForBounds(price: real, lo: real, range: real)
    requires range >= 0.0 && lo <= price <= lo + range
    ensures 0 <= RowFor(price, lo, range) < ChartHeight
    ensures range == 0.0 ==> RowFor(price, lo, range) == 0
  {
    if range > 0.0 {
      QuotientBounds(9.0 * (price - lo), 9.0 * range, range);
    }
  }

  /** `0 <= a <= b` and `d > 0` give `0 <= a / d <= b / d`. */
  lemma QuotientBounds(a: real, b: real, d: real)
    requires 0.0 <= a <= b && d > 0.0
    ensures 0.0 <= a / d <= b / d
  {
    assert a / d * d == a && b / d * d == b;
  }

  /** A higher price never gets a lower row. */
  lemma RowForMonotone(p: real, q: real, lo: real, range: real)
    requires range >= 0.0 && p <= q
    ensures RowFor(p, lo, range) <= RowFor(q, lo, range)
  {
    if range > 0.0 {
      QuotientMonotone(9.0 * (p - lo), 9.0 * (q - lo), range);
    }
  }

  lemma QuotientMonotone(a: real, b: real, d: real)
    requires a <= b && d > 0.0
    ensures a / d <= b / d
  {
    assert a / d * d == a && b / d * d == b;
  }

  /** The lowest price is drawn on the bottom row, the highest on the top one. */
  lemma RowForExtremes(lo: real, hi: real)
    requires lo < hi
    ensures RowFor(lo, lo, hi - lo) == 0
    ensures RowFor(hi, lo, hi - lo) == ChartHeight - 1
  {
    assert (ChartHeight - 1) as real * (hi - lo) / (hi - lo) == 9.0;
  }

  // ---------------------------------------------------------------------
  // The grid as a value
  // ---------------------------------------------------------------------

  /** The last `dataPoints` prices, the ones the chart shows. */
  function Window(prices: seq<real>, dataPoints: nat): (w: seq<real>)
    requires dataPoints <= |prices|
    ensures |w| == dataPoints
    ensures forall i :: 0 <= i < dataPoints ==> w[i] == prices[|prices| - dataPoints + i]
  {
    prices[|prices| - dataPoints..]
  }

  /** The row of each shown price. */
  function Ys(window: seq<real>, lo: real, range: real): (ys: seq<int>)
    ensures |ys| == |window|
    ensures forall i :: 0 <= i < |window| ==> ys[i] == RowFor(window[i], lo, range)
  {
    seq(|window|, i requires 0 <= i < |window| => RowFor(window[i], lo, range))
  }

  /** `r` lies between rows `a` and `b`, both included. */
  predicate Between(r: int, a: int, b: int)
  {
    Min(a, b) <= r <= Max(a, b)
  }

  /**
   * The character at row `r` of column `c`: a dot on the price's row, a bar
   * on the rows between the previous column's row and this one, blank
   * elsewhere.
   */
  function Cell(ys: seq<int>, r: int, c: int): char
    requires 0 <= c < |ys|
  {
    if r == ys[c] then Dot
    else if c > 0 && Between(r, ys[c - 1], ys[c]) then Bar
    else Blank
  }

  /**
   * Each column is one unbroken vertical run: the first column holds only
   * its dot, every later one exactly the rows from the previous column's row
   * to its own, with the dot on its own row.
   */
  lemma ColumnIsConnected(ys: seq<int>, c: int, r: int)
    requires 0 <= c < |ys|
    ensures Cell(ys, r, c) == Dot <==> r == ys[c]
    ensures c == 0 ==> (Cell(ys, r, c) != Blank <==> r == ys[c])
    ensures c > 0 ==>
      (Cell(ys, r, c) != Blank <==> Min(ys[c - 1], ys[c]) <= r <= Max(ys[c - 1], ys[c]))
  {
  }

  /**
   * When the whole history fits and the prices are not all equal, the
   * highest price has its dot on the top row and the lowest on the bottom
   * row (a column's dot is on row `ys[c]`, see `ColumnIsConnected`).
   */
  lemma ExtremesReachEdges(prices: seq<real>)
    requires |prices| > 0
    requires SeqMax(prices) > SeqMin(prices)
    ensures HasRow(Ys(Window(prices, |prices|), SeqMin(prices), Spread(prices)), ChartHeight - 1)
    ensures HasRow(Ys(Window(prices, |prices|), SeqMin(prices), Spread(prices)), 0)
  {
    var lo, hi := SeqMin(prices), SeqMax(prices);
    var w := Window(prices, |prices|);
    var top :| 0 <= top < |prices| && prices[top] == hi;
    var bottom :| 0 <= bottom < |prices| && prices[bottom] == lo;
    assert w[top] == hi && w[bottom] == lo;
    assert Spread(prices) == hi - lo;
    ExtremeColumns(w, lo, hi, top, bottom);
  }

  /** Some column has its dot on `row`. */
  predicate HasRow(ys: seq<int>, row: int)
  {
    exists c :: 0 <= c < |ys| && ys[c] == row
  }

  /** The columns of the lowest and the highest price reach the bottom and the top row. */
  lemma ExtremeColumns(w: seq<real>, lo: real, hi: real, top: int, bottom: int)
    requires lo < hi
    requires 0 <= top < |w| && w[top] == hi
    requires 0 <= bottom < |w| && w[bottom] == lo
    ensures HasRow(Ys(w, lo, hi - lo), ChartHeight - 1) && HasRow(Ys(w, lo, hi - lo), 0)
  {
    var ys := Ys(w, lo, hi - lo);
    RowForExtremes(lo, hi);
    assert ys[top] == ChartHeight - 1;
    assert ys[bottom] == 0;
  }

  /** `[10, 20, 10]`: the middle price is on the top row, the others on the bottom. */
  lemma ExampleRows()
    ensures Ys(Window([10.0, 20.0, 10.0], 3), SeqMin([10.0, 20.0, 10.0]), Spread([10.0, 20.0, 10.0])) == [0, 9, 0]
  {
    var prices := [10.0, 20.0, 10.0];
    assert SeqMin(prices) == 10.0;
    assert SeqMax(prices) == 20.0;
    RowForExtremes(10.0, 20.0);
    var ys := Ys(Window(prices, 3), 10.0, 10.0);
    assert ys[0] == 0 && ys[1] == 9 && ys[2] == 0;
  }

  /** The grid holds exactly the cells of the column rows `ys`. */
  predicate Painted(grid: array2<char>, ys: seq<int>)
    reads grid
  {
    grid.Length0 == ChartHeight && grid.Length1 == |ys|
    && forall r, c :: 0 <= r < ChartHeight && 0 <= c < |ys| ==> grid[r, c] == Cell(ys, r, c)
  }

  // ---------------------------------------------------------------------
  // The text as a value
  // ---------------------------------------------------------------------

  /** `formatChartSymbol`: dots and bars in the stock's colour. */
  function ChartSymbol(c: char, stockColor: string, noColor: bool): (s: string)
    ensures noColor ==> s == [c]
    ensures c != Dot && c != Bar ==> s == [c]
    ensures !noColor && (c == Dot || c == Bar) ==> s == stockColor + [c] + Reset
  {
    if c == Dot || c == Bar then Color(stockColor, [c], noColor) else [c]
  }

  /** The first `n` cells of row `r`, each formatted. */
  function Symbols(ys: seq<int>, r: int, n: nat, stockColor: string, noColor: bool): string
    requires n <= |ys|
  {
    if n == 0 then ""
    else Symbols(ys, r, n - 1, stockColor, noColor) + ChartSymbol(Cell(ys, r, n - 1), stockColor, noColor)
  }

  /** The price printed at the left of row `r`: `min + range * r / 9`. */
  function RowPrice(lo: real, range: real, r: int): real
  {
    lo + range * r as real / (ChartHeight - 1) as real
  }

  /** The blue price label `%8s |` in front of row `r`. */
  function RowLabel(lo: real, range: real, r: int, noColor: bool): string
  {
    Color(Blue, PadLeft(FormatNoDecimals(RowPrice(lo, range, r)), 8) + " |", noColor)
  }

  /** The labels of the ten rows, bottom row first. */
  function RowLabels(lo: real, range: real, noColor: bool): (labels: seq<string>)
    ensures |labels| == ChartHeight
  {
    seq(ChartHeight, r => RowLabel(lo, range, r, noColor))
  }

  /**
   * `labels` holds the label of every row. The quantifier fires only where
   * a row's label is spelled out, which keeps the label's digits out of
   * proofs that only move whole rows around.
   */
  predicate LabelsFor(labels: seq<string>, lo: real, range: real, noColor: bool)
  {
    |labels| == ChartHeight
    && forall r {:trigger RowLabel(lo, range, r, noColor)} :: 0 <= r < ChartHeight ==> labels[r] == RowLabel(lo, range, r, noColor)
  }

  lemma RowLabelsAreLabels(lo: real, range: real, noColor: bool)
    ensures LabelsFor(RowLabels(lo, range, noColor), lo, range, noColor)
  {
  }

  /** One row of the body: its label, its cells, a newline. */
  function RowLine(ys: seq<int>, r: int, rowLabel: string, stockColor: string, noColor: bool): string
  {
    rowLabel + Symbols(ys, r, |ys|, stockColor, noColor) + "\n"
  }

  /** The rows from the top one down to row `r`, top first. */
  function RowsDownTo(ys: seq<int>, r: int, labels: seq<string>, stockColor: string, noColor: bool): string
    requires 0 <= r <= ChartHeight == |labels|
    decreases ChartHeight - r
  {
    if r == ChartHeight then ""
    else RowsDownTo(ys, r + 1, labels, stockColor, noColor) + RowLine(ys, r, labels[r], stockColor, noColor)
  }

  /** `buildChartBody`: the ten rows, top row first. */
  function Body(ys: seq<int>, labels: seq<string>, stockColor: string, noColor: bool): string
    requires |labels| == ChartHeight
  {
    RowsDownTo(ys, 0, labels, stockColor, noColor)
  }

  lemma AppendAssoc(a: string, b: string, c: string)
    ensures a + (b + c) == (a + b) + c
  {
  }

  /** One more cell after any prefix. */
  lemma SymbolsStep(prefix: string, ys: seq<int>, r: int, n: nat, stockColor: string, noColor: bool)
    requires n < |ys|
    ensures prefix + Symbols(ys, r, n + 1, stockColor, noColor)
      == (prefix + Symbols(ys, r, n, stockColor, noColor)) + ChartSymbol(Cell(ys, r, n), stockColor, noColor)
  {
  }

  /** One more row below the rows already written. */
  lemma RowsDownToStep(ys: seq<int>, r: int, labels: seq<string>, stockColor: string, noColor: bool)
    requires 0 <= r < ChartHeight == |labels|
    ensures RowsDownTo(ys, r, labels, stockColor, noColor)
      == RowsDownTo(ys, r + 1, labels, stockColor, noColor) + RowLine(ys, r, labels[r], stockColor, noColor)
  {
  }

  /** `buildChartAxis`: nine spaces, a dash per column, a newline and nine more spaces. */
  function Axis(dataPoints: nat, noColor: bool): string
  {
    "         " + Color(Blue, Repeat('-', dataPoints), noColor) + "\n         "
  }

  /** Without colour a row shows its cells as they are. */
  lemma {:induction false} PlainSymbols(ys: seq<int>, r: int, n: nat, stockColor: string)
    requires n <= |ys|
    ensures |Symbols(ys, r, n, stockColor, true)| == n
    ensures forall c :: 0 <= c < n ==> Symbols(ys, r, n, stockColor, true)[c] == Cell(ys, r, c)
  {
    if n > 0 {
      PlainSymbols(ys, r, n - 1, stockColor);
    }
  }

  /** Without colour the axis is nine spaces, one dash per column, newline, nine spaces. */
  lemma PlainAxis(dataPoints: nat)
    ensures var a := Axis(dataPoints, true);
      |a| == dataPoints + 19 && a[9 + dataPoints] == '\n'
      && (forall i :: 0 <= i < 9 ==> a[i] == ' ')
      && (forall i :: 9 <= i < 9 + dataPoints ==> a[i] == '-')
      && (forall i :: 10 + dataPoints <= i < 19 + dataPoints ==> a[i] == ' ')
  {
  }

  // ---------------------------------------------------------------------
  // Time marks
  // ---------------------------------------------------------------------

  /** One step of the time-mark loop: a mark in column `col`, or a space. */
  datatype Mark = Label(col: nat) | Gap(col: nat)

  /**
   * The steps of `buildTimeMarkers` from column `i`: a column that is a
   * multiple of the interval gets a mark and the loop skips past the
   * eight characters of the time; any other column gets a space.
   */
  function Plan(dataPoints: nat, interval: nat, i: nat): (p: seq<Mark>)
    requires interval >= 1
    ensures forall k :: 0 <= k < |p| ==> i <= p[k].col < dataPoints
    decreases dataPoints - i
  {
    if i >= dataPoints then []
    else if i % interval == 0 then [Label(i)] + Plan(dataPoints, interval, i + TimeWidth)
    else [Gap(i)] + Plan(dataPoints, interval, i + 1)
  }

  /**
   * The plan starts at column `i`, marks exactly the multiples of the
   * interval, and moves on by the width of a time after a mark and by one
   * column after a space.
   */
  lemma {:induction false} PlanShape(dataPoints: nat, interval: nat, i: nat)
    requires interval >= 1
    ensures var p := Plan(dataPoints, interval, i);
      (i < dataPoints ==> |p| > 0 && p[0].col == i)
      && (forall k :: 0 <= k < |p| ==> (p[k].Label? <==> p[k].col % interval == 0))
      && (forall k :: 0 < k < |p| ==> p[k].col == p[k - 1].col + (if p[k - 1].Label? then TimeWidth else 1))
    decreases dataPoints - i
  {
    if i < dataPoints {
      var next := if i % interval == 0 then i + TimeWidth else i + 1;
      PlanShape(dataPoints, interval, next);
      var p := Plan(dataPoints, interval, i);
      var rest := Plan(dataPoints, interval, next);
      assert p == [p[0]] + rest;
      forall k | 0 < k < |p|
        ensures p[k].col == p[k - 1].col + (if p[k - 1].Label? then TimeWidth else 1)
      {
        assert p[k] == rest[k - 1];
        if k > 1 {
          assert p[k - 1] == rest[k - 2];
        }
      }
    }
  }

  /** Two time marks never overlap, and the first column always has one. */
  lemma {:induction false} MarksDoNotOverlap(dataPoints: nat, interval: nat, j: nat, k: nat)
    requires interval >= 1
    requires var p := Plan(dataPoints, interval, 0); j < k < |p| && p[j].Label?
    ensures var p := Plan(dataPoints, interval, 0); p[k].col >= p[j].col + TimeWidth
    ensures dataPoints > 0 ==> Plan(dataPoints, interval, 0)[0].Label?
    decreases k - j
  {
    var p := Plan(dataPoints, interval, 0);
    PlanShape(dataPoints, interval, 0);
    if k > j + 1 {
      MarksDoNotOverlap(dataPoints, interval, j, k - 1);
      assert p[k].col > p[k - 1].col;
    }
  }

  /** The `HH:mm:ss` stamps of the samples behind the last `dataPoints` columns. */
  function WindowStamps(times: seq<LocalDateTime>, dataPoints: nat): (stamps: seq<string>)
    requires dataPoints <= |times|
    ensures |stamps| == dataPoints
  {
    seq(dataPoints, c requires 0 <= c < dataPoints => Hms(times[|times| - dataPoints + c]))
  }

  /**
   * `stamps` holds the stamp of every shown sample; as with `LabelsFor`,
   * the quantifier fires only where a stamp is spelled out.
   */
  predicate StampsFor(stamps: seq<string>, times: seq<LocalDateTime>, dataPoints: nat)
  {
    dataPoints <= |times| && |stamps| == dataPoints
    && forall k {:trigger Hms(times[k])} :: |times| - dataPoints <= k < |times| ==>
         stamps[k - (|times| - dataPoints)] == Hms(times[k])
  }

  lemma WindowStampsAreStamps(times: seq<LocalDateTime>, dataPoints: nat)
    requires dataPoints <= |times|
    ensures StampsFor(WindowStamps(times, dataPoints), times, dataPoints)
  {
  }

  /** The text of one step: a yellow bar and the blue time, or a space. */
  function MarkText(m: Mark, stamps: seq<string>, noColor: bool): string
    requires m.col < |stamps|
  {
    match m
    case Label(c) => Color(Yellow, "|", noColor) + Color(Blue, stamps[c], noColor)
    case Gap(_) => " "
  }

  function Render(marks: seq<Mark>, stamps: seq<string>, noColor: bool): string
    requires forall k :: 0 <= k < |marks| ==> marks[k].col < |stamps|
  {
    if marks == [] then ""
    else MarkText(marks[0], stamps, noColor) + Render(marks[1..], stamps, noColor)
  }

  /** `Math.max(1, dataPoints / 5)`: about five marks across the chart. */
  function MarkInterval(dataPoints: nat): (interval: nat)
    ensures interval >= 1
  {
    Max(1, dataPoints / 5)
  }

  /** `buildTimeMarkers`, for the stamps of the shown samples. */
  function Markers(stamps: seq<string>, noColor: bool): string
  {
    Render(Plan(|stamps|, MarkInterval(|stamps|), 0), stamps, noColor)
  }

  /** A column that is a multiple of the interval: the mark, then the columns past the time. */
  lemma RenderLabelStep(prefix: string, interval: nat, i: nat, stamps: seq<string>, noColor: bool)
    requires interval >= 1 && i < |stamps| && i % interval == 0
    ensures prefix + Render(Plan(|stamps|, interval, i), stamps, noColor)
      == prefix + MarkText(Label(i), stamps, noColor) + Render(Plan(|stamps|, interval, i + TimeWidth), stamps, noColor)
  {
    var p := Plan(|stamps|, interval, i);
    assert p[1..] == Plan(|stamps|, interval, i + TimeWidth);
    var rest := Render(Plan(|stamps|, interval, i + TimeWidth), stamps, noColor);
    AppendAssoc(prefix, MarkText(Label(i), stamps, noColor), rest);
  }

  /** Any other column: a space, then the next column. */
  lemma RenderGapStep(prefix: string, interval: nat, i: nat, stamps: seq<string>, noColor: bool)
    requires interval >= 1 && i < |stamps| && i % interval != 0
    ensures prefix + Render(Plan(|stamps|, interval, i), stamps, noColor)
      == prefix + " " + Render(Plan(|stamps|, interval, i + 1), stamps, noColor)
  {
    var p := Plan(|stamps|, interval, i);
    assert p[1..] == Plan(|stamps|, interval, i + 1);
    AppendAssoc(prefix, " ", Render(Plan(|stamps|, interval, i + 1), stamps, noColor));
  }

  // ---------------------------------------------------------------------
  // The whole chart
  // ---------------------------------------------------------------------

  /**
   * `buildChartString`: the body, the axis and the time marks of a chart
   * of `dataPoints` columns.
   */
  function ChartText(prices: seq<real>, times: seq<LocalDateTime>, dataPoints: nat, stockColor: string, noColor: bool): string
    requires |prices| > 0 && dataPoints <= |prices| && dataPoints <= |times|
  {
    var lo := SeqMin(prices);
    var range := Spread(prices);
    var ys := Ys(Window(prices, dataPoints), lo, range);
    Body(ys, RowLabels(lo, range, noColor), stockColor, noColor) + Axis(dataPoints, noColor)
      + Markers(WindowStamps(times, dataPoints), noColor)
  }

  /** What `generateChart(prices, times)` returns or throws. */
  function ChartOutcome(prices: seq<real>, times: seq<LocalDateTime>, terminalWidth: int, stockColor: string, noColor: bool): ChartResult
  {
    if |prices| < 2 then Rendered(Collecting)
    else
      var dp := DataPoints(|prices|, terminalWidth);
      if dp < 0 then NegativeArraySize
      else if dp > 0 && |times| < dp then IndexOutOfBounds
      else Rendered(ChartText(prices, times, dp, stockColor, noColor))
  }

  /** Whatever the body and the marks, the axis line ends the second-to-last line. */
  lemma NewlineAfterAxis(body: string, dataPoints: nat, noColor: bool, marks: string)
    ensures '\n' in body + Axis(dataPoints, noColor) + marks
  {
    var colored := Color(Blue, Repeat('-', dataPoints), noColor);
    var text := body + Axis(dataPoints, noColor) + marks;
    assert text[|body| + 9 + |colored|] == '\n';
  }

  /** A drawn chart holds at least one newline. */
  lemma ChartTextHasNewline(prices: seq<real>, times: seq<LocalDateTime>, dataPoints: nat, stockColor: string, noColor: bool)
    requires |prices| > 0 && dataPoints <= |prices| && dataPoints <= |times|
    ensures '\n' in ChartText(prices, times, dataPoints, stockColor, noColor)
  {
    var lo := SeqMin(prices);
    var range := Spread(prices);
    var ys := Ys(Window(prices, dataPoints), lo, range);
    NewlineAfterAxis(Body(ys, RowLabels(lo, range, noColor), stockColor, noColor), dataPoints, noColor,
      Markers(WindowStamps(times, dataPoints), noColor));
  }

  lemma PlaceholderIsOneLine()
    ensures '\n' !in Collecting
  {
  }

  /**
   * The placeholder is shown exactly when fewer than two prices are
   * known: a drawn chart always holds the newline after its axis.
   */
  lemma CollectingIffTooFewPrices(prices: seq<real>, times: seq<LocalDateTime>, terminalWidth: int, stockColor: string, noColor: bool)
    ensures ChartOutcome(prices, times, terminalWidth, stockColor, noColor) == Rendered(Collecting)
      <==> |prices| < 2
  {
    if |prices| >= 2 {
      var dp := DataPoints(|prices|, terminalWidth);
      if 0 <= dp && (dp == 0 || dp <= |times|) {
        ChartTextHasNewline(prices, times, dp, stockColor, noColor);
        PlaceholderIsOneLine();
      }
    }
  }

  /** The exceptions: no room for any column, or fewer timestamps than columns. */
  lemma ChartErrors(prices: seq<real>, times: seq<LocalDateTime>, terminalWidth: int, stockColor: string, noColor: bool)
    ensures var r := ChartOutcome(prices, times, terminalWidth, stockColor, noColor);
      (r == NegativeArraySize <==> |prices| >= 2 && terminalWidth < LabelMargin)
      && (r == IndexOutOfBounds <==>
            |prices| >= 2 && terminalWidth > LabelMargin && |times| < DataPoints(|prices|, terminalWidth))
  {
  }

  // ---------------------------------------------------------------------
  // The service object
  // ---------------------------------------------------------------------

  class ChartService {
    const terminalWidth: int
    const stockColor: string
    const noColor: bool

    constructor (terminalWidth: int, stockColor: string, noColor: bool)
      ensures this.terminalWidth == terminalWidth && this.stockColor == stockColor && this.noColor == noColor
    {
      this.terminalWidth := terminalWidth;
      this.stockColor := stockColor;
      this.noColor := noColor;
    }

    /** `generateChart(priceHistory, timeHistory)`. */
    method GenerateChart(prices: seq<real>, times: seq<LocalDateTime>) returns (r: ChartResult)
      ensures r == ChartOutcome(prices, times, terminalWidth, stockColor, noColor)
    {
      if |prices| < 2 {
        return Rendered(Collecting);
      }
      var lo := SeqMin(prices);
      var hi := SeqMax(prices);
      var range := hi - lo;
      var chartWidth := terminalWidth - LabelMargin;
      var dataPoints := Min(|prices|, chartWidth);
      if dataPoints < 0 {
        return NegativeArraySize;
      }
      var grid := InitializeChartGrid(dataPoints);
      PlotChartPoints(grid, dataPoints, prices, lo, range);
      r := BuildChartString(grid, dataPoints, prices, lo, range, times);
    }

    /**
     * `buildChartString`: body, axis, then the time marks; the first mark
     * reads the timestamp of the oldest shown sample, which is missing
     * when there are fewer timestamps than columns.
     */
    method BuildChartString(grid: array2<char>, dataPoints: nat, prices: seq<real>, lo: real, range: real, times: seq<LocalDateTime>)
      returns (r: ChartResult)
      requires |prices| > 0 && dataPoints <= |prices| && lo == SeqMin(prices) && range == Spread(prices)
      requires Painted(grid, Ys(Window(prices, dataPoints), lo, range))
      ensures dataPoints > 0 && |times| < dataPoints ==> r == IndexOutOfBounds
      ensures dataPoints == 0 || dataPoints <= |times| ==> r == Rendered(ChartText(prices, times, dataPoints, stockColor, noColor))
    {
      ghost var ys := Ys(Window(prices, dataPoints), lo, range);
      ghost var labels := RowLabels(lo, range, noColor);
      RowLabelsAreLabels(lo, range, noColor);
      var body := BuildChartBody(grid, dataPoints, lo, range, ys, labels);
      var axis := BuildChartAxis(dataPoints);
      if dataPoints > 0 && |times| < dataPoints {
        return IndexOutOfBounds;
      }
      ghost var stamps := WindowStamps(times, dataPoints);
      WindowStampsAreStamps(times, dataPoints);
      var marks := BuildTimeMarkers(dataPoints, times, stamps);
      r := Rendered(body + axis + marks);
    }

    /** `initializeChartGrid`: a 10 x dataPoints grid of spaces. */
    method InitializeChartGrid(dataPoints: nat) returns (grid: array2<char>)
      ensures fresh(grid)
      ensures grid.Length0 == ChartHeight && grid.Length1 == dataPoints
      ensures forall r, c :: 0 <= r < ChartHeight && 0 <= c < dataPoints ==> grid[r, c] == Blank
    {
      grid := new char[ChartHeight, dataPoints];
      var i := 0;
      while i < ChartHeight
        invariant 0 <= i <= ChartHeight
        invariant forall r, c :: 0 <= r < i && 0 <= c < dataPoints ==> grid[r, c] == Blank
      {
        var j := 0;
        while j < dataPoints
          invariant 0 <= j <= dataPoints
          invariant forall r, c :: 0 <= r < i && 0 <= c < dataPoints ==> grid[r, c] == Blank
          invariant forall c :: 0 <= c < j ==> grid[i, c] == Blank
        {
          grid[i, j] := Blank;
          j := j + 1;
        }
        i := i + 1;
      }
    }

    /**
     * `plotChartPoints`: column `i` gets the dot of the `i`-th shown price
     * and, from the second column on, the bar to the previous price's row.
     */
    method PlotChartPoints(grid: array2<char>, dataPoints: nat, prices: seq<real>, lo: real, range: real)
      requires grid.Length0 == ChartHeight && grid.Length1 == dataPoints <= |prices|
      requires range >= 0.0 && InRange(prices, lo, range)
      requires forall r, c :: 0 <= r < ChartHeight && 0 <= c < dataPoints ==> grid[r, c] == Blank
      modifies grid
      ensures forall r, c :: 0 <= r < ChartHeight && 0 <= c < dataPoints ==>
        grid[r, c] == Cell(Ys(Window(prices, dataPoints), lo, range), r, c)
    {
      ghost var ys := Ys(Window(prices, dataPoints), lo, range);
      var i := 0;
      while i < dataPoints
        invariant 0 <= i <= dataPoints
        invariant forall r, c :: 0 <= r < ChartHeight && 0 <= c < i ==> grid[r, c] == Cell(ys, r, c)
        invariant forall r, c :: 0 <= r < ChartHeight && i <= c < dataPoints ==> grid[r, c] == Blank
      {
        var historyIndex := |prices| - dataPoints + i;
        var price := prices[historyIndex];
        var y := RowFor(price, lo, range);
        RowForBounds(price, lo, range);
        assert ys[i] == y;
        if i > 0 {
          assert ys[i - 1] == RowFor(prices[historyIndex - 1], lo, range);
        }
        PlotColumn(grid, i, historyIndex, y, prices, lo, range, ys);
        i := i + 1;
      }
    }

    /** One pass of the loop of `plotChartPoints`: the dot of column `i`, then its bar. */
    method PlotColumn(grid: array2<char>, i: nat, historyIndex: nat, y: int, prices: seq<real>, lo: real, range: real, ghost ys: seq<int>)
      requires grid.Length0 == ChartHeight && i < grid.Length1 && i < |ys|
      requires historyIndex < |prices| && ys[i] == y && 0 <= y < ChartHeight
      requires i > 0 ==> 1 <= historyIndex && ys[i - 1] == RowFor(prices[historyIndex - 1], lo, range)
      requires range >= 0.0 && InRange(prices, lo, range)
      requires forall r :: 0 <= r < ChartHeight ==> grid[r, i] == Blank
      modifies grid
      ensures forall r :: 0 <= r < ChartHeight ==> grid[r, i] == Cell(ys, r, i)
      ensures forall r, c :: 0 <= r < ChartHeight && 0 <= c < grid.Length1 && c != i ==> grid[r, c] == old(grid[r, c])
    {
      grid[y, i] := Dot;
      if i > 0 {
        PlotTrendLine(grid, i, historyIndex, y, prices, lo, range);
      }
    }

    /**
     * `plotTrendLine`: the blank cells of column `i` from the previous
     * price's row to row `y` become bars; nothing else changes.
     */
    method PlotTrendLine(grid: array2<char>, i: nat, historyIndex: nat, y: int, prices: seq<real>, lo: real, range: real)
      requires grid.Length0 == ChartHeight && 0 < i < grid.Length1
      requires 1 <= historyIndex < |prices| && 0 <= y < ChartHeight
      requires range >= 0.0 && InRange(prices, lo, range)
      modifies grid
      ensures forall r :: 0 <= r < ChartHeight ==>
        grid[r, i] == (if old(grid[r, i]) == Blank && Between(r, RowFor(prices[historyIndex - 1], lo, range), y) then Bar else old(grid[r, i]))
      ensures forall r, c :: 0 <= r < ChartHeight && 0 <= c < grid.Length1 && c != i ==> grid[r, c] == old(grid[r, c])
    {
      var prevPrice := prices[historyIndex - 1];
      var prevY := RowFor(prevPrice, lo, range);
      RowForBounds(prevPrice, lo, range);
      var startY := Min(y, prevY);
      var endY := Max(y, prevY);
      var j := startY;
      while j <= endY
        invariant startY <= j <= endY + 1
        invariant forall r :: 0 <= r < ChartHeight ==>
          grid[r, i] == (if old(grid[r, i]) == Blank && startY <= r < j then Bar else old(grid[r, i]))
        invariant forall r, c :: 0 <= r < ChartHeight && 0 <= c < grid.Length1 && c != i ==> grid[r, c] == old(grid[r, c])
      {
        if grid[j, i] == Blank {
          grid[j, i] := Bar;
        }
        j := j + 1;
      }
    }

    /** `formatChartSymbol` as a member of the service: `ChartSymbol` at the service's own colour settings. */
    function FormatChartSymbol(c: char): (s: string)
      ensures s == ChartSymbol(c, stockColor, noColor)
    {
      if c == Dot || c == Bar then Color(stockColor, [c], noColor) else [c]
    }

    /** `buildChartBody`: rows 9 down to 0, each behind its price label. */
    method BuildChartBody(grid: array2<char>, dataPoints: nat, lo: real, range: real, ghost ys: seq<int>, ghost labels: seq<string>)
      returns (body: string)
      requires dataPoints == |ys| && Painted(grid, ys)
      requires LabelsFor(labels, lo, range, noColor)
      ensures body == Body(ys, labels, stockColor, noColor)
    {
      body := "";
      var i := ChartHeight as int - 1;
      while i >= 0
        invariant -1 <= i < ChartHeight
        invariant body == RowsDownTo(ys, i + 1, labels, stockColor, noColor)
      {
        var line := BuildChartRow(grid, dataPoints, i, lo, range, ys, labels);
        RowsDownToStep(ys, i, labels, stockColor, noColor);
        body := body + line;
        i := i - 1;
      }
      assert i + 1 == 0;
    }

    /** One pass of the outer loop of `buildChartBody`: the label, the formatted cells of row `i`, a newline. */
    method BuildChartRow(grid: array2<char>, dataPoints: nat, i: int, lo: real, range: real, ghost ys: seq<int>, ghost labels: seq<string>)
      returns (line: string)
      requires dataPoints == |ys| && Painted(grid, ys) && 0 <= i < ChartHeight
      requires LabelsFor(labels, lo, range, noColor)
      ensures line == RowLine(ys, i, labels[i], stockColor, noColor)
    {
      var rowLabel := FormatRowLabel(lo, range, i, labels);
      line := rowLabel;
      var j := 0;
      while j < dataPoints
        invariant 0 <= j <= dataPoints
        invariant line == rowLabel + Symbols(ys, i, j, stockColor, noColor)
      {
        SymbolsStep(rowLabel, ys, i, j, stockColor, noColor);
        line := line + FormatChartSymbol(grid[i, j]);
        j := j + 1;
      }
      assert j == dataPoints;
      line := line + "\n";
    }

    /** The label in front of row `i`: `%.0f` of the row's price, padded to eight, then ` |`, in blue. */
    method FormatRowLabel(lo: real, range: real, i: int, ghost labels: seq<string>) returns (rowLabel: string)
      requires LabelsFor(labels, lo, range, noColor) && 0 <= i < ChartHeight
      ensures rowLabel == labels[i]
    {
      var priceString := FormatNoDecimals(lo + range * i as real / (ChartHeight - 1) as real);
      rowLabel := Color(Blue, PadLeft(priceString, 8) + " |", noColor);
      assert rowLabel == RowLabel(lo, range, i, noColor);
    }

    /** `buildChartAxis`. */
    method BuildChartAxis(dataPoints: nat) returns (axis: string)
      ensures axis == Axis(dataPoints, noColor)
    {
      axis := "         " + Color(Blue, Repeat('-', dataPoints), noColor) + "\n         ";
    }

    /**
     * `buildTimeMarkers`: a mark for each column that is a multiple of the
     * interval, then a jump past the printed time; a space otherwise.
     */
    method BuildTimeMarkers(dataPoints: nat, times: seq<LocalDateTime>, ghost stamps: seq<string>) returns (marks: string)
      requires StampsFor(stamps, times, dataPoints)
      ensures marks == Markers(stamps, noColor)
    {
      var interval := Max(1, dataPoints / 5);
      marks := "";
      var i := 0;
      while i < dataPoints
        invariant 0 <= i && interval >= 1
        invariant marks + Render(Plan(dataPoints, interval, i), stamps, noColor) == Markers(stamps, noColor)
        decreases dataPoints - i
      {
        marks, i := MarkColumn(marks, interval, i, dataPoints, times, stamps);
      }
      assert Plan(dataPoints, interval, i) == [];
    }

    /**
     * One pass of the loop in `buildTimeMarkers` at column `i`: on a
     * multiple of the interval the time of the matching history entry is
     * appended and the loop moves past it (`i += time.length() - 1`, then
     * `i++`); otherwise a space is appended and the loop moves on by one.
     */
    method MarkColumn(marks: string, interval: nat, i: nat, dataPoints: nat, times: seq<LocalDateTime>, ghost stamps: seq<string>)
      returns (extended: string, next: nat)
      requires StampsFor(stamps, times, dataPoints)
      requires interval >= 1 && i < dataPoints
      ensures next == if i % interval == 0 then i + TimeWidth else i + 1
      ensures extended + Render(Plan(dataPoints, interval, next), stamps, noColor)
        == marks + Render(Plan(dataPoints, interval, i), stamps, noColor)
    {
      if i % interval == 0 {
        var historyIndex := |times| - dataPoints + i;
        var time := Hms(times[historyIndex]);
        assert stamps[i] == time;
        RenderLabelStep(marks, interval, i, stamps, noColor);
        var mark := FormatTimeMark(time, i, stamps);
        extended := marks + mark;
        next := i + |time| - 1;
        next := next + 1;
      } else {
        RenderGapStep(marks, interval, i, stamps, noColor);
        extended := marks + " ";
        next := i + 1;
      }
    }

    /** One time mark: a yellow bar, then the time in blue. */
    method FormatTimeMark(time: string, ghost i: nat, ghost stamps: seq<string>) returns (mark: string)
      requires i < |stamps| && stamps[i] == time
      ensures mark == MarkText(Label(i), stamps, noColor)
    {
      mark := Color(Yellow, "|", noColor) + Color(Blue, time, noColor);
    }
  }
}
