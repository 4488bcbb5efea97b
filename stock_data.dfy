/**
 * StockDataService: the bounded price history (prices and timestamps kept
 * in two parallel lists of at most 30 entries, evicted from the head), the
 * one-shot clear on the first real sample, the price colour, and the
 * `:IDX` normalisation of symbols.
 */
module StockData {
  import opened Wrappers
  import opened JavaLang
  import opened Display
  import opened Calendar

  const MaxHistorySize: nat := 30
  const IdxSuffix: string := ":IDX"

  /** `symbol.endsWith(":IDX") ? symbol : symbol + ":IDX"`. */
  function NormalizeSymbol(symbol: string): (r: string)
    ensures EndsWith(r, IdxSuffix)
    ensures EndsWith(symbol, IdxSuffix) ==> r == symbol
    ensures !EndsWith(symbol, IdxSuffix) ==> r == symbol + IdxSuffix
  {
    EndsWithAppend(symbol, IdxSuffix);
    if EndsWith(symbol, IdxSuffix) then symbol else symbol + IdxSuffix
  }

  /** Normalising twice is normalising once. */
  lemma NormalizeSymbolIdempotent(symbol: string)
    ensures NormalizeSymbol(NormalizeSymbol(symbol)) == NormalizeSymbol(symbol)
  {
  }

  // ---------------------------------------------------------------------
  // The history as a value, and what one update does to it
  // ---------------------------------------------------------------------

  /** The fields of the service that one update reads and writes. */
  datatype History<T> = History(prices: seq<real>, times: seq<T>, hasRealData: bool, previousPrice: real)

  function EmptyHistory<T>(): History<T>
  {
    History([], [], false, 0.0)
  }

  /** The invariant the service keeps: parallel lists, at most 30 entries. */
  predicate Bounded<T>(h: History<T>)
  {
    |h.prices| == |h.times| <= MaxHistorySize
  }

  /** The one-shot clear fires on this update. */
  predicate ClearsOnUpdate<T>(h: History<T>)
  {
    !h.hasRealData && |h.prices| >= 2
  }

  /**
   * One `updatePriceHistory(price)` taken at time `at`: clear once on the
   * first real sample, append, evict the oldest entry past 30.
   */
  function Update<T>(h: History<T>, price: real, at: T): (r: History<T>)
    ensures r.previousPrice == price
    ensures r.hasRealData == (h.hasRealData || |h.prices| >= 2)
    ensures |h.prices| == |h.times| ==> |r.prices| == |r.times|
    ensures Bounded(h) ==> Bounded(r)
    ensures |r.prices| > 0 && r.prices[|r.prices| - 1] == price
    ensures |h.prices| == |h.times| ==> |r.times| > 0 && r.times[|r.times| - 1] == at
    ensures ClearsOnUpdate(h) ==> r.prices == [price] && r.times == [at]
    ensures !ClearsOnUpdate(h) ==> r.prices == h.prices[Evicted(|h.prices|)..] + [price]
    ensures !ClearsOnUpdate(h) && |h.prices| == |h.times| ==> r.times == h.times[Evicted(|h.prices|)..] + [at]
  {
    var base := if ClearsOnUpdate(h) then History([], [], true, h.previousPrice) else h;
    var prices, times := base.prices + [price], base.times + [at];
    if |prices| > MaxHistorySize then
      History(prices[1..], times[1..], base.hasRealData, price)
    else
      History(prices, times, base.hasRealData, price)
  }

  /** How many entries an append to a list of `n` pushes out of the front: one once the list is full. */
  function Evicted(n: nat): nat
  {
    if n >= MaxHistorySize then 1 else 0
  }

  datatype Sample<T> = Sample(price: real, at: T)

  /** The history after the given updates, oldest first. */
  function Run<T>(h: History<T>, samples: seq<Sample<T>>): History<T>
    decreases |samples|
  {
    if samples == [] then h
    else
      var last := samples[|samples| - 1];
      Update(Run(h, samples[..|samples| - 1]), last.price, last.at)
  }

  /** How many of the updates cleared the history. */
  function ClearCount<T>(h: History<T>, samples: seq<Sample<T>>): nat
    decreases |samples|
  {
    if samples == [] then 0
    else
      var before := Run(h, samples[..|samples| - 1]);
      ClearCount(h, samples[..|samples| - 1]) + (if ClearsOnUpdate(before) then 1 else 0)
  }

  /** The prices of the samples, oldest first. */
  function Prices<T>(samples: seq<Sample<T>>): (ps: seq<real>)
    ensures |ps| == |samples|
    ensures forall i :: 0 <= i < |samples| ==> ps[i] == samples[i].price
  {
    if samples == [] then [] else Prices(samples[..|samples| - 1]) + [samples[|samples| - 1].price]
  }

  /** The times of the samples, oldest first. */
  function Times<T>(samples: seq<Sample<T>>): (ts: seq<T>)
    ensures |ts| == |samples|
    ensures forall i :: 0 <= i < |samples| ==> ts[i] == samples[i].at
  {
    if samples == [] then [] else Times(samples[..|samples| - 1]) + [samples[|samples| - 1].at]
  }

  /** Every sequence of updates keeps the lists parallel and at most 30 long. */
  lemma {:induction false} RunBounded<T>(h: History<T>, samples: seq<Sample<T>>)
    requires Bounded(h)
    ensures Bounded(Run(h, samples))
    decreases |samples|
  {
    if samples != [] {
      RunBounded(h, samples[..|samples| - 1]);
    }
  }

  /** Once real data has been seen, the flag is never reset. */
  lemma {:induction false} RealDataPersists<T>(h: History<T>, samples: seq<Sample<T>>)
    requires h.hasRealData
    ensures Run(h, samples).hasRealData
    decreases |samples|
  {
    if samples != [] {
      RealDataPersists(h, samples[..|samples| - 1]);
    }
  }

  /**
   * The clear fires at most once over any run, and not at all once real
   * data has been seen; when it has fired, the flag is set.
   */
  lemma {:induction false} ClearsAtMostOnce<T>(h: History<T>, samples: seq<Sample<T>>)
    ensures ClearCount(h, samples) <= (if !h.hasRealData && Run(h, samples).hasRealData then 1 else 0)
    decreases |samples|
  {
    if samples != [] {
      var prefix := samples[..|samples| - 1];
      ClearsAtMostOnce(h, prefix);
      if h.hasRealData {
        RealDataPersists(h, prefix);
      }
    }
  }

  /**
   * From the empty history (the state at process start): the first two
   * updates append, the third clears and leaves only its own sample, and
   * after n >= 3 updates the history holds exactly the last min(n - 2, 30)
   * samples, in order.
   */
  lemma {:induction false} RunFromEmpty<T>(samples: seq<Sample<T>>)
    ensures FromEmptyShape(Run(EmptyHistory(), samples), samples)
    decreases |samples|
  {
    if |samples| > 0 {
      RunFromEmpty(samples[..|samples| - 1]);
      StepShape(Run(EmptyHistory(), samples[..|samples| - 1]), samples);
    }
  }

  /** How many of the first `n` samples a history started from empty keeps. */
  function Kept(n: nat): (k: nat)
    ensures k <= n && k <= MaxHistorySize
  {
    if n <= 2 then n else Min(n - 2, MaxHistorySize)
  }

  /** The history holds the last min(n - 2, 30) samples of the n updates made from empty. */
  predicate FromEmptyShape<T(==)>(h: History<T>, samples: seq<Sample<T>>)
  {
    && h.hasRealData == (|samples| >= 3)
    && h.prices == Prices(samples)[|samples| - Kept(|samples|)..]
    && h.times == Times(samples)[|samples| - Kept(|samples|)..]
  }

  /** One more update keeps the shape of a history started from empty. */
  lemma StepShape<T>(h: History<T>, samples: seq<Sample<T>>)
    requires |samples| > 0 && FromEmptyShape(h, samples[..|samples| - 1])
    ensures FromEmptyShape(Update(h, samples[|samples| - 1].price, samples[|samples| - 1].at), samples)
  {
    if |samples| <= 2 {
      StepEarly(h, samples);
    } else if |samples| == 3 {
      StepClear(h, samples);
    } else {
      StepSliding(h, samples);
    }
  }

  /** The first two updates only append. */
  lemma StepEarly<T>(h: History<T>, samples: seq<Sample<T>>)
    requires 0 < |samples| <= 2 && FromEmptyShape(h, samples[..|samples| - 1])
    ensures FromEmptyShape(Update(h, samples[|samples| - 1].price, samples[|samples| - 1].at), samples)
  {
    assert Prices(samples)[0..] == Prices(samples);
    assert Times(samples)[0..] == Times(samples);
  }

  /** The third update clears, then appends its own sample. */
  lemma StepClear<T>(h: History<T>, samples: seq<Sample<T>>)
    requires |samples| == 3 && FromEmptyShape(h, samples[..2])
    ensures FromEmptyShape(Update(h, samples[2].price, samples[2].at), samples)
  {
    assert ClearsOnUpdate(h);
    assert Prices(samples)[2..] == [samples[2].price];
    assert Times(samples)[2..] == [samples[2].at];
  }

  /** From the fourth update on, the window of the last min(n - 2, 30) samples slides by one. */
  lemma StepSliding<T>(h: History<T>, samples: seq<Sample<T>>)
    requires |samples| >= 4 && FromEmptyShape(h, samples[..|samples| - 1])
    ensures FromEmptyShape(Update(h, samples[|samples| - 1].price, samples[|samples| - 1].at), samples)
  {
    var n := |samples|;
    var prefix := samples[..n - 1];
    var last := samples[n - 1];
    var k := Kept(n - 1);
    assert |prefix| == n - 1;
    var ps, ts := Prices(prefix), Times(prefix);
    SlideStep(h, ps, ts, last.price, last.at, k);
    var from := n - Kept(n);
    assert |ps| + 1 - Min(k + 1, MaxHistorySize) == from && |ts| + 1 - Min(k + 1, MaxHistorySize) == from;
    var r := Update(h, last.price, last.at);
    assert r.prices == (ps + [last.price])[from..] == Prices(samples)[from..];
    assert r.times == (ts + [last.at])[from..] == Times(samples)[from..];
  }

  /**
   * Past the clear, a history holding the last `k` of the values so far
   * holds the last `min(k + 1, 30)` after one more update.
   */
  lemma SlideStep<T>(h: History<T>, ps: seq<real>, ts: seq<T>, price: real, at: T, k: nat)
    requires h.hasRealData && k <= |ps| && k <= |ts| && k <= MaxHistorySize
    requires h.prices == ps[|ps| - k..] && h.times == ts[|ts| - k..]
    ensures Update(h, price, at).hasRealData
    ensures Update(h, price, at).prices == (ps + [price])[|ps| + 1 - Min(k + 1, MaxHistorySize)..]
    ensures Update(h, price, at).times == (ts + [at])[|ts| + 1 - Min(k + 1, MaxHistorySize)..]
  {
    assert !ClearsOnUpdate(h);
    WindowStep(ps, price, k);
    WindowStep(ts, at, k);
  }

  /** Appending to the last k elements, dropping the head at 30, keeps the last min(k + 1, 30). */
  lemma {:induction false} WindowStep<T>(xs: seq<T>, x: T, k: nat)
    requires k <= |xs| && k <= MaxHistorySize
    ensures xs[|xs| - k..][Evicted(k)..] + [x]
      == (xs + [x])[|xs| + 1 - Min(k + 1, MaxHistorySize)..]
  {
  }

  /** The third update from the start leaves exactly the third sample. */
  lemma ThirdUpdateClears<T>(a: Sample<T>, b: Sample<T>, c: Sample<T>)
    ensures Run(EmptyHistory(), [a, b, c]).prices == [c.price]
    ensures Run(EmptyHistory(), [a, b]).prices == [a.price, b.price]
  {
    assert [a, b, c][..2] == [a, b] && [a, b][..1] == [a];
    RunFromEmpty([a, b, c]);
    RunFromEmpty([a, b]);
    assert Prices([a, b, c])[2..] == [c.price];
    assert Prices([a, b]) == [a.price, b.price];
  }

  // ---------------------------------------------------------------------
  // The service object
  // ---------------------------------------------------------------------

  /** The page scraped for a symbol: the last price and the change text. */
  datatype Quote = Quote(price: real, change: string)

  class StockDataService {
    var priceHistory: seq<real>
    var timeHistory: seq<LocalDateTime>
    var previousPrice: real
    var hasRealData: bool
    const noColor: bool

    function State(): History<LocalDateTime>
      reads this
    {
      History(priceHistory, timeHistory, hasRealData, previousPrice)
    }

    ghost predicate Valid()
      reads this
    {
      Bounded(State())
    }

    constructor (noColor: bool)
      ensures Valid() && State() == EmptyHistory() && this.noColor == noColor
    {
      priceHistory := [];
      timeHistory := [];
      previousPrice := 0.0;
      hasRealData := false;
      this.noColor := noColor;
    }

    /**
     * `fetchStockData`: look up the normalised symbol; when the page is
     * found, record its price. `page` stands for the HTTP fetch and the
     * scraping of the price and change elements; `at` for `LocalDateTime.now()`.
     */
    method FetchStockData(symbol: string, page: string -> Option<Quote>, at: LocalDateTime)
      returns (r: Option<Quote>)
      requires Valid()
      modifies this
      ensures Valid()
      ensures r == page(NormalizeSymbol(symbol))
      ensures r.Some? ==> State() == Update(old(State()), r.value.price, at)
      ensures r.None? ==> State() == old(State())
    {
      var currentSymbol := if EndsWith(symbol, IdxSuffix) then symbol else symbol + IdxSuffix;
      r := page(currentSymbol);
      if r.Some? {
        UpdatePriceHistory(r.value.price, at);
      }
    }

    /** `updatePriceHistory(price)`, with `at` the value of `LocalDateTime.now()`. */
    method UpdatePriceHistory(price: real, at: LocalDateTime)
      requires Valid()
      modifies this
      ensures Valid()
      ensures State() == Update(old(State()), price, at)
    {
      if !hasRealData && |priceHistory| >= 2 {
        priceHistory := [];
        timeHistory := [];
        hasRealData := true;
      }
      priceHistory := priceHistory + [price];
      timeHistory := timeHistory + [at];
      if |priceHistory| > MaxHistorySize {
        priceHistory := priceHistory[1..];
        timeHistory := timeHistory[1..];
      }
      previousPrice := price;
    }

    /** RESET before any price was seen, else GREEN for up or flat, RED for down. */
    function DeterminePriceColor(currentPrice: real): (color: string)
      reads this
      ensures color == Reset <==> previousPrice == 0.0
      ensures previousPrice != 0.0 ==> (color == Green <==> currentPrice >= previousPrice)
      ensures previousPrice != 0.0 && currentPrice < previousPrice ==> color == Red
    {
      if previousPrice == 0.0 then Reset else if currentPrice >= previousPrice then Green else Red
    }

    /** The live price list (the source hands out the list object itself). */
    function GetPriceHistory(): (prices: seq<real>)
      reads this
      ensures prices == priceHistory
      ensures Valid() ==> |prices| <= MaxHistorySize
    {
      priceHistory
    }

    /** The live timestamp list, parallel to the price list. */
    function GetTimeHistory(): (times: seq<LocalDateTime>)
      reads this
      ensures times == timeHistory
      ensures Valid() ==> |times| == |priceHistory|
    {
      timeHistory
    }

    function HasEnoughData(): (enough: bool)
      reads this
      ensures enough <==> |priceHistory| >= 2
    {
      |priceHistory| >= 2
    }
  }
}
