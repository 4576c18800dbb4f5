/**
 * The `Home` page component: its records, the pure pieces of its two
 * workflows (the quote batch of the default load, the news truncation,
 * the record a search prepends) and the `Dashboard` class holding the
 * component's view state, whose methods are the default load, the search
 * submit and the keystroke that recomputes suggestions.
 *
 * A network request is a parameter: `gateway` says how the quote fetch for
 * each requested symbol settles, and a news outcome says how the news fetch
 * settles. `Math.random()` is a parameter as well.
 */
module Home {
  import opened Ascii
  import opened Watchlist

  datatype Option<T> = None | Some(value: T)

  /**
   * How a `fetch` followed by `res.json()` settles: resolved with a parsed
   * quote body, or thrown (a rejected request or an unparsable body).
   */
  datatype Outcome<T> = Success(data: T) | Failure

  /** The quote gateway's JSON body: current price, change, percent change, high, low. It has no `symbol` field. */
  datatype Quote = Quote(c: real, d: real, dp: real, h: real, l: real)

  /** A displayed stock: the requested symbol, the quote's fields and a synthetic sparkline. */
  datatype Stock = Stock(symbol: string, c: real, d: real, dp: real, h: real, l: real, sparkline: seq<real>)

  datatype NewsItem = NewsItem(headline: string, source: string, url: string, image: Option<string>)

  /** Number of samples in a synthetic sparkline. */
  const SparklineLength: nat := 10

  /** Width of the jitter added to the current price in each sample. */
  const SparklineSpread: real := 5.0

  /** Number of news items kept from the fetched batch. */
  const NewsLimit: nat := 5

  /**
   * `Array.from({ length: 10 }, () => c + Math.random() * 5)`, where
   * `random(i)` is the value the i-th `Math.random()` call returns.
   */
  function Sparkline(c: real, random: nat -> real): (r: seq<real>)
    ensures |r| == SparklineLength
  {
    seq(SparklineLength, i requires 0 <= i => c + random(i) * SparklineSpread)
  }

  /** When every draw lies in [0, 1), as `Math.random()` promises, each sample lies in [c, c + 5). */
  lemma SparklineBounds(c: real, random: nat -> real)
    requires forall i: nat :: 0.0 <= random(i) < 1.0
    ensures forall k :: 0 <= k < |Sparkline(c, random)| ==>
      c <= Sparkline(c, random)[k] < c + SparklineSpread
  {
    forall k | 0 <= k < |Sparkline(c, random)|
      ensures c <= Sparkline(c, random)[k] < c + SparklineSpread
    {
      assert Sparkline(c, random)[k] == c + random(k) * SparklineSpread;
    }
  }

  /** `{ symbol: s, ...data, sparkline }`: the quote's fields, with the given symbol and fresh sparkline. */
  function Record(symbol: string, q: Quote, random: nat -> real): (r: Stock)
    ensures r.symbol == symbol
    ensures r.c == q.c && r.d == q.d && r.dp == q.dp && r.h == q.h && r.l == q.l
    ensures r.sparkline == Sparkline(q.c, random)
  {
    Stock(symbol, q.c, q.d, q.dp, q.h, q.l, Sparkline(q.c, random))
  }

  /**
   * `Promise.all(symbols.map(fetch quote, build record))`: rejects when the
   * fetch for any one symbol does, and otherwise yields one record per
   * symbol in the order of `symbols`, whatever order the fetches settle in.
   * The record at position i draws its sparkline from `random(i)`.
   */
  function QuoteBatch(symbols: seq<string>, gateway: string -> Outcome<Quote>, random: nat -> nat -> real): (r: Outcome<seq<Stock>>)
    ensures r.Success? <==> forall i :: 0 <= i < |symbols| ==> gateway(symbols[i]).Success?
    ensures r.Success? ==> |r.data| == |symbols| && forall i :: 0 <= i < |symbols| ==>
      gateway(symbols[i]).Success? && r.data[i] == Record(symbols[i], gateway(symbols[i]).data, random(i))
    decreases |symbols|
  {
    if symbols == [] then Success([])
    else
      var n := |symbols| - 1;
      match QuoteBatch(symbols[..n], gateway, random)
      case Failure => Failure
      case Success(front) =>
        match gateway(symbols[n])
        case Failure => Failure
        case Success(q) => Success(front + [Record(symbols[n], q, random(n))])
  }

  /** A successful batch over the watchlist has one entry per symbol, in watchlist order, each with a 10-sample sparkline. */
  lemma DefaultBatchShape(gateway: string -> Outcome<Quote>, random: nat -> nat -> real)
    requires QuoteBatch(DefaultStocks, gateway, random).Success?
    ensures var batch := QuoteBatch(DefaultStocks, gateway, random).data;
      |batch| == |DefaultStocks| &&
      forall i :: 0 <= i < |batch| ==> batch[i].symbol == DefaultStocks[i] && |batch[i].sparkline| == SparklineLength
  {
  }

  /** `newsData.slice(0, 5)`: the batch's first five items, or all of it when shorter. */
  function TopNews(batch: seq<NewsItem>): (r: seq<NewsItem>)
    ensures r <= batch
    ensures |r| == if |batch| < NewsLimit then |batch| else NewsLimit
  {
    if |batch| <= NewsLimit then batch else batch[..NewsLimit]
  }

  /** `symbol || query`: an absent or empty argument falls back to the query. */
  function EffectiveSymbol(symbol: Option<string>, query: string): (s: string)
    ensures s == "" <==> (symbol.None? || symbol.value == "") && query == ""
    ensures symbol.Some? && symbol.value != "" ==> s == symbol.value
    ensures symbol.None? || symbol.value == "" ==> s == query
  {
    if symbol.Some? && symbol.value != "" then symbol.value else query
  }

  /** `[{ symbol: s.toUpperCase(), ...data, sparkline }, ...stocks]`. */
  function Prepended(stocks: seq<Stock>, s: string, q: Quote, random: nat -> real): (r: seq<Stock>)
    ensures |r| == |stocks| + 1
    ensures r[0] == Record(Upper(s), q, random)
    ensures r[0].symbol == Upper(s) && |r[0].sparkline| == SparklineLength
    ensures r[1..] == stocks
  {
    [Record(Upper(s), q, random)] + stocks
  }

  /** Number of entries in `stocks` that show `symbol`. */
  function CountSymbol(stocks: seq<Stock>, symbol: string): nat {
    if stocks == [] then 0
    else (if stocks[0].symbol == symbol then 1 else 0) + CountSymbol(stocks[1..], symbol)
  }

  /**
   * A search never coalesces: the searched symbol is shown once more than before,
   * so an entry already showing it is kept beside the new one.
   */
  lemma PrependedDuplicates(stocks: seq<Stock>, s: string, q: Quote, random: nat -> real)
    ensures CountSymbol(Prepended(stocks, s, q, random), Upper(s)) == CountSymbol(stocks, Upper(s)) + 1
  {
    var r := Prepended(stocks, s, q, random);
    assert r[1..] == stocks;
  }

  /** A list none of whose entries shows `symbol` counts it zero times. */
  lemma {:induction false} CountSymbolAbsent(stocks: seq<Stock>, symbol: string)
    requires forall i :: 0 <= i < |stocks| ==> stocks[i].symbol != symbol
    ensures CountSymbol(stocks, symbol) == 0
    decreases |stocks|
  {
    if stocks != [] {
      CountSymbolAbsent(stocks[1..], symbol);
    }
  }

  /** A successful default load shows NVDA exactly once. */
  lemma DefaultBatchCountsNvdaOnce(gateway: string -> Outcome<Quote>, random: nat -> nat -> real)
    requires QuoteBatch(DefaultStocks, gateway, random).Success?
    ensures CountSymbol(QuoteBatch(DefaultStocks, gateway, random).data, "NVDA") == 1
  {
    var batch := QuoteBatch(DefaultStocks, gateway, random).data;
    assert batch[0].symbol == "NVDA";
    assert forall i :: 0 <= i < |batch[1..]| ==> batch[1..][i].symbol == DefaultStocks[i + 1];
    CountSymbolAbsent(batch[1..], "NVDA");
  }

  /**
   * Symbols on display are not unique: after a successful default load,
   * a successful search for "nvda" shows NVDA exactly twice.
   */
  lemma SearchAfterLoadRepeatsSymbol(gateway: string -> Outcome<Quote>, random: nat -> nat -> real, q: Quote, draws: nat -> real)
    requires QuoteBatch(DefaultStocks, gateway, random).Success?
    ensures CountSymbol(Prepended(QuoteBatch(DefaultStocks, gateway, random).data, "nvda", q, draws), "NVDA") == 2
  {
    var batch := QuoteBatch(DefaultStocks, gateway, random).data;
    DefaultBatchCountsNvdaOnce(gateway, random);
    PrependedDuplicates(batch, "nvda", q, draws);
    assert Upper("nvda") == "NVDA";
  }

  /** Searching "aapl" shows "AAPL" first. */
  lemma PrependedUpperCases(stocks: seq<Stock>, q: Quote, random: nat -> real)
    ensures Prepended(stocks, "aapl", q, random)[0].symbol == "AAPL"
  {
    assert Upper("aapl") == "AAPL";
  }

  /** The view state of the page: `useState` hooks of the `Home` component. */
  class Dashboard {
    var query: string
    var stocks: seq<Stock>
    var news: seq<NewsItem>
    var suggestions: seq<string>
    var loading: bool

    /** The hooks' initial values. */
    constructor ()
      ensures query == "" && stocks == [] && news == [] && suggestions == [] && !loading
    {
      query := "";
      stocks := [];
      news := [];
      suggestions := [];
      loading := false;
    }

    /** Typing into the search box: `setQuery`, then the effect that recomputes the suggestions. */
    method SetQuery(q: string)
      modifies this
      ensures query == q && suggestions == Suggestions(q, DefaultStocks)
      ensures stocks == old(stocks) && news == old(news) && loading == old(loading)
    {
      query := q;
      suggestions := Suggestions(q, DefaultStocks);
    }

    /**
     * `loadDefaultData`: inside one `try`, fetch a quote per watchlist symbol
     * and replace `stocks`, then fetch the news and replace `news` with its
     * first five items. A failed quote fetch skips the news fetch; `loading`
     * is cleared in `finally`.
     */
    method LoadDefaultData(gateway: string -> Outcome<Quote>, random: nat -> nat -> real, newsFeed: Outcome<seq<NewsItem>>)
      modifies this
      ensures !loading
      ensures query == old(query) && suggestions == old(suggestions)
      ensures QuoteBatch(DefaultStocks, gateway, random).Failure? ==> stocks == old(stocks) && news == old(news)
      ensures QuoteBatch(DefaultStocks, gateway, random).Success? ==>
        stocks == QuoteBatch(DefaultStocks, gateway, random).data &&
        news == (if newsFeed.Success? then TopNews(newsFeed.data) else old(news))
    {
      loading := true;
      var batch := QuoteBatch(DefaultStocks, gateway, random);
      if batch.Success? {
        stocks := batch.data;
        if newsFeed.Success? {
          news := TopNews(newsFeed.data);
        }
      }
      loading := false;
    }

    /**
     * `handleSearch(symbol)`: with an empty effective symbol nothing happens;
     * otherwise fetch the quote for the upper-cased symbol and, on success,
     * prepend its record to `stocks`; on failure raise an alert and keep
     * `stocks`. `loading` is cleared in `finally`.
     */
    method HandleSearch(symbol: Option<string>, gateway: string -> Outcome<Quote>, random: nat -> real) returns (alerted: bool)
      modifies this
      ensures query == old(query) && suggestions == old(suggestions) && news == old(news)
      ensures EffectiveSymbol(symbol, old(query)) == "" ==>
        stocks == old(stocks) && loading == old(loading) && !alerted
      ensures EffectiveSymbol(symbol, old(query)) != "" ==> !loading
      ensures EffectiveSymbol(symbol, old(query)) != "" && gateway(Upper(EffectiveSymbol(symbol, old(query)))).Failure? ==>
        stocks == old(stocks) && alerted
      ensures EffectiveSymbol(symbol, old(query)) != "" && gateway(Upper(EffectiveSymbol(symbol, old(query)))).Success? ==>
        stocks == Prepended(old(stocks), EffectiveSymbol(symbol, old(query)),
                            gateway(Upper(EffectiveSymbol(symbol, old(query)))).data, random) &&
        !alerted
    {
      var s := EffectiveSymbol(symbol, query);
      alerted := false;
      if s == "" {
        return;
      }
      loading := true;
      match gateway(Upper(s)) {
        case Failure =>
          alerted := true;
        case Success(q) =>
          stocks := Prepended(stocks, s, q, random);
      }
      loading := false;
    }
  }
}
