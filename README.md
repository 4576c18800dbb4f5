# Stocker Pro dashboard page, modelled in Dafny

A model of the `Home` page component of the Stocker Pro stock dashboard
(`app/page.tsx`). The page keeps view state: the search text, the
displayed stocks, the news items, the suggestion list and a loading flag.
Three pieces of logic drive it:

- **Suggestions.** On every change of the search text, the page lists the
  watchlist symbols (`NVDA`, `NFLX`, `ADBE`, `INTC`, `ORCL`, `PYPL`) whose
  lower-cased form contains the lower-cased query. It lists nothing for
  an empty query.
- **Default load.** On first activation, the page fetches one quote per
  watchlist symbol and shows the records in watchlist order. Each record
  gets a 10-sample synthetic sparkline. The page then fetches the general
  news and keeps the first five items.
- **Search submit.** The page picks the explicit symbol, or else the
  query. If both are empty it does nothing. Otherwise it fetches the quote
  for the upper-cased symbol and puts the new record in front of the
  displayed list. It does not remove entries with the same symbol.

Files and modules:

- `ascii.dfy`, module `Ascii`: `toLowerCase`, `toUpperCase` and
  `includes`, with case mapping on ASCII letters only, plus their
  properties.
- `watchlist.dfy`, module `Watchlist`: the watchlist constant, the
  suggestion filter and what is proved about it.
- `home.dfy`, module `Home`: the records, the parts of the two workflows
  that are plain computation (`Promise.all` over the quote fetches,
  `slice(0, 5)`, the prepended record), and the `Dashboard` class. Its
  fields are the component's state hooks. Its methods are the keystroke,
  the default load and the search submit.

The network comes in as parameters:

- `gateway: string -> Outcome<Quote>` gives how the quote fetch for each
  requested symbol settles. The model therefore shows which symbol is
  requested: the verbatim watchlist entry on load, the upper-cased symbol
  on search.
- A value of type `Outcome<seq<NewsItem>>` gives how the news fetch
  settles.
- `Math.random()` is a parameter that supplies the draws.

Three consequences of the code worth noting:

- The query "n" suggests `INTC` as well as `NVDA` and `NFLX`, because
  "intc" contains an n (`Watchlist.SuggestionsForN`).
- Both fetches of the default load sit in one `try`. A failed quote batch
  therefore skips the news fetch, and neither collection changes
  (`Home.Dashboard.LoadDefaultData`).
- Search does not deduplicate, so a symbol can be shown twice. After a
  successful default load, a search for "nvda" shows NVDA exactly twice
  (`Home.SearchAfterLoadRepeatsSymbol`).

## Model

| member | source | states |
|---|---|---|
| `Ascii.Lower` | app/page.tsx:40 | `toLowerCase` keeps the length and lower-cases each character (ASCII letters only) |
| `Ascii.Upper` | app/page.tsx:86 | `toUpperCase` keeps the length and upper-cases each character (ASCII letters only) |
| `Ascii.CaseMappedLetters` | app/page.tsx:86 | a lower-cased string has no upper-case letter; an upper-cased one has no lower-case letter |
| `Ascii.CaseMappingAbsorbs` | app/page.tsx:40 | lower-casing cancels any earlier upper-casing; both case mappings are idempotent |
| `Ascii.IncludesIffOccurs` | app/page.tsx:40 | the left-to-right `includes` scan succeeds exactly when the query occurs at some position in the string |
| `Ascii.IncludesChar` | app/page.tsx:40 | a one-character query is included exactly when that character occurs in the string |
| `Ascii.Includes` | app/page.tsx:40 | `includes`: the empty query is included in every string, and a query longer than the string is never included |
| `Watchlist.DefaultStocksShape` | app/page.tsx:35 | the watchlist has six entries, pairwise different, each unchanged by upper-casing |
| `Watchlist.Matches` | app/page.tsx:40 | the filter callback: the empty query matches every symbol, and a matching query is no longer than the symbol |
| `Watchlist.Filter` | app/page.tsx:40 | the filter never returns more entries than the watchlist has |
| `Watchlist.FilterCounts` | app/page.tsx:40 | each matching symbol appears in the result as often as in the watchlist, each other symbol not at all |
| `Watchlist.FilterMembers` | app/page.tsx:40 | a symbol is in the filter's result iff it is in the watchlist and matches the query case-insensitively |
| `Watchlist.FilterSubsequence` | app/page.tsx:40 | the filter's result is a subsequence of the watchlist, so watchlist order is kept |
| `Watchlist.Suggestions` | app/page.tsx:38-42 | a symbol is suggested iff the query is non-empty, the symbol is on the watchlist and it contains the query case-insensitively |
| `Watchlist.SuggestionsOfEmptyQuery` | app/page.tsx:39 | the empty query gives the empty suggestion list |
| `Watchlist.SuggestionsInWatchlistOrder` | app/page.tsx:39-41 | suggestions are a subsequence of the watchlist, and each one matches the query |
| `Watchlist.FilterCaseInsensitive` | app/page.tsx:40 | queries with the same lower-cased form filter identically |
| `Watchlist.SuggestionsCaseInsensitive` | app/page.tsx:38-42 | queries that differ only in letter case give identical suggestion lists |
| `Watchlist.SuggestionsOfUpperCasedQuery` | app/page.tsx:40 | upper-casing the query does not change the suggestions |
| `Watchlist.MatchesOneChar` | app/page.tsx:40 | a one-letter query matches iff its lower-cased letter occurs in the lower-cased symbol |
| `Watchlist.FilterCons` | app/page.tsx:40 | the filter keeps the head entry exactly when it matches, then filters the rest |
| `Watchlist.FilterAppend` | app/page.tsx:40 | filtering a concatenation is the concatenation of the filtered parts |
| `Watchlist.MatchesLetter` | app/page.tsx:40 | a one-letter lower-case query matches iff the symbol holds that letter in lower or upper case |
| `Watchlist.MatchesForN` | app/page.tsx:35-40 | the query "n" matches the watchlist entry at position k iff k is 0, 1 or 3 (NVDA, NFLX, INTC) |
| `Watchlist.FilterForN` | app/page.tsx:35-40 | filtering the default watchlist by "n" gives NVDA, NFLX, INTC |
| `Watchlist.SuggestionsForN` | app/page.tsx:35-41 | "n" and "N" both suggest exactly NVDA, NFLX, INTC, in that order |
| `Home.Sparkline` | app/page.tsx:55 | a synthetic sparkline has exactly 10 samples |
| `Home.Record` | app/page.tsx:56 | `{ symbol: s, ...data, sparkline }` carries the given symbol, all five quote fields unchanged, and the sparkline synthesised from the current price |
| `Home.SparklineBounds` | app/page.tsx:55 | with draws in [0, 1), every sample lies in [c, c + 5) |
| `Home.QuoteBatch` | app/page.tsx:49-58 | the batch succeeds iff every symbol's fetch succeeds; then it has one record per symbol in input order, each built from that symbol's quote and carrying that symbol |
| `Home.DefaultBatchShape` | app/page.tsx:49-58 | a successful default batch has one entry per watchlist symbol, in watchlist order, each with a 10-sample sparkline |
| `Home.TopNews` | app/page.tsx:65 | `slice(0, 5)` gives a prefix of the batch of length min(5, batch length) |
| `Home.EffectiveSymbol` | app/page.tsx:77 | `symbol \|\| query`: a non-empty explicit symbol wins; an absent or empty one falls back to the query; the result is empty iff both are absent or empty |
| `Home.Prepended` | app/page.tsx:85-86 | the new list is one longer; its head is the record built from the quote under the upper-cased symbol (all quote fields, 10-sample sparkline); its tail is the old list unchanged |
| `Home.PrependedDuplicates` | app/page.tsx:86 | a search shows the searched symbol exactly once more than before (no deduplication) |
| `Home.CountSymbolAbsent` | app/page.tsx:86 | a list with no entry showing a symbol shows it zero times |
| `Home.DefaultBatchCountsNvdaOnce` | app/page.tsx:49-58 | a successful default load shows NVDA exactly once |
| `Home.SearchAfterLoadRepeatsSymbol` | app/page.tsx:86 | after a successful default load, searching "nvda" shows NVDA exactly twice |
| `Home.PrependedUpperCases` | app/page.tsx:86 | searching "aapl" puts a record with symbol "AAPL" first |
| `Home.Dashboard.constructor` | app/page.tsx:29-33 | initial view state: empty query, stocks, news and suggestions; not loading |
| `Home.Dashboard.SetQuery` | app/page.tsx:38-42 | typing sets the query and recomputes the suggestions from it; stocks, news and loading are untouched |
| `Home.Dashboard.LoadDefaultData` | app/page.tsx:45-74 | a failed quote batch leaves stocks and news unchanged; a successful one replaces stocks with the batch, then news with the first five fetched items if the news fetch succeeds; loading ends false; query and suggestions untouched |
| `Home.Dashboard.HandleSearch` | app/page.tsx:76-93 | an empty effective symbol changes nothing (loading included) and raises no alert; otherwise loading ends false, and the fetch for the upper-cased symbol either prepends its record (success) or keeps stocks and raises an alert (failure); query, suggestions and news untouched |

## Left out

- Rendering: the JSX markup, the styling classes, the `Combobox`
  wiring (including its `if (!value) return` guard before calling
  `handleSearch`) and the `toFixed` formatting (app/page.tsx:95-189). These
  are presentation over a UI library.
- Sparkline values: they are modelled as reals. Floating-point rounding of
  `data.c + Math.random()*5` is not modelled, and `Math.random()` is a
  parameter.
- Concurrency: the fetches inside `Promise.all` run concurrently, and the
  default load and a search can interleave. Because `handleSearch` spreads
  a stale `stocks` captured in its closure, a race between the two is
  possible. The model runs each operation start to finish, so it captures
  neither interleaving nor the stale closure. The quote batch's result
  order does not depend on completion order, which is what the model
  states. The intermediate `loading = true` state is not observable in a
  sequential model; only the final `false` is stated.
- The record spread `{ symbol: s, ...data, sparkline }` assumes the quote
  body has no `symbol` field. If it had one, the spread would override the
  requested symbol; `Quote` has no such field.
- The exact way a fetch fails (status, message) is not modelled. Only
  whether it throws is: it appears as `Failure`. `console.error` logging
  is left out. The alert shown on a failed search is modelled only as the
  `alerted` result of `HandleSearch`.
- `Home.Dashboard.HandleSearch`, `Home.Dashboard.LoadDefaultData`: an HTTP
  error status is not modelled. `fetch` (app/page.tsx:51-54, 81-84) does
  not reject on an error status, and `res.json()` then parses the gateway's
  error body. The page would then store or prepend a record without price
  fields and with a NaN sparkline, and raise no alert. `Quote` always
  carries five reals, so the model cannot represent that case. Its
  "failure means an alert and unchanged stocks" covers only rejected
  requests and unparsable bodies.
- The news fetch of the default load appears as a given outcome. The model
  does not expose it as a request: after a failed quote batch the outcome
  is simply ignored, which matches the fetch being skipped.
- `Ascii.Lower`, `Ascii.Upper`: map only ASCII letters. JavaScript's full
  Unicode case mapping is not modelled.
- The API routes `app/api/stock/route.js` and `app/api/news/route.js`,
  `lib/fetchStockData.ts` and `types/react-sparklines.d.ts` are not part of
  this model. They are single-call HTTP forwarders and type declarations.
