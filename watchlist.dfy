/**
 * The fixed watchlist and the suggestion filter that runs on every
 * change of the search box: the watchlist entries whose lower-cased
 * symbol contains the lower-cased query, in watchlist order.
 */
module Watchlist {
  import opened Ascii

  /** The symbols loaded on first activation, in display order. */
  const DefaultStocks: seq<string> := ["NVDA", "NFLX", "ADBE", "INTC", "ORCL", "PYPL"]

  /** The filter's test: `symbol.toLowerCase().includes(query.toLowerCase())`. */
  predicate Matches(query: string, symbol: string)
    ensures query == "" ==> Matches(query, symbol)
    ensures Matches(query, symbol) ==> |query| <= |symbol|
  {
    Includes(Lower(symbol), Lower(query))
  }

  /** The watchlist has six entries, all different, each made of upper-case letters only. */
  lemma DefaultStocksShape()
    ensures |DefaultStocks| == 6
    ensures forall i, j :: 0 <= i < j < |DefaultStocks| ==> DefaultStocks[i] != DefaultStocks[j]
    ensures forall i :: 0 <= i < |DefaultStocks| ==> Upper(DefaultStocks[i]) == DefaultStocks[i]
  {
    forall i | 0 <= i < |DefaultStocks|
      ensures Upper(DefaultStocks[i]) == DefaultStocks[i]
    {
      var w := DefaultStocks[i];
      assert |w| == 4 && forall k :: 0 <= k < 4 ==> IsUpperLetter(w[k]);
      assert forall k :: 0 <= k < 4 ==> Upper(w)[k] == w[k];
    }
  }

  /** `watchlist.filter(s => Matches(query, s))`. */
  function Filter(query: string, watchlist: seq<string>): (r: seq<string>)
    ensures |r| <= |watchlist|
  {
    if watchlist == [] then []
    else if Matches(query, watchlist[0]) then [watchlist[0]] + Filter(query, watchlist[1..])
    else Filter(query, watchlist[1..])
  }

  /** The filter keeps exactly the watchlist entries that match. */
  lemma {:induction false} FilterMembers(query: string, watchlist: seq<string>)
    ensures forall x :: x in Filter(query, watchlist) <==> x in watchlist && Matches(query, x)
    decreases |watchlist|
  {
    if watchlist != [] {
      FilterMembers(query, watchlist[1..]);
      assert watchlist == [watchlist[0]] + watchlist[1..];
    }
  }

  /**
   * The filter keeps every matching entry as often as the watchlist holds it
   * and drops every other one, so nothing is merged or repeated.
   */
  lemma {:induction false} FilterCounts(query: string, watchlist: seq<string>, x: string)
    ensures multiset(Filter(query, watchlist))[x] == if Matches(query, x) then multiset(watchlist)[x] else 0
    decreases |watchlist|
  {
    if watchlist != [] {
      FilterCounts(query, watchlist[1..], x);
      assert watchlist == [watchlist[0]] + watchlist[1..];
      assert multiset(watchlist) == multiset([watchlist[0]]) + multiset(watchlist[1..]);
      if Matches(query, watchlist[0]) {
        var r := Filter(query, watchlist);
        assert r == [watchlist[0]] + Filter(query, watchlist[1..]);
        assert multiset(r) == multiset([watchlist[0]]) + multiset(Filter(query, watchlist[1..]));
      }
    }
  }

  /** The suggestion list for a query: nothing for the empty query, else the filter. */
  function Suggestions(query: string, watchlist: seq<string>): (r: seq<string>)
    ensures forall x :: x in r <==> query != "" && x in watchlist && Matches(query, x)
  {
    FilterMembers(query, watchlist);
    if query == "" then [] else Filter(query, watchlist)
  }

  /** `a` is `b` with some entries dropped and the rest kept in order. */
  ghost predicate IsSubsequence<T>(a: seq<T>, b: seq<T>)
    decreases |b|
  {
    a == [] || (b != [] && ((a[0] == b[0] && IsSubsequence(a[1..], b[1..])) || IsSubsequence(a, b[1..])))
  }

  lemma {:induction false} FilterSubsequence(query: string, watchlist: seq<string>)
    ensures IsSubsequence(Filter(query, watchlist), watchlist)
    decreases |watchlist|
  {
    if watchlist != [] {
      FilterSubsequence(query, watchlist[1..]);
    }
  }

  /** The empty query suggests nothing. */
  lemma SuggestionsOfEmptyQuery(watchlist: seq<string>)
    ensures Suggestions("", watchlist) == []
  {
  }

  /** Suggestions keep the watchlist's order, and every suggestion matches the query. */
  lemma SuggestionsInWatchlistOrder(query: string, watchlist: seq<string>)
    ensures IsSubsequence(Suggestions(query, watchlist), watchlist)
    ensures forall i :: 0 <= i < |Suggestions(query, watchlist)| ==> Matches(query, Suggestions(query, watchlist)[i])
  {
    if query != "" {
      FilterSubsequence(query, watchlist);
    }
  }

  lemma {:induction false} FilterCaseInsensitive(q1: string, q2: string, watchlist: seq<string>)
    requires Lower(q1) == Lower(q2)
    ensures Filter(q1, watchlist) == Filter(q2, watchlist)
    decreases |watchlist|
  {
    if watchlist != [] {
      FilterCaseInsensitive(q1, q2, watchlist[1..]);
    }
  }

  /** Queries that differ only in letter case give identical suggestions. */
  lemma SuggestionsCaseInsensitive(q1: string, q2: string, watchlist: seq<string>)
    requires Lower(q1) == Lower(q2)
    ensures Suggestions(q1, watchlist) == Suggestions(q2, watchlist)
  {
    assert |q1| == |Lower(q1)| == |Lower(q2)| == |q2|;
    FilterCaseInsensitive(q1, q2, watchlist);
  }

  /** In particular, upper-casing a query does not change its suggestions. */
  lemma SuggestionsOfUpperCasedQuery(query: string, watchlist: seq<string>)
    ensures Suggestions(Upper(query), watchlist) == Suggestions(query, watchlist)
  {
    CaseMappingAbsorbs(query);
    SuggestionsCaseInsensitive(Upper(query), query, watchlist);
  }

  /** One step of the filter: the head is kept exactly when it matches. */
  lemma FilterCons(q: string, x: string, rest: seq<string>)
    ensures Filter(q, [x] + rest) == if Matches(q, x) then [x] + Filter(q, rest) else Filter(q, rest)
  {
    assert ([x] + rest)[1..] == rest;
  }

  /** Filtering distributes over concatenation. */
  lemma {:induction false} FilterAppend(q: string, x: seq<string>, y: seq<string>)
    ensures Filter(q, x + y) == Filter(q, x) + Filter(q, y)
    decreases |x|
  {
    if x == [] {
      assert x + y == y;
    } else {
      assert (x + y)[0] == x[0] && (x + y)[1..] == x[1..] + y;
      FilterAppend(q, x[1..], y);
      if Matches(q, x[0]) {
        assert Filter(q, x + y) == [x[0]] + (Filter(q, x[1..]) + Filter(q, y));
      }
    }
  }

  /** Filtering three entries of which only the listed ones match. */
  lemma FilterOfThree(q: string, a: string, b: string, c: string)
    ensures Filter(q, [a, b, c]) ==
      (if Matches(q, a) then [a] else []) + (if Matches(q, b) then [b] else []) + (if Matches(q, c) then [c] else [])
  {
    FilterCons(q, c, []);
    FilterCons(q, b, [c]);
    assert [b] + [c] == [b, c];
    FilterCons(q, a, [b, c]);
    assert [a] + [b, c] == [a, b, c];
  }

  /** A one-letter query matches when its lower-cased letter occurs in the lower-cased symbol. */
  lemma MatchesOneChar(c: char, symbol: string)
    ensures Matches([c], symbol) <==> LowerChar(c) in Lower(symbol)
  {
    assert Lower([c]) == [LowerChar(c)];
    IncludesChar(Lower(symbol), LowerChar(c));
  }

  /** A one-letter lower-case query matches when the symbol holds that letter in either case. */
  lemma MatchesLetter(c: char, symbol: string)
    requires IsLowerLetter(c)
    ensures Matches([c], symbol) <==> c in symbol || UpperChar(c) in symbol
  {
    MatchesOneChar(c, symbol);
    var low := Lower(symbol);
    assert c in low <==> exists i :: 0 <= i < |symbol| && low[i] == c;
    assert forall i :: 0 <= i < |symbol| ==> (low[i] == c <==> symbol[i] == c || symbol[i] == UpperChar(c)) by {
      forall i | 0 <= i < |symbol| {
        LowerCharOnto(symbol[i], c);
      }
    }
  }

  /** The query "n" matches exactly the default symbols NVDA, NFLX and INTC. */
  lemma MatchesForN(k: nat)
    requires k < |DefaultStocks|
    ensures Matches("n", DefaultStocks[k]) <==> k == 0 || k == 1 || k == 3
  {
    assert UpperChar('n') == 'N';
    MatchesLetter('n', DefaultStocks[k]);
  }

  /** Filtering the first half of the default watchlist by "n". */
  lemma FilterFrontForN()
    ensures Filter("n", ["NVDA", "NFLX", "ADBE"]) == ["NVDA", "NFLX"]
  {
    MatchesForN(0);
    MatchesForN(1);
    MatchesForN(2);
    FilterOfThree("n", "NVDA", "NFLX", "ADBE");
  }

  /** Filtering the second half of the default watchlist by "n". */
  lemma FilterBackForN()
    ensures Filter("n", ["INTC", "ORCL", "PYPL"]) == ["INTC"]
  {
    MatchesForN(3);
    MatchesForN(4);
    MatchesForN(5);
    FilterOfThree("n", "INTC", "ORCL", "PYPL");
  }

  /** Filtering the default watchlist by "n" keeps NVDA, NFLX and INTC. */
  lemma FilterForN()
    ensures Filter("n", DefaultStocks) == ["NVDA", "NFLX", "INTC"]
  {
    var front, back := ["NVDA", "NFLX", "ADBE"], ["INTC", "ORCL", "PYPL"];
    assert DefaultStocks == front + back;
    FilterAppend("n", front, back);
    FilterFrontForN();
    FilterBackForN();
  }

  /** The query "n" (or "N") over the default watchlist: INTC matches too. */
  lemma SuggestionsForN()
    ensures Suggestions("n", DefaultStocks) == ["NVDA", "NFLX", "INTC"]
    ensures Suggestions("N", DefaultStocks) == ["NVDA", "NFLX", "INTC"]
  {
    FilterForN();
    SuggestionsOfUpperCasedQuery("n", DefaultStocks);
    assert Upper("n") == "N";
  }
}
