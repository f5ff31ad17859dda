/** The stock search box: a case-insensitive substring filter over the catalog for the
    dropdown, an exact-symbol search on submit, and selection of a result. */
module StockSearch {
  import opened Common
  import opened Records
  import opened Ledger

  /** The dropdown's test: the lower-cased symbol or name contains the lower-cased term. */
  predicate Listed(stock: Stock, term: string) {
    Includes(ToLower(stock.symbol), ToLower(term)) || Includes(ToLower(stock.name), ToLower(term))
  }

  /** `filteredStocks`: the instruments the dropdown lists, in their original order. */
  function FilteredStocks(stocks: seq<Stock>, term: string): (r: seq<Stock>)
    ensures |r| <= |stocks|
    ensures forall s :: s in r <==> s in stocks && Listed(s, term)
  {
    if stocks == [] then []
    else if Listed(stocks[0], term) then [stocks[0]] + FilteredStocks(stocks[1..], term)
    else FilteredStocks(stocks[1..], term)
  }

  /** Filtering keeps the order: the listed part of `a + b` is that of `a`, then that of `b`. */
  lemma {:induction false} FilteredConcat(a: seq<Stock>, b: seq<Stock>, term: string)
    ensures FilteredStocks(a + b, term) == FilteredStocks(a, term) + FilteredStocks(b, term)
  {
    if a != [] {
      assert (a + b)[1..] == a[1..] + b;
      FilteredConcat(a[1..], b, term);
    } else {
      assert a + b == b;
    }
  }

  /** A list whose every entry is listed passes the filter unchanged. */
  lemma {:induction false} FilteredAll(stocks: seq<Stock>, term: string)
    requires forall i :: 0 <= i < |stocks| ==> Listed(stocks[i], term)
    ensures FilteredStocks(stocks, term) == stocks
  {
    if stocks != [] {
      FilteredAll(stocks[1..], term);
    }
  }

  /** An empty search box lists the whole catalog. */
  lemma EmptyTermListsAll(stocks: seq<Stock>)
    ensures FilteredStocks(stocks, []) == stocks
  {
    forall i | 0 <= i < |stocks|
      ensures Listed(stocks[i], [])
    {
      IncludesEmpty(ToLower(stocks[i].symbol));
    }
    FilteredAll(stocks, []);
  }

  /** The search box's state: the term, whether the dropdown shows, and the instrument
      last handed to the selection callback. */
  class SearchBox {
    var searchTerm: string
    var showResults: bool
    var selected: Option<Stock>

    constructor ()
      ensures searchTerm == [] && !showResults && selected.None?
    {
      searchTerm := [];
      showResults := false;
      selected := None;
    }

    /** Typing: the term is the new text, and the dropdown shows while it is non-empty. */
    method OnInput(value: string)
      modifies this`searchTerm, this`showResults
      ensures searchTerm == value && (showResults <==> value != [])
    {
      searchTerm := value;
      showResults := |value| > 0;
    }

    /** `handleSearch`: a term that trims to nothing does nothing; otherwise the catalog
        entry whose symbol equals the trimmed term ignoring case is selected and the box
        is reset, and without such an entry nothing changes. */
    method HandleSearch()
      modifies this`searchTerm, this`showResults, this`selected
      ensures var found := SearchStock(Trim(old(searchTerm)));
              if Trim(old(searchTerm)) != [] && found.Some? then
                selected == found && searchTerm == [] && !showResults
              else
                selected == old(selected) && searchTerm == old(searchTerm) && showResults == old(showResults)
    {
      var term := Trim(searchTerm);
      var stock := if term != [] then SearchStock(term) else None;
      if stock.Some? {
        selected := stock;
        searchTerm := [];
        showResults := false;
      }
    }

    /** `handleStockSelect`: the chosen entry is selected and the box is reset. */
    method HandleStockSelect(stock: Stock)
      modifies this`searchTerm, this`showResults, this`selected
      ensures selected == Some(stock) && searchTerm == [] && !showResults
    {
      selected := Some(stock);
      searchTerm := [];
      showResults := false;
    }
  }

  /** White space around a term, however much and of whatever kind, does not change what
      `handleSearch` looks up. */
  lemma PaddedTermTrimmed(pre: string, symbol: string, post: string)
    requires forall k :: 0 <= k < |pre| ==> IsWhite(pre[k])
    requires forall k :: 0 <= k < |post| ==> IsWhite(post[k])
    requires symbol != [] && !IsWhite(symbol[0]) && !IsWhite(symbol[|symbol| - 1])
    ensures Trim(pre + symbol + post) == symbol
  {
    assert pre + symbol + post == pre + (symbol + post);
    TrimStartSkipsAll(pre, symbol + post);
    assert TrimStart(symbol + post) == symbol + post;
    TrimEndSkipsAll(symbol, post);
  }
}
