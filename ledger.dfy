/** The stock ledger (`contexts/stock-context.tsx`): the fixed instrument catalog and its
    case-insensitive search, and buy/sell bookkeeping over an ordered list of positions and
    a most-recent-first list of transactions, written through to the local store. */
module Ledger {
  import opened Common
  import opened Records

  // ---------------------------------------------------------------------------
  // The catalog and `searchStock`
  // ---------------------------------------------------------------------------

  /** `mockStocks`: the five instruments, in display order. */
  const Catalog: seq<Stock> := [
    Stock("AAPL", "Apple Inc.", 175.43, 2.15, 1.24),
    Stock("GOOGL", "Alphabet Inc.", 142.56, -1.23, -0.85),
    Stock("MSFT", "Microsoft Corp.", 378.85, 5.67, 1.52),
    Stock("TSLA", "Tesla Inc.", 248.42, -3.21, -1.27),
    Stock("AMZN", "Amazon.com Inc.", 145.86, 0.95, 0.66)
  ]

  /** The symbols `a` and `b` are equal ignoring ASCII case. */
  predicate SameSymbol(a: string, b: string) {
    ToLower(a) == ToLower(b)
  }

  /** `stocks.find(s => s.symbol.toLowerCase() === symbol.toLowerCase()) || null`: the first
      entry whose symbol matches ignoring case, and nothing only when no entry matches. */
  function FindIgnoringCase(stocks: seq<Stock>, symbol: string): (r: Option<Stock>)
    ensures r.Some? ==> exists i :: 0 <= i < |stocks| && stocks[i] == r.value
                          && SameSymbol(stocks[i].symbol, symbol)
                          && forall j :: 0 <= j < i ==> !SameSymbol(stocks[j].symbol, symbol)
    ensures r.None? <==> forall i :: 0 <= i < |stocks| ==> !SameSymbol(stocks[i].symbol, symbol)
  {
    if stocks == [] then None
    else if SameSymbol(stocks[0].symbol, symbol) then
      assert 0 < |stocks| && stocks[0] == stocks[0];
      Some(stocks[0])
    else
      var r := FindIgnoringCase(stocks[1..], symbol);
      if r.Some? then
        var i :| 0 <= i < |stocks[1..]| && stocks[1..][i] == r.value
                 && SameSymbol(stocks[1..][i].symbol, symbol)
                 && forall j :: 0 <= j < i ==> !SameSymbol(stocks[1..][j].symbol, symbol);
        assert stocks[i + 1] == r.value;
        r
      else
        r
  }

  /** `searchStock` over the catalog. */
  function SearchStock(symbol: string): Option<Stock> {
    FindIgnoringCase(Catalog, symbol)
  }

  /** The catalog has no two symbols that agree ignoring case. */
  lemma CatalogSymbolsDistinct()
    ensures forall i, j :: 0 <= i < j < |Catalog| ==> !SameSymbol(Catalog[i].symbol, Catalog[j].symbol)
  {
    assert ToLower("AAPL") == "aapl";
    assert ToLower("GOOGL") == "googl";
    assert ToLower("MSFT") == "msft";
    assert ToLower("TSLA") == "tsla";
    assert ToLower("AMZN") == "amzn";
  }

  /** Searching finds an instrument exactly when its symbol matches the query ignoring
      case, and then finds that instrument. */
  lemma SearchStockFinds(symbol: string, s: Stock)
    ensures SearchStock(symbol) == Some(s) <==> s in Catalog && SameSymbol(s.symbol, symbol)
  {
    CatalogSymbolsDistinct();
    if s in Catalog && SameSymbol(s.symbol, symbol) {
      var k :| 0 <= k < |Catalog| && Catalog[k] == s;
      var r := SearchStock(symbol);
      var i :| 0 <= i < |Catalog| && Catalog[i] == r.value && SameSymbol(Catalog[i].symbol, symbol)
               && forall j :: 0 <= j < i ==> !SameSymbol(Catalog[j].symbol, symbol);
      if i != k {
        assert SameSymbol(Catalog[i].symbol, Catalog[k].symbol);
        assert false;
      }
    }
  }

  /** Two example searches: "aapl" finds Apple Inc.; "ZZZZ" finds nothing. */
  lemma SearchExamples()
    ensures SearchStock("aapl") == Some(Catalog[0]) && Catalog[0].name == "Apple Inc."
    ensures SearchStock("ZZZZ") == None
  {
    assert ToLower("aapl") == "aapl" == ToLower("AAPL");
    SearchStockFinds("aapl", Catalog[0]);
    assert ToLower("ZZZZ") == "zzzz";
    assert ToLower("AAPL") == "aapl";
    assert ToLower("GOOGL") == "googl";
    assert ToLower("MSFT") == "msft";
    assert ToLower("TSLA") == "tsla";
    assert ToLower("AMZN") == "amzn";
  }

  // ---------------------------------------------------------------------------
  // Positions
  // ---------------------------------------------------------------------------

  /** `portfolio.find(p => p.symbol === symbol)`, as the index of the first match. */
  function IndexOfSymbol(ps: seq<Position>, symbol: string): (r: Option<nat>)
    ensures r.Some? ==> r.value < |ps| && ps[r.value].symbol == symbol
                        && forall j :: 0 <= j < r.value ==> ps[j].symbol != symbol
    ensures r.None? <==> forall j :: 0 <= j < |ps| ==> ps[j].symbol != symbol
  {
    if ps == [] then None
    else if ps[0].symbol == symbol then Some(0)
    else match IndexOfSymbol(ps[1..], symbol)
      case Some(i) => Some(i + 1)
      case None => None
  }

  /** The quantity held of `symbol`, 0 when there is no position
      (`existingPosition?.quantity || 0`). */
  function Held(ps: seq<Position>, symbol: string): int {
    match IndexOfSymbol(ps, symbol)
    case Some(i) => ps[i].quantity
    case None => 0
  }

  predicate UniqueSymbols(ps: seq<Position>) {
    forall i, j :: 0 <= i < j < |ps| ==> ps[i].symbol != ps[j].symbol
  }

  /** The ledger's invariant: one position per symbol, and only positive quantities. */
  predicate WellFormed(ps: seq<Position>) {
    UniqueSymbols(ps) && forall i :: 0 <= i < |ps| ==> ps[i].quantity > 0
  }

  /** With one position per symbol, a position's own symbol finds it. */
  lemma HeldAt(ps: seq<Position>, i: int)
    requires UniqueSymbols(ps) && 0 <= i < |ps|
    ensures IndexOfSymbol(ps, ps[i].symbol) == Some(i)
    ensures Held(ps, ps[i].symbol) == ps[i].quantity
  {
  }

  /** `portfolio.map(p => p.symbol === symbol ? replacement : p)` */
  function ReplaceSymbol(ps: seq<Position>, symbol: string, replacement: Position): (r: seq<Position>)
    ensures |r| == |ps|
  {
    if ps == [] then []
    else [if ps[0].symbol == symbol then replacement else ps[0]] + ReplaceSymbol(ps[1..], symbol, replacement)
  }

  /** `portfolio.filter(p => p.symbol !== symbol)` */
  function WithoutSymbol(ps: seq<Position>, symbol: string): seq<Position> {
    if ps == [] then []
    else (if ps[0].symbol == symbol then [] else [ps[0]]) + WithoutSymbol(ps[1..], symbol)
  }

  /** With one position per symbol, the `map` replaces exactly the position at `i`. */
  lemma {:induction false} ReplaceSymbolAt(ps: seq<Position>, symbol: string, replacement: Position, i: int)
    requires UniqueSymbols(ps) && 0 <= i < |ps| && ps[i].symbol == symbol
    ensures ReplaceSymbol(ps, symbol, replacement) == ps[i := replacement]
  {
    if i == 0 {
      ReplaceSymbolAbsent(ps[1..], symbol, replacement);
    } else {
      ReplaceSymbolAt(ps[1..], symbol, replacement, i - 1);
    }
  }

  lemma {:induction false} ReplaceSymbolAbsent(ps: seq<Position>, symbol: string, replacement: Position)
    requires forall j :: 0 <= j < |ps| ==> ps[j].symbol != symbol
    ensures ReplaceSymbol(ps, symbol, replacement) == ps
  {
    if ps != [] {
      ReplaceSymbolAbsent(ps[1..], symbol, replacement);
    }
  }

  /** With one position per symbol, the `filter` removes exactly the position at `i`. */
  lemma {:induction false} WithoutSymbolAt(ps: seq<Position>, symbol: string, i: int)
    requires UniqueSymbols(ps) && 0 <= i < |ps| && ps[i].symbol == symbol
    ensures WithoutSymbol(ps, symbol) == ps[..i] + ps[i + 1..]
  {
    if i == 0 {
      WithoutSymbolAbsent(ps[1..], symbol);
    } else {
      WithoutSymbolAt(ps[1..], symbol, i - 1);
      assert ps[1..][..i - 1] + ps[1..][i..] == ps[1..i] + ps[i + 1..];
      assert ps[..i] + ps[i + 1..] == [ps[0]] + (ps[1..i] + ps[i + 1..]);
    }
  }

  lemma {:induction false} WithoutSymbolAbsent(ps: seq<Position>, symbol: string)
    requires forall j :: 0 <= j < |ps| ==> ps[j].symbol != symbol
    ensures WithoutSymbol(ps, symbol) == ps
  {
    if ps != [] {
      WithoutSymbolAbsent(ps[1..], symbol);
    }
  }

  // ---------------------------------------------------------------------------
  // `buyStock` and `sellStock` on the position list
  // ---------------------------------------------------------------------------

  /** The quantity-weighted average price after adding `q` at `price` to `held` at `avg`. */
  function BlendedAverage(avg: real, held: int, price: real, q: int): real
    requires held + q != 0
  {
    (avg * held as real + price * q as real) / (held + q) as real
  }

  /** The positions after `buyStock(symbol, q, price)`: a held symbol gets quantity
      held + q, the weighted average price and `price` as current price, in place; an
      unheld symbol is appended at the end at `price`. Nothing else changes. */
  function Bought(ps: seq<Position>, symbol: string, q: int, price: real): (r: seq<Position>)
    requires WellFormed(ps) && q > 0
    ensures WellFormed(r)
    ensures IndexOfSymbol(ps, symbol).Some? ==>
              var i := IndexOfSymbol(ps, symbol).value;
              r == ps[i := Position(symbol, ps[i].quantity + q,
                                    BlendedAverage(ps[i].avgPrice, ps[i].quantity, price, q), price)]
    ensures IndexOfSymbol(ps, symbol).None? ==> r == ps + [Position(symbol, q, price, price)]
  {
    match IndexOfSymbol(ps, symbol)
    case Some(i) =>
      var existing := ps[i];
      var totalQuantity := existing.quantity + q;
      var newAvgPrice := (existing.avgPrice * existing.quantity as real + price * q as real) / totalQuantity as real;
      var updated := existing.(quantity := totalQuantity, avgPrice := newAvgPrice, currentPrice := price);
      assert updated == Position(symbol, ps[i].quantity + q,
                                 BlendedAverage(ps[i].avgPrice, ps[i].quantity, price, q), price);
      ReplaceSymbolAt(ps, symbol, updated, i);
      ReplaceSymbol(ps, symbol, updated)
    case None =>
      ps + [Position(symbol, q, price, price)]
  }

  /** The positions after `sellStock(symbol, q, price)`, or `None` when the guard drops the
      sell because less than `q` is held (no position counts as 0). Selling everything
      removes the position; a partial sell lowers the quantity and sets the current price,
      keeping the average price. Nothing else changes. */
  function Sold(ps: seq<Position>, symbol: string, q: int, price: real): (r: Option<seq<Position>>)
    requires WellFormed(ps) && q > 0
    ensures r.None? <==> Held(ps, symbol) < q
    ensures r.Some? ==> WellFormed(r.value)
    ensures r.Some? ==>
              var i := IndexOfSymbol(ps, symbol).value;
              if ps[i].quantity == q then r.value == ps[..i] + ps[i + 1..]
              else r.value == ps[i := Position(symbol, ps[i].quantity - q, ps[i].avgPrice, price)]
  {
    match IndexOfSymbol(ps, symbol)
    case None => None
    case Some(i) =>
      var existing := ps[i];
      if existing.quantity < q then None
      else
        var newQuantity := existing.quantity - q;
        if newQuantity == 0 then
          WithoutSymbolAt(ps, symbol, i);
          RemovedAt(ps, i);
          Some(WithoutSymbol(ps, symbol))
        else
          var updated := existing.(quantity := newQuantity, currentPrice := price);
          ReplaceSymbolAt(ps, symbol, updated, i);
          ReplacedAt(ps, i, updated);
          Some(ReplaceSymbol(ps, symbol, updated))
  }

  /** Removing one position keeps the list well formed and shifts the later ones down. */
  lemma RemovedAt(ps: seq<Position>, i: int)
    requires UniqueSymbols(ps) && 0 <= i < |ps|
    ensures var r := ps[..i] + ps[i + 1..];
            |r| == |ps| - 1 && forall j :: 0 <= j < |r| ==> r[j] == ps[if j < i then j else j + 1]
    ensures UniqueSymbols(ps[..i] + ps[i + 1..])
    ensures WellFormed(ps) ==> WellFormed(ps[..i] + ps[i + 1..])
  {
    var r := ps[..i] + ps[i + 1..];
    forall j | 0 <= j < |r| ensures r[j] == ps[if j < i then j else j + 1] {
      if j < i { assert r[j] == ps[..i][j]; } else { assert r[j] == ps[i + 1..][j - i]; }
    }
  }

  /** Replacing one position by one with the same symbol and a positive quantity keeps the
      list well formed. */
  lemma ReplacedAt(ps: seq<Position>, i: int, p: Position)
    requires WellFormed(ps) && 0 <= i < |ps| && p.symbol == ps[i].symbol && p.quantity > 0
    ensures WellFormed(ps[i := p])
  {
  }

  /** A buy adds `q` shares of its symbol and leaves every other holding as it was. */
  lemma HeldAfterBuy(ps: seq<Position>, symbol: string, q: int, price: real, s: string)
    requires WellFormed(ps) && q > 0
    ensures Held(Bought(ps, symbol, q, price), s) == Held(ps, s) + (if s == symbol then q else 0)
  {
    var r := Bought(ps, symbol, q, price);
    match IndexOfSymbol(ps, symbol)
    case Some(i) =>
      HeldAt(r, i);
      if s != symbol {
        match IndexOfSymbol(ps, s)
        case Some(j) => HeldAt(r, j);
        case None =>
      }
    case None =>
      HeldAt(r, |ps|);
      if s != symbol {
        match IndexOfSymbol(ps, s)
        case Some(j) => HeldAt(r, j);
        case None =>
      }
  }

  /** An accepted sell removes `q` shares of its symbol and leaves every other holding as
      it was. */
  lemma HeldAfterSell(ps: seq<Position>, symbol: string, q: int, price: real, s: string)
    requires WellFormed(ps) && q > 0 && Sold(ps, symbol, q, price).Some?
    ensures Held(Sold(ps, symbol, q, price).value, s) == Held(ps, s) - (if s == symbol then q else 0)
  {
    var r := Sold(ps, symbol, q, price).value;
    var i := IndexOfSymbol(ps, symbol).value;
    if ps[i].quantity == q {
      HeldAfterRemoval(ps, i, s);
    } else {
      HeldAt(r, i);
      if s != symbol {
        match IndexOfSymbol(ps, s)
        case Some(j) => HeldAt(r, j);
        case None =>
      }
    }
  }

  /** Removing the position at `i` zeroes its symbol's holding and keeps the others. */
  lemma HeldAfterRemoval(ps: seq<Position>, i: int, s: string)
    requires UniqueSymbols(ps) && 0 <= i < |ps|
    ensures UniqueSymbols(ps[..i] + ps[i + 1..])
    ensures Held(ps[..i] + ps[i + 1..], s) == if s == ps[i].symbol then 0 else Held(ps, s)
  {
    var r := ps[..i] + ps[i + 1..];
    RemovedAt(ps, i);
    if s != ps[i].symbol {
      match IndexOfSymbol(ps, s)
      case Some(j) =>
        var k := if j < i then j else j - 1;
        HeldAt(r, k);
      case None =>
    }
  }

  /** Buying a symbol not yet held and then selling the same quantity restores the
      positions exactly. */
  lemma BuyThenSellAll(ps: seq<Position>, symbol: string, q: int, buyPrice: real, sellPrice: real)
    requires WellFormed(ps) && q > 0 && IndexOfSymbol(ps, symbol).None?
    ensures Sold(Bought(ps, symbol, q, buyPrice), symbol, q, sellPrice) == Some(ps)
  {
    var r := Bought(ps, symbol, q, buyPrice);
    HeldAt(r, |ps|);
    assert r[..|ps|] + r[|ps| + 1..] == ps;
  }

  // ---------------------------------------------------------------------------
  // Repeated buys of one symbol
  // ---------------------------------------------------------------------------

  /** One buy: a quantity and its execution price. */
  datatype Fill = Fill(quantity: int, price: real)

  predicate PositiveFills(fills: seq<Fill>) {
    forall k :: 0 <= k < |fills| ==> fills[k].quantity > 0
  }

  /** The positions after buying each fill of `symbol` in turn, oldest first. */
  function BuyAll(ps: seq<Position>, symbol: string, fills: seq<Fill>): (r: seq<Position>)
    requires WellFormed(ps) && PositiveFills(fills)
    ensures WellFormed(r)
    decreases |fills|
  {
    if fills == [] then ps
    else
      var last := fills[|fills| - 1];
      Bought(BuyAll(ps, symbol, fills[..|fills| - 1]), symbol, last.quantity, last.price)
  }

  /** Σ quantity over the fills. */
  function FilledQuantity(fills: seq<Fill>): int {
    if fills == [] then 0 else FilledQuantity(fills[..|fills| - 1]) + fills[|fills| - 1].quantity
  }

  /** Σ quantity · price over the fills. */
  function FilledCost(fills: seq<Fill>): real {
    if fills == [] then 0.0
    else FilledCost(fills[..|fills| - 1]) + fills[|fills| - 1].quantity as real * fills[|fills| - 1].price
  }

  /** Starting with no position in `symbol`, a run of buys appends one position holding
      the total quantity at the quantity-weighted average price Σ(q·p)/Σq, priced at the
      last fill; every other position is untouched. */
  lemma {:induction false} RepeatedBuys(ps: seq<Position>, symbol: string, fills: seq<Fill>)
    requires WellFormed(ps) && IndexOfSymbol(ps, symbol).None?
    requires PositiveFills(fills) && fills != []
    ensures FilledQuantity(fills) > 0
    ensures BuyAll(ps, symbol, fills) == PooledPosition(ps, symbol, fills)
  {
    var init := fills[..|fills| - 1];
    assert PositiveFills(init);
    if init == [] {
      FirstFill(ps, symbol, fills);
    } else {
      RepeatedBuys(ps, symbol, init);
      NextFill(ps, symbol, fills);
    }
  }

  /** The positions with one position for `symbol` appended, holding all the fills at
      their pooled average price and priced at the last fill. */
  function PooledPosition(ps: seq<Position>, symbol: string, fills: seq<Fill>): seq<Position>
    requires fills != [] && FilledQuantity(fills) != 0
  {
    ps + [Position(symbol, FilledQuantity(fills), FilledCost(fills) / FilledQuantity(fills) as real,
                   fills[|fills| - 1].price)]
  }

  lemma {:induction false} FirstFill(ps: seq<Position>, symbol: string, fills: seq<Fill>)
    requires WellFormed(ps) && IndexOfSymbol(ps, symbol).None?
    requires PositiveFills(fills) && |fills| == 1
    ensures FilledQuantity(fills) > 0
    ensures BuyAll(ps, symbol, fills) == PooledPosition(ps, symbol, fills)
  {
    var last := fills[0];
    assert fills[..|fills| - 1] == [];
    assert FilledQuantity(fills) == last.quantity;
    assert FilledCost(fills) == last.quantity as real * last.price;
    FirstBuy(ps, symbol, last.quantity, last.price, FilledQuantity(fills), FilledCost(fills));
  }

  lemma {:induction false} NextFill(ps: seq<Position>, symbol: string, fills: seq<Fill>)
    requires WellFormed(ps) && IndexOfSymbol(ps, symbol).None?
    requires PositiveFills(fills) && |fills| > 1
    requires FilledQuantity(fills[..|fills| - 1]) > 0
    requires BuyAll(ps, symbol, fills[..|fills| - 1]) == PooledPosition(ps, symbol, fills[..|fills| - 1])
    ensures FilledQuantity(fills) > 0
    ensures BuyAll(ps, symbol, fills) == PooledPosition(ps, symbol, fills)
  {
    var init := fills[..|fills| - 1];
    var last := fills[|fills| - 1];
    var qty, cost, lastPrice := FilledQuantity(init), FilledCost(init), init[|init| - 1].price;
    assert PositiveFills(init);
    var prev := BuyAll(ps, symbol, init);
    assert prev == ps + [Position(symbol, qty, cost / qty as real, lastPrice)];
    LastTotals(fills);
    PooledStep(ps, symbol, fills, prev, qty, cost, lastPrice, FilledQuantity(fills), FilledCost(fills));
  }

  /** The totals of a run of fills are those of all but the last, plus the last. */
  lemma {:induction false} LastTotals(fills: seq<Fill>)
    requires fills != []
    ensures FilledQuantity(fills) == FilledQuantity(fills[..|fills| - 1]) + fills[|fills| - 1].quantity
    ensures FilledCost(fills) == FilledCost(fills[..|fills| - 1]) + fills[|fills| - 1].quantity as real * fills[|fills| - 1].price
  {
  }

  /** The step of `RepeatedBuys`, with the pooled position before the last fill and the
      totals after it named. */
  lemma {:induction false} PooledStep(ps: seq<Position>, symbol: string, fills: seq<Fill>, prev: seq<Position>,
                                      qty: int, cost: real, lastPrice: real, total: int, totalCost: real)
    requires WellFormed(ps) && IndexOfSymbol(ps, symbol).None? && qty > 0
    requires PositiveFills(fills) && fills != []
    requires prev == BuyAll(ps, symbol, fills[..|fills| - 1])
    requires prev == ps + [Position(symbol, qty, cost / qty as real, lastPrice)]
    requires total == qty + fills[|fills| - 1].quantity
    requires totalCost == cost + fills[|fills| - 1].quantity as real * fills[|fills| - 1].price
    ensures BuyAll(ps, symbol, fills) == ps + [Position(symbol, total, totalCost / total as real, fills[|fills| - 1].price)]
  {
    var last := fills[|fills| - 1];
    assert WellFormed(prev);
    BuyStep(ps, symbol, qty, cost, lastPrice, last.quantity, last.price, total, totalCost);
    assert BuyAll(ps, symbol, fills) == Bought(prev, symbol, last.quantity, last.price);
  }

  /** One more buy on top of a pooled position. */
  lemma BuyStep(ps: seq<Position>, symbol: string, qty: int, cost: real, lastPrice: real,
                q: int, price: real, newQty: int, newCost: real)
    requires WellFormed(ps) && IndexOfSymbol(ps, symbol).None? && qty > 0 && q > 0
    requires WellFormed(ps + [Position(symbol, qty, cost / qty as real, lastPrice)])
    requires newQty == qty + q && newCost == cost + q as real * price
    ensures Bought(ps + [Position(symbol, qty, cost / qty as real, lastPrice)], symbol, q, price)
            == ps + [Position(symbol, newQty, newCost / newQty as real, price)]
  {
    var avg := cost / qty as real;
    BoughtAtEnd(ps, Position(symbol, qty, avg, lastPrice), q, price);
    BlendOfAverage(cost, qty, price, q);
  }

  /** Buying the symbol of the last position updates that position in place. */
  lemma BoughtAtEnd(ps: seq<Position>, last: Position, q: int, price: real)
    requires WellFormed(ps + [last]) && last.quantity > 0 && q > 0
    ensures Bought(ps + [last], last.symbol, q, price)
            == ps + [Position(last.symbol, last.quantity + q,
                              BlendedAverage(last.avgPrice, last.quantity, price, q), price)]
  {
    var prev := ps + [last];
    HeldAt(prev, |ps|);
    assert prev[|ps| := Position(last.symbol, last.quantity + q,
                                 BlendedAverage(last.avgPrice, last.quantity, price, q), price)]
           == ps + [Position(last.symbol, last.quantity + q,
                             BlendedAverage(last.avgPrice, last.quantity, price, q), price)];
  }

  /** The first buy of a symbol opens a position at the fill price. */
  lemma FirstBuy(ps: seq<Position>, symbol: string, q: int, price: real, total: int, cost: real)
    requires WellFormed(ps) && IndexOfSymbol(ps, symbol).None? && q > 0
    requires total == q && cost == q as real * price
    ensures Bought(ps, symbol, q, price) == ps + [Position(symbol, total, cost / total as real, price)]
  {
    assert cost / total as real == price;
  }

  /** Blending into an average cost / qty gives the pooled average. */
  lemma BlendOfAverage(cost: real, qty: int, price: real, q: int)
    requires qty > 0 && q > 0
    ensures BlendedAverage(cost / qty as real, qty, price, q)
            == (cost + q as real * price) / (qty + q) as real
  {
    assert (cost / qty as real) * qty as real == cost;
  }

  // ---------------------------------------------------------------------------
  // The ledger state
  // ---------------------------------------------------------------------------

  /** The stock context: positions in order, transactions most recent first, and the
      store they are written through to. */
  class StockLedger {
    var portfolio: seq<Position>
    var transactions: seq<Transaction>
    const store: LocalStore

    /** Positions are well formed, and what the store holds (a missing key read as an
        empty list) is what the ledger holds. */
    ghost predicate Valid()
      reads this, store
    {
      WellFormed(portfolio)
      && store.portfolio.GetOr([]) == portfolio
      && store.transactions.GetOr([]) == transactions
    }

    /** The provider's start: the saved positions and transactions when the keys are
        present, otherwise empty lists. The saved positions are the ledger's own earlier
        writes, hence well formed. */
    constructor (store: LocalStore)
      requires store.portfolio.Some? ==> WellFormed(store.portfolio.value)
      ensures this.store == store && Valid()
      ensures portfolio == store.portfolio.GetOr([])
      ensures transactions == store.transactions.GetOr([])
    {
      this.store := store;
      portfolio := store.portfolio.GetOr([]);
      transactions := store.transactions.GetOr([]);
    }

    /** `buyStock`: update the positions, prepend a buy transaction, write both through. */
    method BuyStock(symbol: string, quantity: int, price: real, id: string, timestamp: int)
      requires Valid() && quantity > 0
      modifies this`portfolio, this`transactions, store`portfolio, store`transactions
      ensures Valid()
      ensures portfolio == Bought(old(portfolio), symbol, quantity, price)
      ensures transactions == [Transaction(id, symbol, Buy, quantity, price, timestamp)] + old(transactions)
      ensures store.portfolio == Some(portfolio) && store.transactions == Some(transactions)
    {
      var newPortfolio := Bought(portfolio, symbol, quantity, price);
      portfolio := newPortfolio;
      store.portfolio := Some(newPortfolio);

      var newTransaction := Transaction(id, symbol, Buy, quantity, price, timestamp);
      var newTransactions := [newTransaction] + transactions;
      transactions := newTransactions;
      store.transactions := Some(newTransactions);
    }

    /** `sellStock`: dropped without a trace when less than `quantity` is held; otherwise
        update the positions, prepend a sell transaction, write both through. */
    method SellStock(symbol: string, quantity: int, price: real, id: string, timestamp: int)
      requires Valid() && quantity > 0
      modifies this`portfolio, this`transactions, store`portfolio, store`transactions
      ensures Valid()
      ensures Held(old(portfolio), symbol) < quantity ==>
                portfolio == old(portfolio) && transactions == old(transactions)
                && store.portfolio == old(store.portfolio) && store.transactions == old(store.transactions)
      ensures Held(old(portfolio), symbol) >= quantity ==>
                Sold(old(portfolio), symbol, quantity, price).Some?
                && portfolio == Sold(old(portfolio), symbol, quantity, price).value
                && transactions == [Transaction(id, symbol, Sell, quantity, price, timestamp)] + old(transactions)
                && store.portfolio == Some(portfolio) && store.transactions == Some(transactions)
    {
      var next := Sold(portfolio, symbol, quantity, price);
      if next.None? {
        return;
      }
      var newPortfolio := next.value;
      portfolio := newPortfolio;
      store.portfolio := Some(newPortfolio);

      var newTransaction := Transaction(id, symbol, Sell, quantity, price, timestamp);
      var newTransactions := [newTransaction] + transactions;
      transactions := newTransactions;
      store.transactions := Some(newTransactions);
    }
  }

  /** Buy 10 at 100, sell 4 at 120, sell the remaining 6: what a caller of the ledger can
      conclude from its contracts alone. */
  method SellScenario()
  {
    var store := new LocalStore(None, None, None);
    var ledger := new StockLedger(store);
    ledger.BuyStock("AAPL", 10, 100.0, "1", 1000);
    assert ledger.portfolio == [Position("AAPL", 10, 100.0, 100.0)];
    ledger.SellStock("AAPL", 4, 120.0, "2", 2000);
    assert ledger.portfolio == [Position("AAPL", 6, 100.0, 120.0)];
    ledger.SellStock("AAPL", 7, 120.0, "3", 3000);
    assert |ledger.transactions| == 2;
    ledger.SellStock("AAPL", 6, 120.0, "4", 4000);
    assert ledger.portfolio == [];
    assert |ledger.transactions| == 3 && ledger.transactions[0].kind == Sell;
    assert store.portfolio == Some([]);
  }
}
