/** The trade dialog: it parses the quantity typed in, refuses non-positive quantities and
    sells beyond the holding, and dispatches one buy or sell to the ledger at the
    instrument's price. */
module TradeDialog {
  import opened Common
  import opened Records
  import opened Ledger

  /** `maxSellQuantity`: the quantity held of the dialog's symbol, 0 when none is held. */
  function MaxSellQuantity(ps: seq<Position>, symbol: string): (m: int)
    ensures IndexOfSymbol(ps, symbol).None? ==> m == 0
    ensures IndexOfSymbol(ps, symbol).Some? ==> m == ps[IndexOfSymbol(ps, symbol).value].quantity
    ensures WellFormed(ps) ==> m >= 0
  {
    Held(ps, symbol)
  }

  /** The quantity `handleTrade` dispatches, or `None` when one of its guards returns
      early: the text does not parse, parses to zero or less, or asks to sell more than
      `maxSell`. */
  function TradeQuantity(text: string, kind: TradeKind, maxSell: int): (q: Option<int>)
    ensures q.Some? ==> ParseInt(text) == q && q.value > 0 && (kind == Sell ==> q.value <= maxSell)
    ensures q.None? <==>
              ParseInt(text).None? || ParseInt(text).value <= 0
              || (kind == Sell && ParseInt(text).value > maxSell)
  {
    var qty := ParseInt(text);
    if qty.None? || qty.value == 0 || qty.value <= 0 then None
    else if kind == Sell && qty.value > maxSell then None
    else qty
  }

  /** `totalValue`: the parsed quantity times the price, or 0 when nothing parses. */
  function OrderTotal(text: string, price: real): (total: real)
    ensures ParseInt(text).None? ==> total == 0.0
    ensures ParseInt(text).Some? ==> total == ParseInt(text).value as real * price
  {
    var qty := ParseInt(text);
    if qty.Some? then qty.value as real * price else 0.0
  }

  /** The submit button's `disabled` condition. Comparisons with a quantity that does not
      parse (`NaN`) are false. */
  predicate Disabled(text: string, kind: TradeKind, maxSell: int, isLoading: bool) {
    var qty := ParseInt(text);
    text == []
    || (qty.Some? && qty.value <= 0)
    || (kind == Sell && qty.Some? && qty.value > maxSell)
    || isLoading
  }

  /** A button disabled while no trade is in flight guards nothing `handleTrade` would
      let through. */
  lemma DisabledIsRejected(text: string, kind: TradeKind, maxSell: int)
    requires Disabled(text, kind, maxSell, false)
    ensures TradeQuantity(text, kind, maxSell).None?
  {
  }

  /** The converse fails: non-numeric text leaves the button enabled, yet the trade is
      refused. */
  lemma EnabledButRejected()
    ensures !Disabled("abc", Buy, 0, false) && TradeQuantity("abc", Buy, 0).None?
  {
    assert Unsigned("abc") == "abc";
    assert DigitPrefix("abc") == [];
  }

  /** A sell the dialog dispatches always passes the ledger's guard: it is never dropped. */
  lemma DispatchedSellKept(ps: seq<Position>, symbol: string, text: string, price: real)
    requires WellFormed(ps) && TradeQuantity(text, Sell, MaxSellQuantity(ps, symbol)).Some?
    ensures Sold(ps, symbol, TradeQuantity(text, Sell, MaxSellQuantity(ps, symbol)).value, price).Some?
  {
  }

  /** A typed quantity the dialog dispatches reads back as the quantity itself. */
  lemma DecimalQuantityDispatched(n: nat, kind: TradeKind, maxSell: int)
    requires n > 0 && (kind == Sell ==> n <= maxSell)
    ensures TradeQuantity(DecimalString(n), kind, maxSell) == Some(n)
  {
    ParseIntOfDecimal(n);
  }

  /** The dialog's state: the quantity text and the loading flag, for one instrument and
      one kind of trade. */
  class TradeModal {
    var quantity: string
    var isLoading: bool
    const stock: Stock
    const kind: TradeKind
    const ledger: StockLedger

    constructor (stock: Stock, kind: TradeKind, ledger: StockLedger)
      ensures this.stock == stock && this.kind == kind && this.ledger == ledger
      ensures quantity == [] && !isLoading
    {
      this.stock := stock;
      this.kind := kind;
      this.ledger := ledger;
      quantity := [];
      isLoading := false;
    }

    method SetQuantity(text: string)
      modifies this`quantity
      ensures quantity == text
    {
      quantity := text;
    }

    /** `handleTrade`: when a guard fails nothing changes; otherwise exactly one buy or sell
        of the parsed quantity at the instrument's price reaches the ledger, and the
        quantity text is cleared. */
    method HandleTrade(id: string, timestamp: int)
      requires ledger.Valid()
      modifies this`quantity, this`isLoading
      modifies ledger`portfolio, ledger`transactions, ledger.store`portfolio, ledger.store`transactions
      ensures ledger.Valid()
      ensures var q := TradeQuantity(old(quantity), kind, MaxSellQuantity(old(ledger.portfolio), stock.symbol));
              q.None? ==>
                quantity == old(quantity) && isLoading == old(isLoading)
                && ledger.portfolio == old(ledger.portfolio) && ledger.transactions == old(ledger.transactions)
                && ledger.store.portfolio == old(ledger.store.portfolio)
                && ledger.store.transactions == old(ledger.store.transactions)
      ensures var q := TradeQuantity(old(quantity), kind, MaxSellQuantity(old(ledger.portfolio), stock.symbol));
              q.Some? ==>
                quantity == [] && !isLoading
                && ledger.transactions
                   == [Transaction(id, stock.symbol, kind, q.value, stock.price, timestamp)] + old(ledger.transactions)
                && (kind == Buy ==> ledger.portfolio == Bought(old(ledger.portfolio), stock.symbol, q.value, stock.price))
                && (kind == Sell ==> ledger.portfolio == Sold(old(ledger.portfolio), stock.symbol, q.value, stock.price).value)
    {
      var maxSell := MaxSellQuantity(ledger.portfolio, stock.symbol);
      var qty := ParseInt(quantity);
      if qty.None? || qty.value <= 0 {
        return;
      }
      if kind == Sell && qty.value > maxSell {
        return;
      }
      isLoading := true;
      if kind == Buy {
        ledger.BuyStock(stock.symbol, qty.value, stock.price, id, timestamp);
      } else {
        ledger.SellStock(stock.symbol, qty.value, stock.price, id, timestamp);
      }
      isLoading := false;
      quantity := [];
    }
  }
}
