/** The figures the portfolio views derive from the positions: the totals of the summary
    cards and the dashboard overview, the per-holding figures of the overview and the
    holdings table, and the allocation chart. All are exact `real` arithmetic. */
module Summaries {
  import opened Common
  import opened Records
  import opened Ledger

  // ---------------------------------------------------------------------------
  // Totals (summary cards, dashboard overview)
  // ---------------------------------------------------------------------------

  /** What a holding is worth at its last price. */
  function MarketValue(p: Position): real {
    p.quantity as real * p.currentPrice
  }

  /** What a holding cost at its average price. */
  function CostBasis(p: Position): real {
    p.quantity as real * p.avgPrice
  }

  /** The overview's per-holding gain: the price move times the quantity. */
  function PositionGainLoss(p: Position): real {
    (p.currentPrice - p.avgPrice) * p.quantity as real
  }

  /** `totalValue`: the sum of the market values. */
  function TotalValue(ps: seq<Position>): real {
    if ps == [] then 0.0 else TotalValue(ps[..|ps| - 1]) + MarketValue(ps[|ps| - 1])
  }

  /** `totalCost`: the sum of the cost bases. */
  function TotalCost(ps: seq<Position>): real {
    if ps == [] then 0.0 else TotalCost(ps[..|ps| - 1]) + CostBasis(ps[|ps| - 1])
  }

  /** `totalGainLoss`: total value less total cost. */
  function TotalGainLoss(ps: seq<Position>): real {
    TotalValue(ps) - TotalCost(ps)
  }

  /** The sum of the per-holding gains. */
  function SumOfGains(ps: seq<Position>): real {
    if ps == [] then 0.0 else SumOfGains(ps[..|ps| - 1]) + PositionGainLoss(ps[|ps| - 1])
  }

  /** The total gain is the sum of the per-holding gains the overview lists. */
  lemma {:induction false} TotalGainLossIsSum(ps: seq<Position>)
    ensures TotalGainLoss(ps) == SumOfGains(ps)
  {
    if ps != [] {
      TotalGainLossIsSum(ps[..|ps| - 1]);
      var p := ps[|ps| - 1];
      assert MarketValue(p) - CostBasis(p) == PositionGainLoss(p);
    }
  }

  /** Holdings with positive quantities have a non-negative total value and cost when
      their prices are non-negative. */
  lemma {:induction false} TotalsNonNegative(ps: seq<Position>)
    requires forall i :: 0 <= i < |ps| ==> ps[i].quantity >= 0 && ps[i].avgPrice >= 0.0 && ps[i].currentPrice >= 0.0
    ensures TotalValue(ps) >= 0.0 && TotalCost(ps) >= 0.0
  {
    if ps != [] {
      TotalsNonNegative(ps[..|ps| - 1]);
      var p := ps[|ps| - 1];
      assert MarketValue(p) >= 0.0 && CostBasis(p) >= 0.0;
    }
  }

  /** `totalGainLossPercent`: the gain as a percentage of the cost, or 0 when the cost is
      not positive. Its sign is the gain's. */
  function GainLossPercent(ps: seq<Position>): (pct: real)
    ensures TotalCost(ps) <= 0.0 ==> pct == 0.0
    ensures TotalCost(ps) > 0.0 ==> (pct > 0.0 <==> TotalGainLoss(ps) > 0.0)
    ensures TotalCost(ps) > 0.0 ==> (pct == 0.0 <==> TotalGainLoss(ps) == 0.0)
    ensures TotalCost(ps) > 0.0 ==> pct * TotalCost(ps) == TotalGainLoss(ps) * 100.0
  {
    var cost := TotalCost(ps);
    var gain := TotalGainLoss(ps);
    if cost > 0.0 then
      PercentSign(gain, cost);
      gain / cost * 100.0
    else 0.0
  }

  lemma PercentSign(gain: real, cost: real)
    requires cost > 0.0
    ensures (gain / cost * 100.0 > 0.0 <==> gain > 0.0) && (gain / cost * 100.0 == 0.0 <==> gain == 0.0)
    ensures gain / cost * 100.0 * cost == gain * 100.0
  {
    assert gain / cost * cost == gain;
  }

  /** The Positions card: one position per symbol held. */
  function PositionCount(ps: seq<Position>): (n: nat)
    ensures WellFormed(ps) ==> n == |set i | 0 <= i < |ps| :: ps[i].symbol|
  {
    if WellFormed(ps) then
      DistinctSymbolsCounted(ps);
      |ps|
    else |ps|
  }

  lemma {:induction false} DistinctSymbolsCounted(ps: seq<Position>)
    requires UniqueSymbols(ps)
    ensures |set i | 0 <= i < |ps| :: ps[i].symbol| == |ps|
  {
    if ps != [] {
      var init := ps[..|ps| - 1];
      DistinctSymbolsCounted(init);
      var last := ps[|ps| - 1].symbol;
      var before := set i | 0 <= i < |init| :: init[i].symbol;
      var after := set i | 0 <= i < |ps| :: ps[i].symbol;
      assert after == before + {last} by {
        forall s | s in after ensures s in before + {last} {
          var i :| 0 <= i < |ps| && ps[i].symbol == s;
          if i < |init| { assert init[i].symbol == s; }
        }
        forall s | s in before ensures s in after {
          var i :| 0 <= i < |init| && init[i].symbol == s;
          assert ps[i].symbol == s;
        }
      }
      assert last !in before;
    }
  }

  // ---------------------------------------------------------------------------
  // Per-holding figures (dashboard overview, holdings table)
  // ---------------------------------------------------------------------------

  /** The overview's per-holding percentage: the price move relative to the average price.
      It is unguarded, so a zero average price gives no number (`None`). */
  function PositionPercent(p: Position): (pct: Option<real>)
    ensures pct.None? <==> p.avgPrice == 0.0
  {
    if p.avgPrice == 0.0 then None
    else Some((p.currentPrice - p.avgPrice) / p.avgPrice * 100.0)
  }

  /** One row of the holdings table (the narrow and the wide layout compute the same
      figures from the same expressions). The percentage is `None` when the cost is 0. */
  datatype Row = Row(marketValue: real, totalCost: real, gainLoss: real, percent: Option<real>)

  function RowOf(p: Position): (row: Row)
    ensures row.gainLoss == row.marketValue - row.totalCost
    ensures row.percent.None? <==> row.totalCost == 0.0
  {
    var marketValue := MarketValue(p);
    var totalCost := CostBasis(p);
    var gainLoss := marketValue - totalCost;
    Row(marketValue, totalCost, gainLoss,
        if totalCost == 0.0 then None else Some(gainLoss / totalCost * 100.0))
  }

  /** The table's gain is the overview's: quantity times the price move; and for a
      non-empty holding the table's percentage is the overview's. */
  lemma RowAgreesWithOverview(p: Position)
    ensures RowOf(p).gainLoss == PositionGainLoss(p)
    ensures p.quantity != 0 ==> RowOf(p).percent == PositionPercent(p)
  {
    var q := p.quantity as real;
    assert RowOf(p).gainLoss == q * p.currentPrice - q * p.avgPrice;
    if p.quantity != 0 {
      if p.avgPrice == 0.0 {
        assert CostBasis(p) == 0.0;
      } else {
        var d := p.currentPrice - p.avgPrice;
        assert (q * p.currentPrice - q * p.avgPrice) == q * d;
        CancelFactor(q, d, p.avgPrice);
        assert CostBasis(p) == q * p.avgPrice != 0.0;
        var row := RowOf(p);
        assert row.gainLoss == q * d && row.totalCost == q * p.avgPrice;
        assert row.percent == Some((q * d) / (q * p.avgPrice) * 100.0);
        assert PositionPercent(p) == Some(d / p.avgPrice * 100.0);
        assert (q * d) / (q * p.avgPrice) * 100.0 == d / p.avgPrice * 100.0;
      }
    }
  }

  lemma CancelFactor(q: real, d: real, a: real)
    requires q != 0.0 && a != 0.0
    ensures q * a != 0.0 && (q * d) / (q * a) == d / a
  {
    var x := d / a;
    assert x * a == d;
    assert x * (q * a) == q * d;
  }

  /** `stocks.find(s => s.symbol === symbol)`: the first instrument with exactly that
      symbol. */
  function FindExact(stocks: seq<Stock>, symbol: string): (r: Option<Stock>)
    ensures r.Some? ==> r.value in stocks && r.value.symbol == symbol
    ensures r.None? <==> forall i :: 0 <= i < |stocks| ==> stocks[i].symbol != symbol
  {
    if stocks == [] then None
    else if stocks[0].symbol == symbol then Some(stocks[0])
    else FindExact(stocks[1..], symbol)
  }

  /** The holdings table's dialog state. */
  class HoldingsTable {
    var selectedStock: Option<Stock>
    var showBuyModal: bool
    var showSellModal: bool

    constructor ()
      ensures selectedStock.None? && !showBuyModal && !showSellModal
    {
      selectedStock := None;
      showBuyModal := false;
      showSellModal := false;
    }

    /** `handleTrade`: for a symbol of the catalog, select it and open the dialog of the
        requested kind; for any other symbol, nothing changes. */
    method HandleTrade(stocks: seq<Stock>, symbol: string, kind: TradeKind)
      modifies this`selectedStock, this`showBuyModal, this`showSellModal
      ensures FindExact(stocks, symbol).None? ==>
                selectedStock == old(selectedStock) && showBuyModal == old(showBuyModal)
                && showSellModal == old(showSellModal)
      ensures FindExact(stocks, symbol).Some? ==>
                selectedStock == FindExact(stocks, symbol)
                && showBuyModal == (kind == Buy || old(showBuyModal))
                && showSellModal == (kind == Sell || old(showSellModal))
    {
      var stock := FindExact(stocks, symbol);
      if stock.Some? {
        selectedStock := stock;
        if kind == Buy {
          showBuyModal := true;
        } else {
          showSellModal := true;
        }
      }
    }
  }

  // ---------------------------------------------------------------------------
  // Allocation chart
  // ---------------------------------------------------------------------------

  datatype ChartEntry = ChartEntry(name: string, value: real, quantity: int, avgPrice: real, currentPrice: real)

  /** `chartData`: one entry per holding, in order, valued at its market value. */
  function ChartData(ps: seq<Position>): (data: seq<ChartEntry>)
    ensures |data| == |ps|
    ensures forall i :: 0 <= i < |ps| ==>
              data[i].name == ps[i].symbol && data[i].value == MarketValue(ps[i])
              && data[i].quantity == ps[i].quantity
  {
    seq(|ps|, i requires 0 <= i < |ps| =>
      ChartEntry(ps[i].symbol, MarketValue(ps[i]), ps[i].quantity, ps[i].avgPrice, ps[i].currentPrice))
  }

  /** The sum of the entries' values. */
  function ChartTotal(data: seq<ChartEntry>): real {
    if data == [] then 0.0 else ChartTotal(data[..|data| - 1]) + data[|data| - 1].value
  }

  /** The chart's total is the portfolio's total value. */
  lemma {:induction false} ChartTotalIsTotalValue(ps: seq<Position>)
    ensures ChartTotal(ChartData(ps)) == TotalValue(ps)
  {
    if ps != [] {
      var init := ps[..|ps| - 1];
      assert ChartData(ps)[..|ps| - 1] == ChartData(init);
      ChartTotalIsTotalValue(init);
    }
  }

  /** An entry's share of the chart in percent; no number when the total is 0. */
  function Allocation(data: seq<ChartEntry>, i: int): (pct: Option<real>)
    requires 0 <= i < |data|
    ensures pct.None? <==> ChartTotal(data) == 0.0
  {
    var total := ChartTotal(data);
    if total == 0.0 then None else Some(data[i].value / total * 100.0)
  }

  /** The sum of the shares of the first `n` entries of the chart, relative to `total`. */
  function SharesUpTo(data: seq<ChartEntry>, n: nat, total: real): real
    requires n <= |data| && total != 0.0
  {
    if n == 0 then 0.0 else SharesUpTo(data, n - 1, total) + data[n - 1].value / total * 100.0
  }

  /** The legend's percentages add up to 100 whenever the total is not 0. */
  lemma AllocationsSumTo100(data: seq<ChartEntry>)
    requires ChartTotal(data) != 0.0
    ensures SharesUpTo(data, |data|, ChartTotal(data)) == 100.0
    ensures forall i :: 0 <= i < |data| ==>
              Allocation(data, i) == Some(data[i].value / ChartTotal(data) * 100.0)
  {
    var total := ChartTotal(data);
    assert data[..|data|] == data;
    SharesScale(data, |data|, total);
    WholeShare(total);
  }

  lemma WholeShare(total: real)
    requires total != 0.0
    ensures total / total * 100.0 == 100.0
  {
  }

  /** The shares of the first `n` entries are their values' sum over `total`, in percent. */
  lemma {:induction false} SharesScale(data: seq<ChartEntry>, n: nat, total: real)
    requires n <= |data| && total != 0.0
    ensures SharesUpTo(data, n, total) == ChartTotal(data[..n]) / total * 100.0
  {
    if n > 0 {
      SharesScale(data, n - 1, total);
      assert data[..n][..n - 1] == data[..n - 1];
      var s := ChartTotal(data[..n - 1]);
      var v := data[n - 1].value;
      assert s / total * 100.0 + v / total * 100.0 == (s + v) / total * 100.0;
    }
  }

  /** The six legend colours. */
  const PaletteSize: nat := 6

  /** `COLORS[index % COLORS.length]`: entries cycle through the palette, never past it. */
  function PaletteIndex(i: nat): (c: nat)
    ensures c < PaletteSize
    ensures i < PaletteSize ==> c == i
  {
    i % PaletteSize
  }

  /** The colours repeat every `PaletteSize` entries. */
  lemma PaletteRepeats(i: nat)
    ensures PaletteIndex(i + PaletteSize) == PaletteIndex(i)
  {
  }
}
