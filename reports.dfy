/** The reports summary cards: profit and loss with its return, the number of buys and
    sells, the traded volume, and the number of days with trading. */
module Reports {
  import opened Calendar
  import opened Records
  import opened Summaries
  import opened ActivityLog

  /** The number of transactions of one kind (`filter(...).length`). */
  function CountOf(txs: seq<Transaction>, kind: TradeKind): (n: nat)
    ensures n <= |txs|
    ensures n == 0 <==> forall i :: 0 <= i < |txs| ==> txs[i].kind != kind
  {
    if txs == [] then 0
    else CountOf(txs[1..], kind) + (if txs[0].kind == kind then 1 else 0)
  }

  /** `totalTrades`: buys plus sells count every transaction, as there is no other kind. */
  lemma {:induction false} TradesCountEveryTransaction(txs: seq<Transaction>)
    ensures CountOf(txs, Buy) + CountOf(txs, Sell) == |txs|
  {
    if txs != [] {
      TradesCountEveryTransaction(txs[1..]);
    }
  }

  /** `totalVolume`: the sum of the rows' quantity times price. */
  function TotalVolume(txs: seq<Transaction>): real {
    if txs == [] then 0.0 else RowTotal(txs[0]) + TotalVolume(txs[1..])
  }

  /** With no negative quantity or price the volume is not negative. */
  lemma {:induction false} VolumeNonNegative(txs: seq<Transaction>)
    requires forall i :: 0 <= i < |txs| ==> txs[i].quantity >= 0 && txs[i].price >= 0.0
    ensures TotalVolume(txs) >= 0.0
  {
    if txs != [] {
      VolumeNonNegative(txs[1..]);
    }
  }

  /** The return under "Total P&L": the gain over the total cost, read as 1 when the cost
      is 0 (`totalCost || 1`), in percent. */
  function ReturnPercent(ps: seq<Position>): (pct: real)
    ensures TotalCost(ps) == 0.0 ==> pct == TotalGainLoss(ps) * 100.0
    ensures TotalCost(ps) != 0.0 ==> pct * TotalCost(ps) == TotalGainLoss(ps) * 100.0
  {
    var cost := TotalCost(ps);
    var divisor := if cost == 0.0 then 1.0 else cost;
    assert TotalGainLoss(ps) / divisor * divisor == TotalGainLoss(ps);
    TotalGainLoss(ps) / divisor * 100.0
  }

  /** Where the cost is positive the reports' return is the portfolio summary's. */
  lemma ReturnAgreesWithSummary(ps: seq<Position>)
    requires TotalCost(ps) > 0.0
    ensures ReturnPercent(ps) == GainLossPercent(ps)
  {
    var cost := TotalCost(ps);
    assert ReturnPercent(ps) * cost == GainLossPercent(ps) * cost;
  }

  /** With no cost and a gain, the two cards disagree: the summary shows 0%, the reports
      the gain itself times 100. */
  lemma ReturnDiffersWithoutCost()
    ensures var ps := [Position("ACME", 1, 0.0, 2.0)];
            TotalCost(ps) == 0.0 && GainLossPercent(ps) == 0.0 && ReturnPercent(ps) == 200.0
  {
    var ps := [Position("ACME", 1, 0.0, 2.0)];
    assert ps[..0] == [];
    assert TotalCost(ps) == 0.0 && TotalValue(ps) == 2.0;
  }

  /** The calendar days on which the transactions fall (`new Set(...)`); `dayOf` is the
      time zone's reading of a timestamp as a date (`toDateString`). */
  function DaysOf(txs: seq<Transaction>, dayOf: int -> Date): set<Date> {
    set i | 0 <= i < |txs| :: dayOf(txs[i].timestamp)
  }

  /** Dropping the first transaction leaves its day, at most, out of the set. */
  lemma DaysOfTail(txs: seq<Transaction>, dayOf: int -> Date)
    requires txs != []
    ensures DaysOf(txs, dayOf) == DaysOf(txs[1..], dayOf) + {dayOf(txs[0].timestamp)}
  {
    var all := DaysOf(txs, dayOf);
    var rest := DaysOf(txs[1..], dayOf);
    forall d | d in all ensures d in rest + {dayOf(txs[0].timestamp)} {
      var i :| 0 <= i < |txs| && dayOf(txs[i].timestamp) == d;
      if i > 0 { assert txs[1..][i - 1] == txs[i]; }
    }
    forall d | d in rest ensures d in all {
      var i :| 0 <= i < |txs[1..]| && dayOf(txs[1..][i].timestamp) == d;
      assert txs[i + 1] == txs[1..][i];
    }
  }

  lemma {:induction false} DaysOfBounds(txs: seq<Transaction>, dayOf: int -> Date)
    ensures |DaysOf(txs, dayOf)| <= |txs|
    ensures txs != [] ==> |DaysOf(txs, dayOf)| >= 1
  {
    if txs != [] {
      DaysOfTail(txs, dayOf);
      DaysOfBounds(txs[1..], dayOf);
    }
  }

  /** "Active Days": the number of distinct days with trading, at most one per
      transaction and at least one when there is any. */
  function ActiveDays(txs: seq<Transaction>, dayOf: int -> Date): (n: nat)
    ensures n <= |txs|
    ensures txs != [] ==> n >= 1
  {
    DaysOfBounds(txs, dayOf);
    |DaysOf(txs, dayOf)|
  }

  /** Transactions all made on one day count as one active day. */
  lemma {:induction false} OneDayOneActiveDay(txs: seq<Transaction>, dayOf: int -> Date, day: Date)
    requires txs != [] && forall i :: 0 <= i < |txs| ==> dayOf(txs[i].timestamp) == day
    ensures ActiveDays(txs, dayOf) == 1
  {
    assert dayOf(txs[0].timestamp) == day;
    assert day in DaysOf(txs, dayOf);
    forall d | d in DaysOf(txs, dayOf) ensures d == day {
      var i :| 0 <= i < |txs| && dayOf(txs[i].timestamp) == d;
    }
    assert DaysOf(txs, dayOf) == {day};
  }

  /** Inserting one transaction adds exactly its own share to the counts and the volume. */
  lemma {:induction false} InsertTotals(t: Transaction, s: seq<Transaction>, kind: TradeKind)
    ensures CountOf(Insert(t, s), kind) == CountOf([t], kind) + CountOf(s, kind)
    ensures TotalVolume(Insert(t, s)) == RowTotal(t) + TotalVolume(s)
  {
    if s != [] && s[0].timestamp > t.timestamp {
      InsertTotals(t, s[1..], kind);
      var r := Insert(t, s);
      assert r[1..] == Insert(t, s[1..]);
    } else if s != [] {
      var r := Insert(t, s);
      assert r[1..] == s;
    }
  }

  /** The counts and the volume read the same off the activity log's sorted copy as off
      the stored history. */
  lemma {:induction false} SortedTotals(txs: seq<Transaction>, kind: TradeKind)
    ensures CountOf(SortedByTimeDesc(txs), kind) == CountOf(txs, kind)
    ensures TotalVolume(SortedByTimeDesc(txs)) == TotalVolume(txs)
  {
    if txs != [] {
      SortedTotals(txs[1..], kind);
      InsertTotals(txs[0], SortedByTimeDesc(txs[1..]), kind);
    }
  }
}
