/** The activity log: a copy of the transaction history sorted newest first, each row
    showing the quantity times the price. Sorting is a function on the history's value,
    so the history itself is never reordered. */
module ActivityLog {
  import opened Records

  /** Timestamps never increase from one entry to the next. */
  ghost predicate NewestFirst(txs: seq<Transaction>) {
    forall i, j :: 0 <= i < j < |txs| ==> txs[i].timestamp >= txs[j].timestamp
  }

  /** Puts `t` into a newest-first list, in front of the first entry that is not newer
      than it. */
  function Insert(t: Transaction, s: seq<Transaction>): (r: seq<Transaction>)
    ensures multiset(r) == multiset(s) + multiset{t}
    ensures NewestFirst(s) ==> NewestFirst(r)
  {
    if s == [] then [t]
    else if s[0].timestamp <= t.timestamp then [t] + s
    else
      var rest := Insert(t, s[1..]);
      assert s == [s[0]] + s[1..];
      InsertBelow(t, s, rest);
      [s[0]] + rest
  }

  /** Every entry of `rest`, a permutation of `s[1..]` and `t`, is no newer than `s[0]`
      when `t` is older than it and `s` is newest first. */
  lemma InsertBelow(t: Transaction, s: seq<Transaction>, rest: seq<Transaction>)
    requires s != [] && s[0].timestamp > t.timestamp
    requires multiset(rest) == multiset(s[1..]) + multiset{t}
    ensures NewestFirst(s) ==> forall j :: 0 <= j < |rest| ==> rest[j].timestamp <= s[0].timestamp
  {
    if NewestFirst(s) {
      forall j | 0 <= j < |rest| ensures rest[j].timestamp <= s[0].timestamp {
        var x := rest[j];
        assert x in multiset(rest);
        if x != t {
          assert x in multiset(s[1..]);
          var k :| 0 <= k < |s[1..]| && s[1..][k] == x;
          assert s[k + 1] == x;
        }
      }
    }
  }

  /** `sortedTransactions`: the history ordered by descending timestamp, a permutation of
      it. Entries with equal timestamps keep their order, as the stable library sort
      does. */
  function SortedByTimeDesc(txs: seq<Transaction>): (r: seq<Transaction>)
    ensures multiset(r) == multiset(txs)
    ensures |r| == |txs|
    ensures NewestFirst(r)
  {
    if txs == [] then []
    else
      assert txs == [txs[0]] + txs[1..];
      Insert(txs[0], SortedByTimeDesc(txs[1..]))
  }

  /** A history that is already newest first is shown in its own order. */
  lemma {:induction false} SortedKeepsSorted(txs: seq<Transaction>)
    requires NewestFirst(txs)
    ensures SortedByTimeDesc(txs) == txs
  {
    if txs != [] {
      SortedKeepsSorted(txs[1..]);
      assert txs == [txs[0]] + txs[1..];
    }
  }

  /** The ledger puts each new transaction in front of the history. When every new one is
      stamped no earlier than the one before, the log shows the history in stored order. */
  lemma LogShowsStoredOrder(t: Transaction, txs: seq<Transaction>)
    requires NewestFirst(txs) && (txs != [] ==> txs[0].timestamp <= t.timestamp)
    ensures SortedByTimeDesc([t] + txs) == [t] + txs
  {
    SortedKeepsSorted([t] + txs);
  }

  /** The "Total Value" column of a row. */
  function RowTotal(t: Transaction): (v: real)
    ensures t.quantity >= 0 && t.price >= 0.0 ==> v >= 0.0
    ensures t.quantity == 0 || t.price == 0.0 ==> v == 0.0
  {
    t.quantity as real * t.price
  }
}
