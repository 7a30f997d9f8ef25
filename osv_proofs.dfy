/** What the turnover statement and the balance calculation promise: the
    closing balance of a row is everything moved up to the period's end,
    receipts and issues are non-negative, and balances after the block date
    do not depend on which block date the snapshot was taken at. */
module OsvProofs {
  import opened Results
  import opened Units
  import opened Warehouses
  import opened Nomenclatures
  import opened Ledger
  import opened OsvRows
  import opened Osv

  /* ---------- sums ---------- */

  /** What one movement adds to a sum. */
  function Part(t: Transaction, keep: Transaction -> bool): real
  {
    if keep(t) then Qty(t) else 0.0
  }

  lemma SumAppend(ts: seq<Transaction>, t: Transaction, keep: Transaction -> bool)
    ensures Sum(ts + [t], keep) == Sum(ts, keep) + Part(t, keep)
  {
    assert (ts + [t])[..|ts + [t]| - 1] == ts;
  }

  /** A sum splits along a split of every movement's part. */
  lemma {:induction false} SumSplit(ts: seq<Transaction>, k: Transaction -> bool, k1: Transaction -> bool,
                                    k2: Transaction -> bool)
    requires forall i :: 0 <= i < |ts| ==> Part(ts[i], k) == Part(ts[i], k1) + Part(ts[i], k2)
    ensures Sum(ts, k) == Sum(ts, k1) + Sum(ts, k2)
    decreases |ts|
  {
    if ts != [] {
      var front := ts[..|ts| - 1];
      assert forall i :: 0 <= i < |front| ==> front[i] == ts[i];
      SumSplit(front, k, k1, k2);
      assert Part(ts[|ts| - 1], k) == Part(ts[|ts| - 1], k1) + Part(ts[|ts| - 1], k2);
    }
  }

  /** Conditions giving every movement the same part give the same sum. */
  lemma {:induction false} SumSame(ts: seq<Transaction>, k1: Transaction -> bool, k2: Transaction -> bool)
    requires forall i :: 0 <= i < |ts| ==> Part(ts[i], k1) == Part(ts[i], k2)
    ensures Sum(ts, k1) == Sum(ts, k2)
    decreases |ts|
  {
    if ts != [] {
      var front := ts[..|ts| - 1];
      assert forall i :: 0 <= i < |front| ==> front[i] == ts[i];
      SumSame(front, k1, k2);
      assert Part(ts[|ts| - 1], k1) == Part(ts[|ts| - 1], k2);
    }
  }

  /** Summing over a selection is summing under both conditions. */
  lemma {:induction false} SumWhere(ts: seq<Transaction>, p: Transaction -> bool, k: Transaction -> bool,
                                    pk: Transaction -> bool)
    requires forall t :: pk(t) == (p(t) && k(t))
    ensures Sum(Where(ts, p), k) == Sum(ts, pk)
    decreases |ts|
  {
    if ts != [] {
      var front := ts[..|ts| - 1];
      var last := ts[|ts| - 1];
      SumWhere(front, p, k, pk);
      if p(last) {
        assert Where(ts, p) == Where(front, p) + [last];
        SumAppend(Where(front, p), last, k);
        assert Part(last, k) == Part(last, pk);
      } else {
        assert Where(ts, p) == Where(front, p);
        assert Part(last, pk) == 0.0;
      }
    }
  }

  /** Every movement is in the selection of all movements of its item when no
      warehouse is asked for. */
  lemma RelevantWithoutWarehouse(txs: seq<Transaction>, n: Item, t: Transaction)
    ensures t in Relevant(txs, n, None) <==> t in txs && SameItem(t, n)
  {
  }

  /* ---------- one statement row ---------- */

  /** Opening plus receipts minus issues is everything moved up to the end of
      the period, when the period does not end before it starts. */
  lemma ClosingIsBalanceAtEnd(rel: seq<Transaction>, start: int, end: int)
    requires start <= end + 1
    ensures Opening(rel, start) + Incoming(rel, start, end) - Outgoing(rel, start, end) == Sum(rel, UpTo(end))
  {
    forall i | 0 <= i < |rel|
      ensures Part(rel[i], Between(start, end)) ==
              Part(rel[i], ReceiptsBetween(start, end)) + Part(rel[i], IssuesBetween(start, end))
    {
      if rel[i].quantity == 0.0 {
        assert Qty(rel[i]) == 0.0;
      }
    }
    SumSplit(rel, Between(start, end), ReceiptsBetween(start, end), IssuesBetween(start, end));
    SumSplit(rel, UpTo(end), Before(start), Between(start, end));
  }

  /** The closing balance of a statement row is the sum of every matching
      movement of its item up to the end of the period. */
  lemma RowClosing(n: Item, txs: seq<Transaction>, whs: seq<Warehouse>, start: int, end: int,
                   wanted: Option<string>)
    requires start <= end + 1
    ensures RowFor(n, txs, whs, start, end, wanted).Closing().Real() == Sum(Relevant(txs, n, wanted), UpTo(end))
  {
    var rel := Relevant(txs, n, wanted);
    if rel != [] {
      ClosingIsBalanceAtEnd(rel, start, end);
    }
  }

  /** Units converting with a positive factor. */
  predicate PositiveFactors(ts: seq<Transaction>)
  {
    forall i :: 0 <= i < |ts| ==> ts[i].unit.factor > 0
  }

  /** With positive conversion factors, receipts and issues are both non-negative. */
  lemma {:induction false} TurnoversNonNegative(rel: seq<Transaction>, start: int, end: int)
    requires PositiveFactors(rel)
    ensures Incoming(rel, start, end) >= 0.0 && Outgoing(rel, start, end) >= 0.0
    decreases |rel|
  {
    if rel != [] {
      var front := rel[..|rel| - 1];
      var last := rel[|rel| - 1];
      assert forall i :: 0 <= i < |front| ==> front[i] == rel[i];
      TurnoversNonNegative(front, start, end);
      ToBasePreservesSign(last.unit, last.quantity);
    }
  }

  /** A row's warehouse, when it has one, matches the warehouse asked for, and
      a row with no matching movement is all zeros. */
  lemma RowWarehouseMatches(n: Item, txs: seq<Transaction>, whs: seq<Warehouse>, start: int, end: int,
                            wanted: Option<string>)
    ensures var r := RowFor(n, txs, whs, start, end, wanted);
            r.item == Some(n) &&
            (r.warehouse.Some? ==> WarehouseMatch(r.warehouse, wanted)) &&
            (Relevant(txs, n, wanted) == [] ==> r.opening == r.incoming == r.outgoing == Zero)
  {
    var rel := Relevant(txs, n, wanted);
    if rel != [] {
      assert rel[0] in rel;
    }
  }
}
