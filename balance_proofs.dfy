/** Balances after the block date: the snapshot plus the later movements give,
    for every catalogue item, everything moved up to the target date, whatever
    the block date, provided each item's movements can be told apart by the
    snapshot's key. */
module BalanceProofs {
  import opened Results
  import opened Units
  import opened Warehouses
  import opened Nomenclatures
  import opened Ledger
  import opened Storage
  import opened Osv
  import opened OsvProofs

  /* ---------- the balances dict ---------- */

  predicate DistinctKeyMap(m: BalanceMap)
  {
    forall i, j :: 0 <= i < j < |m| ==> m[i].0 != m[j].0
  }

  lemma {:induction false} GetAt(m: BalanceMap, j: int)
    requires DistinctKeyMap(m) && 0 <= j < |m|
    ensures Get(m, m[j].0) == Some(m[j].1)
    decreases |m|
  {
    if j > 0 {
      assert m[0].0 != m[j].0;
      assert m[1..][j - 1] == m[j];
      GetAt(m[1..], j - 1);
    }
  }

  /** Assigning an existing key changes that entry's value and nothing else. */
  lemma {:induction false} PutAt(m: BalanceMap, j: int, v: real)
    requires DistinctKeyMap(m) && 0 <= j < |m|
    ensures |Put(m, m[j].0, v)| == |m|
    ensures forall i :: 0 <= i < |m| ==> Put(m, m[j].0, v)[i] == if i == j then (m[j].0, v) else m[i]
    decreases |m|
  {
    var k := m[j].0;
    if j > 0 {
      assert m[0].0 != k;
      var tail := m[1..];
      assert tail[j - 1].0 == k;
      PutAt(tail, j - 1, v);
      var r := Put(m, k, v);
      assert r == [m[0]] + Put(tail, k, v);
      forall i | 0 <= i < |m|
        ensures r[i] == if i == j then (k, v) else m[i]
      {
        if i > 0 {
          assert r[i] == Put(tail, k, v)[i - 1];
          assert tail[i - 1] == m[i];
        }
      }
    }
  }

  /** The dict built from a snapshot with distinct keys lists the entries in order. */
  lemma {:induction false} FromSnapshotDistinct(snap: seq<SnapshotEntry>)
    requires forall i, j :: 0 <= i < j < |snap| ==> EntryKey(snap[i]) != EntryKey(snap[j])
    ensures |FromSnapshot(snap)| == |snap|
    ensures forall i :: 0 <= i < |snap| ==> FromSnapshot(snap)[i] == (EntryKey(snap[i]), snap[i].closing)
    decreases |snap|
  {
    if snap != [] {
      var front := snap[..|snap| - 1];
      FromSnapshotDistinct(front);
      var m := FromSnapshot(front);
      assert Get(m, EntryKey(snap[|snap| - 1])).None?;
    }
  }

  /** Movements whose key is `k`. */
  function WithKey(k: Key): Transaction -> bool
  {
    (t: Transaction) => TxKey(t) == k
  }

  /** One replayed movement whose key is present adds its quantity to that
      entry and leaves the others alone. */
  lemma AddMovementAt(r: BalanceMap, t: Transaction, j: int)
    requires DistinctKeyMap(r) && 0 <= j < |r| && r[j].0 == TxKey(t)
    ensures |AddMovement(r, t)| == |r|
    ensures forall i :: 0 <= i < |r| ==>
              AddMovement(r, t)[i] == if i == j then (r[j].0, r[j].1 + Qty(t)) else r[i]
  {
    GetAt(r, j);
    PutAt(r, j, r[j].1 + Qty(t));
  }

  lemma SumLast(ts: seq<Transaction>, keep: Transaction -> bool)
    requires ts != []
    ensures Sum(ts, keep) == Sum(ts[..|ts| - 1], keep) + Part(ts[|ts| - 1], keep)
  {
  }

  /** The dict has an entry under `k`. */
  predicate KeyPresent(m: BalanceMap, k: Key)
  {
    exists j :: 0 <= j < |m| && m[j].0 == k
  }

  /** `r` is `m` with the movements `ts` added under their keys. */
  predicate ReplayedAs(m: BalanceMap, ts: seq<Transaction>, r: BalanceMap)
  {
    |r| == |m| && forall i :: 0 <= i < |m| ==> r[i] == (m[i].0, m[i].1 + Sum(ts, WithKey(m[i].0)))
  }

  /** One more movement with a present key keeps the description true. */
  lemma ReplayStep(m: BalanceMap, ts: seq<Transaction>, r: BalanceMap, j: int)
    requires ts != [] && DistinctKeyMap(m) && ReplayedAs(m, ts[..|ts| - 1], r)
    requires 0 <= j < |m| && m[j].0 == TxKey(ts[|ts| - 1])
    ensures ReplayedAs(m, ts, AddMovement(r, ts[|ts| - 1]))
  {
    var t := ts[|ts| - 1];
    assert DistinctKeyMap(r) by {
      forall i, i' | 0 <= i < i' < |r| ensures r[i].0 != r[i'].0 {
        assert r[i].0 == m[i].0 && r[i'].0 == m[i'].0;
      }
    }
    AddMovementAt(r, t, j);
    var r2 := AddMovement(r, t);
    forall i | 0 <= i < |m|
      ensures r2[i] == (m[i].0, m[i].1 + Sum(ts, WithKey(m[i].0)))
    {
      var w := WithKey(m[i].0);
      SumLast(ts, w);
      if i == j {
        assert Part(t, w) == Qty(t);
      } else {
        assert m[i].0 != m[j].0;
        assert Part(t, w) == 0.0;
      }
    }
  }

  /** Replaying movements whose keys are all present adds to every entry the
      movements under its key, keeping the keys and their order. */
  lemma {:induction false} ReplaySums(m: BalanceMap, ts: seq<Transaction>)
    requires DistinctKeyMap(m)
    requires forall x :: 0 <= x < |ts| ==> KeyPresent(m, TxKey(ts[x]))
    ensures ReplayedAs(m, ts, Replay(m, ts))
    decreases |ts|
  {
    if ts != [] {
      var front := ts[..|ts| - 1];
      forall x | 0 <= x < |front| ensures KeyPresent(m, TxKey(front[x])) {
        assert front[x] == ts[x];
      }
      ReplaySums(m, front);
      assert KeyPresent(m, TxKey(ts[|ts| - 1]));
      var j :| 0 <= j < |m| && m[j].0 == TxKey(ts[|ts| - 1]);
      ReplayStep(m, ts, Replay(m, front), j);
    }
  }

  /* ---------- what the catalogue and the ledger must satisfy ---------- */

  /** Catalogue ids are distinct, every movement's item is in the catalogue
      (by unique code) and carries that entry's id. */
  predicate CatalogueConsistent(noms: seq<Item>, txs: seq<Transaction>)
  {
    (forall i, j :: 0 <= i < j < |noms| ==> noms[i].id != noms[j].id) &&
    (forall t :: t in txs ==> exists i :: 0 <= i < |noms| && SameItem(t, noms[i])) &&
    (forall t, i :: t in txs && 0 <= i < |noms| && SameItem(t, noms[i]) ==> t.item.id == noms[i].id)
  }

  /** All movements of one item are in one warehouse and one unit (by id), and
      no movement's unit has a base unit. */
  predicate KeyedByItem(txs: seq<Transaction>)
  {
    (forall t1, t2 :: t1 in txs && t2 in txs && t1.item.uid == t2.item.uid ==>
       WarehouseId(t1.warehouse) == WarehouseId(t2.warehouse) && t1.unit.id == t2.unit.id) &&
    (forall t :: t in txs ==> t.unit.base.None?)
  }

  /** The key a catalogue item's row and snapshot entry carry; it does not
      depend on the period. */
  function RowKey(n: Item, txs: seq<Transaction>, whs: seq<Warehouse>): Key
  {
    var rel := Relevant(txs, n, None);
    if rel == [] then (WarehouseId(FirstMatching(whs, None)), n.id, UnitId(n.unit))
    else (WarehouseId(rel[0].warehouse), n.id, Some(BaseUnit(rel[0].unit).id))
  }

  /** The snapshot at `block` has one entry per catalogue item, under the
      item's key, holding everything moved up to the block date. */
  lemma SnapshotEntryAt(noms: seq<Item>, txs: seq<Transaction>, whs: seq<Warehouse>, block: int, i: int)
    requires Day0 <= block + 1 && 0 <= i < |noms|
    ensures |Snapshot(noms, txs, whs, block)| == |noms|
    ensures EntryKey(Snapshot(noms, txs, whs, block)[i]) == RowKey(noms[i], txs, whs)
    ensures Snapshot(noms, txs, whs, block)[i].closing == Sum(Relevant(txs, noms[i], None), UpTo(block))
  {
    var row := RowFor(noms[i], txs, whs, Day0, block, None);
    assert Report(noms, txs, whs, Day0, block, None)[i] == row;
    assert Snapshot(noms, txs, whs, block)[i] == EntryOf(row, block);
    RowClosing(noms[i], txs, whs, Day0, block, None);
  }

  /** Under the conditions above, a movement carries an item's key exactly
      when it is a movement of that item. */
  lemma KeyIffItem(noms: seq<Item>, txs: seq<Transaction>, whs: seq<Warehouse>, t: Transaction, i: int)
    requires CatalogueConsistent(noms, txs) && KeyedByItem(txs)
    requires t in txs && 0 <= i < |noms|
    ensures TxKey(t) == RowKey(noms[i], txs, whs) <==> SameItem(t, noms[i])
  {
    var n := noms[i];
    var rel := Relevant(txs, n, None);
    if SameItem(t, n) {
      RelevantWithoutWarehouse(txs, n, t);
      assert rel[0] in rel;
      RelevantWithoutWarehouse(txs, n, rel[0]);
    }
    if TxKey(t) == RowKey(n, txs, whs) {
      var j :| 0 <= j < |noms| && SameItem(t, noms[j]);
      assert t.item.id == noms[j].id;
      assert j == i;
    }
  }

  /** The dict computed directly at the target date: every item's key with
      everything moved up to the target. */
  function Direct(noms: seq<Item>, txs: seq<Transaction>, whs: seq<Warehouse>, target: int): (m: BalanceMap)
    ensures |m| == |noms|
  {
    seq(|noms|, i requires 0 <= i < |noms| =>
          (RowKey(noms[i], txs, whs), Sum(Relevant(txs, noms[i], None), UpTo(target))))
  }

  /** One item: the snapshot's closing plus the movements after the block date
      under the item's key is everything moved up to the target. */
  lemma ItemAfterBlock(noms: seq<Item>, txs: seq<Transaction>, whs: seq<Warehouse>, block: int, target: int,
                       i: int)
    requires CatalogueConsistent(noms, txs) && KeyedByItem(txs)
    requires block < target && 0 <= i < |noms|
    ensures Direct(noms, txs, whs, block)[i].0 == Direct(noms, txs, whs, target)[i].0
    ensures Direct(noms, txs, whs, block)[i].1 +
            Sum(After(txs, block, target), WithKey(Direct(noms, txs, whs, block)[i].0)) ==
            Direct(noms, txs, whs, target)[i].1
  {
    var n := noms[i];
    var k := RowKey(n, txs, whs);
    var rel := Relevant(txs, n, None);
    var afterKey := (t: Transaction) => Between(block + 1, target)(t) && WithKey(k)(t);
    var itemBetween := (t: Transaction) => Matching(n, None)(t) && Between(block + 1, target)(t);
    SumWhere(txs, Between(block + 1, target), WithKey(k), afterKey);
    SumWhere(txs, Matching(n, None), Between(block + 1, target), itemBetween);
    forall x | 0 <= x < |txs| ensures Part(txs[x], afterKey) == Part(txs[x], itemBetween) {
      KeyIffItem(noms, txs, whs, txs[x], i);
    }
    SumSame(txs, afterKey, itemBetween);
    SumSplit(rel, UpTo(target), UpTo(block), Between(block + 1, target));
  }

  /** The dict built from the snapshot at `block` is the dict computed
      directly at `block`. */
  lemma SnapshotIsDirect(noms: seq<Item>, txs: seq<Transaction>, whs: seq<Warehouse>, block: int)
    requires CatalogueConsistent(noms, txs)
    requires Day0 <= block + 1
    ensures FromSnapshot(Snapshot(noms, txs, whs, block)) == Direct(noms, txs, whs, block)
  {
    var snap := Snapshot(noms, txs, whs, block);
    forall i | 0 <= i < |noms|
      ensures EntryKey(snap[i]) == RowKey(noms[i], txs, whs)
      ensures snap[i].closing == Sum(Relevant(txs, noms[i], None), UpTo(block))
    {
      SnapshotEntryAt(noms, txs, whs, block, i);
    }
    FromSnapshotDistinct(snap);
  }

  /** Every movement's key is the key of its item's entry. */
  lemma KeysPresent(noms: seq<Item>, txs: seq<Transaction>, whs: seq<Warehouse>, day: int,
                    ts: seq<Transaction>)
    requires CatalogueConsistent(noms, txs) && KeyedByItem(txs)
    requires forall t :: t in ts ==> t in txs
    ensures DistinctKeyMap(Direct(noms, txs, whs, day))
    ensures forall x :: 0 <= x < |ts| ==> KeyPresent(Direct(noms, txs, whs, day), TxKey(ts[x]))
  {
    var m := Direct(noms, txs, whs, day);
    forall x | 0 <= x < |ts| ensures KeyPresent(m, TxKey(ts[x])) {
      var t := ts[x];
      assert t in ts;
      var j :| 0 <= j < |noms| && SameItem(t, noms[j]);
      KeyIffItem(noms, txs, whs, t, j);
      assert m[j].0 == TxKey(t);
    }
  }

  /** An entry of a replayed dict is a given entry `d[i]` when the movements
      under its key bring the original entry to `d[i]`'s amount. */
  lemma ReplayedEntry(m: BalanceMap, ts: seq<Transaction>, r: BalanceMap, d: BalanceMap, i: int)
    requires ReplayedAs(m, ts, r) && 0 <= i < |m| && |d| == |m|
    requires m[i].0 == d[i].0 && m[i].1 + Sum(ts, WithKey(m[i].0)) == d[i].1
    ensures r[i] == d[i]
  {
  }

  /** Replaying the movements after the block date on the dict computed
      directly at `block` gives the dict computed directly at the target. */
  lemma DirectReplay(noms: seq<Item>, txs: seq<Transaction>, whs: seq<Warehouse>, block: int, target: int)
    requires CatalogueConsistent(noms, txs) && KeyedByItem(txs)
    requires block < target
    ensures Replay(Direct(noms, txs, whs, block), After(txs, block, target)) == Direct(noms, txs, whs, target)
  {
    var m := Direct(noms, txs, whs, block);
    var after := After(txs, block, target);
    var r := Replay(m, after);
    assert ReplayedAs(m, after, r) by {
      KeysPresent(noms, txs, whs, block, after);
      ReplaySums(m, after);
    }
    var d := Direct(noms, txs, whs, target);
    forall i | 0 <= i < |noms|
      ensures r[i] == d[i]
    {
      assert m[i].0 == d[i].0 && m[i].1 + Sum(after, WithKey(m[i].0)) == d[i].1 by {
        ItemAfterBlock(noms, txs, whs, block, target, i);
      }
      ReplayedEntry(m, after, r, d, i);
    }
  }

  /** After the block date, the dict the calculation builds from the snapshot
      and the later movements is the dict computed directly at the target. */
  lemma AfterBlockIsDirect(noms: seq<Item>, txs: seq<Transaction>, whs: seq<Warehouse>, block: int, target: int)
    requires CatalogueConsistent(noms, txs) && KeyedByItem(txs)
    requires Day0 <= block + 1 && block < target
    ensures Replay(FromSnapshot(Snapshot(noms, txs, whs, block)), After(txs, block, target)) ==
            Direct(noms, txs, whs, target)
  {
    SnapshotIsDirect(noms, txs, whs, block);
    DirectReplay(noms, txs, whs, block, target);
  }

  /** The slot either does not hold a snapshot for `block` or holds the one
      the current data give. */
  predicate SlotCurrent(slot: Option<(int, seq<SnapshotEntry>)>, noms: seq<Item>, txs: seq<Transaction>,
                        whs: seq<Warehouse>, block: int)
  {
    slot.Some? && slot.value.0 == block ==> slot.value.1 == Snapshot(noms, txs, whs, block)
  }

  /** Changing the block date does not change the balances at a later target
      date: both equal the balances computed directly at the target. */
  lemma BlockDateIndependence(noms: seq<Item>, whs: seq<Warehouse>, units: seq<Unit>, txs: seq<Transaction>,
                              slot: Option<(int, seq<SnapshotEntry>)>, target: int, b1: int, b2: int)
    requires CatalogueConsistent(noms, txs) && KeyedByItem(txs)
    requires Day0 <= b1 + 1 && b1 < target && Day0 <= b2 + 1 && b2 < target
    requires SlotCurrent(slot, noms, txs, whs, b1) && SlotCurrent(slot, noms, txs, whs, b2)
    ensures BalancesAt(noms, whs, units, txs, slot, target, Some(b1)) ==
            BalancesAt(noms, whs, units, txs, slot, target, Some(b2))
  {
    AfterBlockIsDirect(noms, txs, whs, b1, target);
    AfterBlockIsDirect(noms, txs, whs, b2, target);
  }

  /** After the block date, there is one balance per catalogue item holding
      everything moved up to the target date. */
  lemma BalancesAfterBlockDate(noms: seq<Item>, whs: seq<Warehouse>, units: seq<Unit>, txs: seq<Transaction>,
                               slot: Option<(int, seq<SnapshotEntry>)>, target: int, block: int)
    requires CatalogueConsistent(noms, txs) && KeyedByItem(txs)
    requires Day0 <= block + 1 && block < target
    requires SlotCurrent(slot, noms, txs, whs, block)
    ensures var r := BalancesAt(noms, whs, units, txs, slot, target, Some(block));
            |r| == |noms| &&
            forall i :: 0 <= i < |noms| ==>
              r[i].item == Some(noms[i]) && r[i].balance == Sum(Relevant(txs, noms[i], None), UpTo(target))
  {
    var snap := Snapshot(noms, txs, whs, block);
    assert UsedSnapshot(slot, noms, txs, whs, block) == snap;
    var r := BalancesAt(noms, whs, units, txs, slot, target, Some(block));
    assert r == BalancesAfterBlock(noms, whs, units, txs, snap, block, target);
    AfterBlockIsDirect(noms, txs, whs, block, target);
    var m := Direct(noms, txs, whs, target);
    assert r == seq(|m|, i requires 0 <= i < |m| => BalanceOf(noms, whs, units, m[i].0, m[i].1));
    forall i | 0 <= i < |noms|
      ensures r[i].item == Some(noms[i]) && r[i].balance == Sum(Relevant(txs, noms[i], None), UpTo(target))
    {
      ItemByOwnId(noms, i);
      assert m[i].0.1 == noms[i].id;
    }
  }

  /** Selecting from two movements keeps those that pass, in order. */
  lemma WhereOfTwo(t1: Transaction, t2: Transaction, p: Transaction -> bool)
    ensures Where([t1, t2], p) == (if p(t1) then [t1] else []) + (if p(t2) then [t2] else [])
  {
    assert [t1, t2][..1] == [t1] && [t1][..0] == [];
  }

  /** A one-entry snapshot becomes a one-entry map. */
  lemma SingleEntryMap(snap: seq<SnapshotEntry>)
    requires |snap| == 1
    ensures FromSnapshot(snap) == [(EntryKey(snap[0]), snap[0].closing)]
  {
    assert snap[..0] == [];
  }

  /** A map of `k` alone, after a movement under another key, holds two keys. */
  lemma ForeignMovementAdds(k: Key, c: real, t: Transaction)
    requires TxKey(t) != k
    ensures |Replay([(k, c)], [t])| == 2
  {
    assert [t][..0] == [];
    assert Get([(k, c)], TxKey(t)) == None;
  }

  /** The condition that an item moves in one unit cannot be dropped: when an
      item is moved once in unit `a` before both block dates and once in another
      base-less unit `b` between them, the later block date yields one balance
      and the earlier one yields two. */
  lemma MixedUnitsBreakIndependence(n: Item, units: seq<Unit>, t1: Transaction, t2: Transaction,
                                    b1: int, b2: int, target: int)
    requires t1.item == n && t2.item == n
    requires t1.warehouse.None? && t2.warehouse.None?
    requires t1.unit.base.None? && t2.unit.base.None? && t1.unit.id != t2.unit.id
    requires Day0 <= b1 + 1 && t1.date <= b1 < t2.date <= b2 < target
    ensures |BalancesAt([n], [], units, [t1, t2], None, target, Some(b1))| == 2
    ensures |BalancesAt([n], [], units, [t1, t2], None, target, Some(b2))| == 1
  {
    var txs := [t1, t2];
    assert RowKey(n, txs, []) == (None, n.id, Some(t1.unit.id)) by {
      WhereOfTwo(t1, t2, Matching(n, None));
    }
    assert |BalancesAt([n], [], units, txs, None, target, Some(b1))| == 2 by {
      var s1 := Snapshot([n], txs, [], b1);
      WhereOfTwo(t1, t2, Between(b1 + 1, target));
      SnapshotEntryAt([n], txs, [], b1, 0);
      SingleEntryMap(s1);
      ForeignMovementAdds(EntryKey(s1[0]), s1[0].closing, t2);
    }
    assert |BalancesAt([n], [], units, txs, None, target, Some(b2))| == 1 by {
      var s2 := Snapshot([n], txs, [], b2);
      WhereOfTwo(t1, t2, Between(b2 + 1, target));
      SnapshotEntryAt([n], txs, [], b2, 0);
      SingleEntryMap(s2);
      assert Replay(FromSnapshot(s2), []) == FromSnapshot(s2);
    }
  }
}
