/** Three places where the statement engine does not do what it evidently
    means to: each is modelled as written, shown on an input, and corrected,
    with the intended property proved of the correction. */
module OsvFindings {
  import opened Results
  import opened Values
  import opened Units
  import opened Warehouses
  import opened Nomenclatures
  import opened Ledger
  import opened OsvRows
  import opened Storage
  import opened FilterDtos
  import opened FilterUtils
  import opened Osv
  import opened OsvProofs
  import opened BalanceProofs

  /* ---------- balances at a date on or before the block date ---------- */

  /** As written, a target on or before the block date gets the snapshot's
      closing balances: everything moved up to the block date, whatever the
      target. */
  lemma SnapshotBranchIgnoresTarget(noms: seq<Item>, whs: seq<Warehouse>, units: seq<Unit>, txs: seq<Transaction>,
                                    slot: Option<(int, seq<SnapshotEntry>)>, target: int, block: int)
    requires Day0 <= block + 1 && target <= block
    requires SlotCurrent(slot, noms, txs, whs, block)
    ensures var r := BalancesAt(noms, whs, units, txs, slot, target, Some(block));
            |r| == |noms| &&
            forall i :: 0 <= i < |noms| ==> r[i].balance == Sum(Relevant(txs, noms[i], None), UpTo(block))
  {
    forall i | 0 <= i < |noms|
      ensures Snapshot(noms, txs, whs, block)[i].closing == Sum(Relevant(txs, noms[i], None), UpTo(block))
    {
      SnapshotEntryAt(noms, txs, whs, block, i);
    }
  }

  /** One receipt of 1 kg dated on the block date, asked for the day before:
      the balance reported is 1, though nothing had arrived by then. */
  lemma LaterReceiptCountedBeforeBlock(block: int)
    requires Day0 <= block
    ensures var u := Unit("kg", 1, "kg", 1, None);
            var n := Item("n", 1, "N", Some(u));
            var t := Transaction("T", n, None, u, 1.0, block);
            var r := BalancesAt([n], [], [u], [t], None, block - 1, Some(block));
            |r| == 1 && r[0].balance == 1.0 && Sum(Relevant([t], n, None), UpTo(block - 1)) == 0.0
  {
    var u := Unit("kg", 1, "kg", 1, None);
    var n := Item("n", 1, "N", Some(u));
    var t := Transaction("T", n, None, u, 1.0, block);
    assert Relevant([t], n, None) == [t] by {
      assert Matching(n, None)(t);
      assert [t][..0] == [];
    }
    SnapshotBranchIgnoresTarget([n], [], [u], [t], None, block - 1, block);
    assert [t][..0] == [];
    assert Sum([t], UpTo(block)) == 1.0 by {
      assert UpTo(block)(t);
    }
    assert Sum([t], UpTo(block - 1)) == 0.0 by {
      assert !UpTo(block - 1)(t);
    }
  }

  /** Balances at the target date: the snapshot serves only a target on or
      after the block date; an earlier target is computed from scratch. */
  function BalancesAtCorrected(noms: seq<Item>, whs: seq<Warehouse>, units: seq<Unit>, txs: seq<Transaction>,
                               slot: Option<(int, seq<SnapshotEntry>)>, target: int, block: Option<int>): seq<Balance>
  {
    if block.Some? && target < block.value then BalancesAt(noms, whs, units, txs, slot, target, None)
    else BalancesAt(noms, whs, units, txs, slot, target, block)
  }

  /** Without a block date, there is one balance per catalogue item holding
      everything moved up to the target date. */
  lemma BalancesWithoutBlock(noms: seq<Item>, whs: seq<Warehouse>, units: seq<Unit>, txs: seq<Transaction>,
                             slot: Option<(int, seq<SnapshotEntry>)>, target: int)
    requires Day0 <= target + 1
    ensures var r := BalancesAt(noms, whs, units, txs, slot, target, None);
            |r| == |noms| &&
            forall i :: 0 <= i < |noms| ==>
              r[i].item == Some(noms[i]) && r[i].balance == Sum(Relevant(txs, noms[i], None), UpTo(target))
  {
    forall i | 0 <= i < |noms| {
      RowClosing(noms[i], txs, whs, Day0, target, None);
    }
  }

  /** The corrected calculation gives, for every target date and every block
      date, one balance per catalogue item holding everything moved up to the
      target date. */
  lemma CorrectedBalancesAtTarget(noms: seq<Item>, whs: seq<Warehouse>, units: seq<Unit>, txs: seq<Transaction>,
                                  slot: Option<(int, seq<SnapshotEntry>)>, target: int, block: Option<int>)
    requires CatalogueConsistent(noms, txs) && KeyedByItem(txs)
    requires Day0 <= target + 1
    requires block.Some? ==> Day0 <= block.value + 1 && SlotCurrent(slot, noms, txs, whs, block.value)
    ensures var r := BalancesAtCorrected(noms, whs, units, txs, slot, target, block);
            |r| == |noms| &&
            forall i :: 0 <= i < |noms| ==>
              r[i].item == Some(noms[i]) && r[i].balance == Sum(Relevant(txs, noms[i], None), UpTo(target))
  {
    if block.None? || target < block.value {
      BalancesWithoutBlock(noms, whs, units, txs, slot, target);
    } else if target == block.value {
      SnapshotBranchIgnoresTarget(noms, whs, units, txs, slot, target, target);
      forall i | 0 <= i < |noms| ensures ItemById(noms, noms[i].id) == Some(noms[i]) {
        ItemByOwnId(noms, i);
        SnapshotEntryAt(noms, txs, whs, target, i);
      }
    } else {
      BalancesAfterBlockDate(noms, whs, units, txs, slot, target, block.value);
    }
  }

  /* ---------- the filter path's tables ---------- */

  /** As written, any non-empty statement makes the filter path raise: the
      first row's item has no `to_dict`. */
  lemma FilteredStatementRaises(noms: seq<Item>, txs: seq<Transaction>, whs: seq<Warehouse>, start: int, end: int,
                                wanted: Option<string>)
    requires |noms| > 0
    ensures var rows := Report(noms, txs, whs, start, end, wanted);
            rows[0].item.Some? && ProjectAsWritten(rows[0]).Raise? &&
            ProjectAsWritten(rows[0]).error.kind == AttributeError
  {
  }

  /** Even with an item `to_dict`, the source's warehouse and unit tables carry
      no id, so every rebuilt row has lost its warehouse and its unit. */
  lemma SourceDictsLoseWarehouseAndUnit(r: OsvRow, itemDict: Value, noms: seq<Item>, whs: seq<Warehouse>,
                                        units: seq<Unit>)
    requires itemDict.Dict? && HasKey(itemDict.entries, "id")
    ensures Rebuildable(ProjectWithSourceDicts(r, itemDict))
    ensures var back := Rebuild(ProjectWithSourceDicts(r, itemDict), noms, whs, units);
            back.warehouse == None && back.unit == None
  {
    TableSections(if r.warehouse.Some? then Warehouses.ToDict(r.warehouse.value) else NoWarehouse,
                  itemDict,
                  if r.unit.Some? then Units.ToDict(r.unit.value) else Dict([]),
                  r);
    assert Lookup([("name", Str(AllWarehouses))], "id") == None;
  }

  /** What rebuilding a row by id needs: its item, warehouse and unit are
      the first catalogue objects carrying their ids. */
  predicate Identifiable(r: OsvRow, noms: seq<Item>, whs: seq<Warehouse>, units: seq<Unit>)
  {
    r.item.Some? && ItemById(noms, r.item.value.id) == r.item &&
    (r.warehouse.Some? ==> WarehouseById(whs, r.warehouse.value.id) == r.warehouse) &&
    (r.unit.Some? ==> UnitById(units, r.unit.value.id) == r.unit)
  }

  /** The warehouse section with ids gives back the warehouse's id, or none. */
  lemma WarehouseSectionId(w: Option<Warehouse>)
    ensures IdField(if w.Some? then WarehouseDictWithId(w.value) else NoWarehouse) ==
            if w.Some? then Int(w.value.id) else Nil
  {
    assert Lookup([("name", Str(AllWarehouses))], "id") == None;
  }

  /** The unit section with ids gives back the unit's id, or none. */
  lemma UnitSectionId(u: Option<Unit>)
    ensures IdField(if u.Some? then UnitDictWithId(u.value) else Dict([])) ==
            if u.Some? then Int(u.value.id) else Nil
  {
  }

  /** With ids in the tables, rebuilding a projected row gives the row back. */
  lemma RebuildProject(r: OsvRow, noms: seq<Item>, whs: seq<Warehouse>, units: seq<Unit>)
    requires Identifiable(r, noms, whs, units)
    ensures Rebuildable(Project(r))
    ensures Rebuild(Project(r), noms, whs, units) == r
  {
    var w := if r.warehouse.Some? then WarehouseDictWithId(r.warehouse.value) else NoWarehouse;
    var u := if r.unit.Some? then UnitDictWithId(r.unit.value) else Dict([]);
    var e := Project(r).entries;
    TableSections(w, ItemDict(r.item.value), u, r);
    TableAmounts(w, ItemDict(r.item.value), u, r);
    WarehouseSectionId(r.warehouse);
    UnitSectionId(r.unit);
    assert IdField(DictGet(e, WarehouseKey)) == if r.warehouse.Some? then Int(r.warehouse.value.id) else Nil;
    assert IdField(DictGet(e, ItemKey)) == Int(r.item.value.id);
    assert IdField(DictGet(e, UnitKey)) == if r.unit.Some? then Int(r.unit.value.id) else Nil;
  }

  /** The table rows the filters keep and the rows rebuilt from them. */
  lemma KeptTables(rows: seq<OsvRow>, filters: seq<FilterDto>)
    requires ItemsNamed(rows) && PathsAreStrings(filters)
    ensures AllRebuildable(ProjectAll(rows)) && AllRebuildable(Narrow(ProjectAll(rows), filters))
    ensures forall d :: d in Narrow(ProjectAll(rows), filters) <==> d in ProjectAll(rows) && PassesAll(d, filters)
    ensures |Narrow(ProjectAll(rows), filters)| <= |rows|
  {
    ProjectedRebuildable(rows);
    NarrowKeepsRebuildable(ProjectAll(rows), filters);
    NarrowIsKeep(ProjectAll(rows), filters);
    KeepProperties(ProjectAll(rows), filters);
  }

  /** A position holding `x`. */
  lemma IndexOf<T>(xs: seq<T>, x: T) returns (i: nat)
    requires x in xs
    ensures i < |xs| && xs[i] == x
  {
    i :| 0 <= i < |xs| && xs[i] == x;
  }

  /** Every rebuilt row is a row whose table passes the filters. */
  lemma RebuiltRowsComeFromRows(rows: seq<OsvRow>, noms: seq<Item>, whs: seq<Warehouse>, units: seq<Unit>,
                                filters: seq<FilterDto>, x: OsvRow)
    requires ItemsNamed(rows) && PathsAreStrings(filters)
    requires forall i :: 0 <= i < |rows| ==> Identifiable(rows[i], noms, whs, units)
    requires AllRebuildable(Narrow(ProjectAll(rows), filters))
    requires x in RebuildAll(Narrow(ProjectAll(rows), filters), noms, whs, units)
    ensures x in rows && PassesAll(Project(x), filters)
  {
    KeptTables(rows, filters);
    var raw := ProjectAll(rows);
    var kept := Narrow(raw, filters);
    var out := RebuildAll(kept, noms, whs, units);
    var j := IndexOf(out, x);
    assert kept[j] in kept;
    var i := IndexOf(raw, kept[j]);
    RebuildProject(rows[i], noms, whs, units);
  }

  /** Every row whose table passes the filters is rebuilt. */
  lemma PassingRowsAreRebuilt(rows: seq<OsvRow>, noms: seq<Item>, whs: seq<Warehouse>, units: seq<Unit>,
                              filters: seq<FilterDto>, x: OsvRow)
    requires ItemsNamed(rows) && PathsAreStrings(filters)
    requires forall i :: 0 <= i < |rows| ==> Identifiable(rows[i], noms, whs, units)
    requires AllRebuildable(Narrow(ProjectAll(rows), filters))
    requires x in rows && PassesAll(Project(x), filters)
    ensures x in RebuildAll(Narrow(ProjectAll(rows), filters), noms, whs, units)
  {
    KeptTables(rows, filters);
    var raw := ProjectAll(rows);
    var kept := Narrow(raw, filters);
    var i := IndexOf(rows, x);
    assert raw[i] == Project(x);
    var j := IndexOf(kept, Project(x));
    RebuildProject(x, noms, whs, units);
    assert RebuildAll(kept, noms, whs, units)[j] == x;
  }

  /** The rows whose tables pass every filter, in statement order. */
  function PassingRows(rows: seq<OsvRow>, filters: seq<FilterDto>): seq<OsvRow>
    requires ItemsNamed(rows) && PathsAreStrings(filters)
  {
    if rows == [] then []
    else
      var last := rows[|rows| - 1];
      PassingRows(rows[..|rows| - 1], filters) + (if PassesAll(Project(last), filters) then [last] else [])
  }

  /** One step of `PassingRows`: the rows of the front, then the last row
      when its table passes. */
  lemma PassingRowsSnoc(rows: seq<OsvRow>, filters: seq<FilterDto>)
    requires rows != [] && ItemsNamed(rows) && PathsAreStrings(filters)
    ensures PassingRows(rows, filters) ==
            PassingRows(rows[..|rows| - 1], filters) +
            (if PassesAll(Project(rows[|rows| - 1]), filters) then [rows[|rows| - 1]] else [])
  {
  }

  /** A non-empty list is its front and its last element. */
  lemma SplitLast<T>(xs: seq<T>)
    requires xs != []
    ensures xs == xs[..|xs| - 1] + [xs[|xs| - 1]]
  {
  }

  /** Appending an element to the list and, optionally, to a subsequence of it
      keeps the subsequence. */
  lemma SubsequenceSnoc<T>(xs: seq<T>, ys: seq<T>, y: T, keep: bool)
    requires IsSubsequence(xs, ys)
    ensures IsSubsequence(xs + (if keep then [y] else []), ys + [y])
  {
    var zs := ys + [y];
    assert zs[..|zs| - 1] == ys && zs[|zs| - 1] == y;
    if keep {
      var ks := xs + [y];
      assert ks[..|ks| - 1] == xs && ks[|ks| - 1] == y;
      assert IsSubsequence(ks, zs);
    } else {
      assert xs + [] == xs;
      assert IsSubsequence(xs, zs);
    }
  }

  /** `PassingRows` keeps the statement's order. */
  lemma {:induction false} PassingRowsOrder(rows: seq<OsvRow>, filters: seq<FilterDto>)
    requires ItemsNamed(rows) && PathsAreStrings(filters)
    ensures IsSubsequence(PassingRows(rows, filters), rows)
    decreases |rows|
  {
    if rows != [] {
      var front := rows[..|rows| - 1];
      var last := rows[|rows| - 1];
      PassingRowsOrder(front, filters);
      PassingRowsSnoc(rows, filters);
      SplitLast(rows);
      SubsequenceSnoc(PassingRows(front, filters), front, last, PassesAll(Project(last), filters));
    }
  }

  /** A row is kept exactly when it is a statement row whose table passes. */
  lemma {:induction false} PassingRowsMembership(rows: seq<OsvRow>, filters: seq<FilterDto>, x: OsvRow)
    requires ItemsNamed(rows) && PathsAreStrings(filters)
    ensures x in PassingRows(rows, filters) <==> x in rows && PassesAll(Project(x), filters)
    decreases |rows|
  {
    if rows != [] {
      var front := rows[..|rows| - 1];
      var last := rows[|rows| - 1];
      PassingRowsMembership(front, filters, x);
      PassingRowsSnoc(rows, filters);
      SplitLast(rows);
      var keep := PassesAll(Project(last), filters);
      assert x in PassingRows(rows, filters) <==> x in PassingRows(front, filters) || (keep && x == last);
      assert x in rows <==> x in front || x == last;
    }
  }

  /** `PassingRows` keeps the statement's order and exactly the passing rows. */
  lemma PassingRowsProperties(rows: seq<OsvRow>, filters: seq<FilterDto>)
    requires ItemsNamed(rows) && PathsAreStrings(filters)
    ensures IsSubsequence(PassingRows(rows, filters), rows)
    ensures forall x :: x in PassingRows(rows, filters) <==> x in rows && PassesAll(Project(x), filters)
  {
    PassingRowsOrder(rows, filters);
    forall x ensures x in PassingRows(rows, filters) <==> x in rows && PassesAll(Project(x), filters) {
      PassingRowsMembership(rows, filters, x);
    }
  }

  lemma AllRebuildableAppend(ds: seq<Value>, es: seq<Value>)
    requires AllRebuildable(ds) && AllRebuildable(es)
    ensures AllRebuildable(ds + es)
  {
    var des := ds + es;
    forall i | 0 <= i < |des| ensures Rebuildable(des[i]) {
      if i < |ds| { assert des[i] == ds[i]; } else { assert des[i] == es[i - |ds|]; }
    }
  }

  lemma RebuildAllPrefix(ds: seq<Value>, es: seq<Value>, noms: seq<Item>, whs: seq<Warehouse>, units: seq<Unit>)
    requires AllRebuildable(ds) && AllRebuildable(ds + es)
    ensures RebuildAll(ds + es, noms, whs, units)[..|ds|] == RebuildAll(ds, noms, whs, units)
  {
    forall i | 0 <= i < |ds|
      ensures RebuildAll(ds + es, noms, whs, units)[i] == RebuildAll(ds, noms, whs, units)[i]
    {
      assert (ds + es)[i] == ds[i];
    }
  }

  lemma RebuildAllSuffix(ds: seq<Value>, es: seq<Value>, noms: seq<Item>, whs: seq<Warehouse>, units: seq<Unit>)
    requires AllRebuildable(es) && AllRebuildable(ds + es)
    ensures RebuildAll(ds + es, noms, whs, units)[|ds|..] == RebuildAll(es, noms, whs, units)
  {
    forall i | 0 <= i < |es|
      ensures RebuildAll(ds + es, noms, whs, units)[|ds| + i] == RebuildAll(es, noms, whs, units)[i]
    {
      assert (ds + es)[|ds| + i] == es[i];
    }
  }

  lemma RebuildAllAppend(ds: seq<Value>, es: seq<Value>, noms: seq<Item>, whs: seq<Warehouse>, units: seq<Unit>)
    requires AllRebuildable(ds) && AllRebuildable(es) && AllRebuildable(ds + es)
    ensures RebuildAll(ds + es, noms, whs, units) == RebuildAll(ds, noms, whs, units) + RebuildAll(es, noms, whs, units)
  {
    RebuildAllPrefix(ds, es, noms, whs, units);
    RebuildAllSuffix(ds, es, noms, whs, units);
    SplitConcat(RebuildAll(ds + es, noms, whs, units), RebuildAll(ds, noms, whs, units),
                RebuildAll(es, noms, whs, units), |ds|);
  }

  /** A sequence is its part before `k` followed by its part from `k` on. */
  lemma SplitConcat<T>(l: seq<T>, a: seq<T>, b: seq<T>, k: int)
    requires 0 <= k <= |l| && l[..k] == a && l[k..] == b
    ensures l == a + b
  {
    assert l == l[..k] + l[k..];
  }

  /** The table of a row, kept or not, as the one-element tail it adds. */
  function KeptTail(r: OsvRow, filters: seq<FilterDto>): seq<Value>
    requires r.item.Some? && PathsAreStrings(filters)
  {
    if PassesAll(Project(r), filters) then [Project(r)] else []
  }

  /** Keeping the tables of one more row adds at most that row's table. */
  lemma KeptSnoc(rows: seq<OsvRow>, filters: seq<FilterDto>)
    requires rows != [] && ItemsNamed(rows) && PathsAreStrings(filters)
    ensures Keep(ProjectAll(rows), filters) ==
            Keep(ProjectAll(rows[..|rows| - 1]), filters) + KeptTail(rows[|rows| - 1], filters)
  {
    var front := rows[..|rows| - 1];
    assert ProjectAll(rows) == ProjectAll(front) + [Project(rows[|rows| - 1])];
    KeepIfAppendOne(ProjectAll(front), Project(rows[|rows| - 1]), o => PathsAreStrings(filters) && PassesAll(o, filters));
  }

  /** The tail rebuilds to the row itself when its table passes. */
  lemma RebuildTail(r: OsvRow, noms: seq<Item>, whs: seq<Warehouse>, units: seq<Unit>, filters: seq<FilterDto>)
    requires Identifiable(r, noms, whs, units) && PathsAreStrings(filters)
    ensures AllRebuildable(KeptTail(r, filters))
    ensures RebuildAll(KeptTail(r, filters), noms, whs, units) ==
            if PassesAll(Project(r), filters) then [r] else []
  {
    RebuildProject(r, noms, whs, units);
  }

  /** Rebuilding the tables the filters keep gives the passing rows, in order. */
  lemma {:induction false} RebuildKept(rows: seq<OsvRow>, noms: seq<Item>, whs: seq<Warehouse>, units: seq<Unit>,
                                       filters: seq<FilterDto>)
    requires ItemsNamed(rows) && PathsAreStrings(filters)
    requires forall i :: 0 <= i < |rows| ==> Identifiable(rows[i], noms, whs, units)
    ensures AllRebuildable(Keep(ProjectAll(rows), filters))
    ensures RebuildAll(Keep(ProjectAll(rows), filters), noms, whs, units) == PassingRows(rows, filters)
    decreases |rows|
  {
    if rows == [] {
      assert ProjectAll(rows) == [];
    } else {
      var front := rows[..|rows| - 1];
      var last := rows[|rows| - 1];
      RebuildKept(front, noms, whs, units, filters);
      KeptSnoc(rows, filters);
      RebuildTail(last, noms, whs, units, filters);
      AllRebuildableAppend(Keep(ProjectAll(front), filters), KeptTail(last, filters));
      RebuildAllAppend(Keep(ProjectAll(front), filters), KeptTail(last, filters), noms, whs, units);
    }
  }

  /** With ids in the tables, the filtered statement holds exactly the rows of
      the unfiltered one whose tables pass every filter, and no more rows. */
  lemma FilteredRowsAreStatementRows(noms: seq<Item>, txs: seq<Transaction>, whs: seq<Warehouse>, units: seq<Unit>,
                                     start: int, end: int, wanted: Option<string>, filters: seq<FilterDto>)
    requires PathsAreStrings(filters) && filters != []
    requires var rows := Report(noms, txs, whs, start, end, wanted);
             forall i :: 0 <= i < |rows| ==> Identifiable(rows[i], noms, whs, units)
    ensures var rows := Report(noms, txs, whs, start, end, wanted);
            var out := GenerateSpec(noms, txs, whs, units, start, end, wanted, filters);
            |out| <= |rows| &&
            forall x :: x in out <==> x in rows && PassesAll(Project(x), filters)
    ensures var rows := Report(noms, txs, whs, start, end, wanted);
            ItemsNamed(rows) &&
            GenerateSpec(noms, txs, whs, units, start, end, wanted, filters) == PassingRows(rows, filters)
  {
    var rows := Report(noms, txs, whs, start, end, wanted);
    ReportItemsNamed(noms, txs, whs, start, end, wanted);
    KeptTables(rows, filters);
    var out := GenerateSpec(noms, txs, whs, units, start, end, wanted, filters);
    assert out == RebuildAll(Narrow(ProjectAll(rows), filters), noms, whs, units);
    NarrowIsKeep(ProjectAll(rows), filters);
    RebuildKept(rows, noms, whs, units, filters);
    forall x ensures x in out <==> x in rows && PassesAll(Project(x), filters) {
      if x in out {
        RebuiltRowsComeFromRows(rows, noms, whs, units, filters, x);
      }
      if x in rows && PassesAll(Project(x), filters) {
        PassingRowsAreRebuilt(rows, noms, whs, units, filters, x);
      }
    }
  }
}
