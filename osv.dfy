/** The turnover statement ("ОСВ") engine, task2/src/logics/osv_service.py:
    period aggregation per catalogue item (`OSVPrototype.generate`), the
    snapshot of closing balances at a block date
    (`OSVCalculator.compute_turnovers_until_block`) and balances at a date
    computed from that snapshot plus the later movements
    (`OSVCalculator.compute_balances_at`). */
module Osv {
  import opened Results
  import opened Text
  import opened Values
  import opened Units
  import opened Warehouses
  import opened Nomenclatures
  import opened Ledger
  import opened OsvRows
  import opened Storage
  import opened FilterDtos
  import opened FilterUtils

  /* ---------- warehouse matching and movement selection ---------- */

  /** `_warehouse_match(tx_wh, wanted)`: no filter (None or "") matches
      everything; a movement without a warehouse matches no filter; otherwise
      the lower-cased filter must occur in the lower-cased name or equal the
      lower-cased code. */
  predicate WarehouseMatch(w: Option<Warehouse>, wanted: Option<string>)
  {
    if wanted.None? || wanted.value == "" then true
    else if w.None? then false
    else Contains(Lower(w.value.name), Lower(wanted.value)) || Lower(wanted.value) == Lower(w.value.code)
  }

  /** `t.nomenclature == n`: references compare by unique code. */
  predicate SameItem(t: Transaction, n: Item)
  {
    t.item.uid == n.uid
  }

  /** The movements satisfying `p`, in their order. */
  function Where(ts: seq<Transaction>, p: Transaction -> bool): (r: seq<Transaction>)
    ensures |r| <= |ts|
    ensures forall t :: t in r <==> t in ts && p(t)
  {
    if ts == [] then []
    else Where(ts[..|ts| - 1], p) + (if p(ts[|ts| - 1]) then [ts[|ts| - 1]] else [])
  }

  /** `Where` keeps the ledger's order, and every occurrence of a satisfying
      movement and nothing else; these two facts determine its result. */
  lemma {:induction false} WhereKeepsOrder(ts: seq<Transaction>, p: Transaction -> bool)
    ensures IsSubsequence(Where(ts, p), ts)
    ensures forall t :: multiset(Where(ts, p))[t] == if p(t) then multiset(ts)[t] else 0
    decreases |ts|
  {
    if ts != [] {
      var front := ts[..|ts| - 1];
      var last := ts[|ts| - 1];
      assert ts == front + [last];
      WhereKeepsOrder(front, p);
      var kept := Where(front, p);
      if p(last) {
        assert Where(ts, p) == kept + [last];
        assert (kept + [last])[..|kept|] == kept;
      } else {
        assert Where(ts, p) == kept;
      }
    }
  }

  /** The first movement `Where` keeps is the first satisfying movement of the
      ledger: what the statement reads as `relevant[0]`. */
  lemma {:induction false} WhereFirst(ts: seq<Transaction>, p: Transaction -> bool, i: int)
    requires 0 <= i < |ts| && p(ts[i])
    requires forall j :: 0 <= j < i ==> !p(ts[j])
    ensures Where(ts, p) != [] && Where(ts, p)[0] == ts[i]
    decreases |ts|
  {
    var front := ts[..|ts| - 1];
    var last := ts[|ts| - 1];
    assert Where(ts, p) == Where(front, p) + (if p(last) then [last] else []);
    if i < |ts| - 1 {
      assert front[i] == ts[i];
      forall j | 0 <= j < i ensures !p(front[j]) {
        assert front[j] == ts[j];
      }
      WhereFirst(front, p, i);
    } else {
      WhereNone(front, p);
    }
  }

  /** Nothing is kept when no movement satisfies `p`. */
  lemma {:induction false} WhereNone(ts: seq<Transaction>, p: Transaction -> bool)
    requires forall j :: 0 <= j < |ts| ==> !p(ts[j])
    ensures Where(ts, p) == []
    decreases |ts|
  {
    if ts != [] {
      WhereNone(ts[..|ts| - 1], p);
    }
  }

  /** Movements of item `n` in a warehouse matching `wanted`. */
  function Matching(n: Item, wanted: Option<string>): Transaction -> bool
  {
    (t: Transaction) => SameItem(t, n) && WarehouseMatch(t.warehouse, wanted)
  }

  /** The movements of item `n` in a matching warehouse, in ledger order. */
  function Relevant(txs: seq<Transaction>, n: Item, wanted: Option<string>): seq<Transaction>
  {
    Where(txs, Matching(n, wanted))
  }

  /** Movements dated before `day`. */
  function Before(day: int): Transaction -> bool
  {
    (t: Transaction) => t.date < day
  }

  /** Movements dated on or before `day`. */
  function UpTo(day: int): Transaction -> bool
  {
    (t: Transaction) => t.date <= day
  }

  /** Movements dated from `first` to `last`, both included. */
  function Between(first: int, last: int): Transaction -> bool
  {
    (t: Transaction) => first <= t.date <= last
  }

  /** Receipts dated from `first` to `last`. */
  function ReceiptsBetween(first: int, last: int): Transaction -> bool
  {
    (t: Transaction) => first <= t.date <= last && t.quantity > 0.0
  }

  /** Issues dated from `first` to `last`. */
  function IssuesBetween(first: int, last: int): Transaction -> bool
  {
    (t: Transaction) => first <= t.date <= last && t.quantity < 0.0
  }

  /** The sum of the base quantities of the movements satisfying `keep`. */
  function Sum(ts: seq<Transaction>, keep: Transaction -> bool): real
  {
    if ts == [] then 0.0
    else Sum(ts[..|ts| - 1], keep) + (if keep(ts[|ts| - 1]) then Qty(ts[|ts| - 1]) else 0.0)
  }

  /** Everything moved before the period. */
  function Opening(rel: seq<Transaction>, start: int): real
  {
    Sum(rel, Before(start))
  }

  /** Receipts within the period. */
  function Incoming(rel: seq<Transaction>, start: int, end: int): real
  {
    Sum(rel, ReceiptsBetween(start, end))
  }

  /** Issues within the period, as a positive amount. */
  function Outgoing(rel: seq<Transaction>, start: int, end: int): real
  {
    -Sum(rel, IssuesBetween(start, end))
  }

  /** Whether some movement satisfies `keep`. */
  predicate Selects(ts: seq<Transaction>, keep: Transaction -> bool)
  {
    exists i :: 0 <= i < |ts| && keep(ts[i])
  }

  /** Nothing selected, nothing summed. */
  lemma {:induction false} SumOfNone(ts: seq<Transaction>, keep: Transaction -> bool)
    requires !Selects(ts, keep)
    ensures Sum(ts, keep) == 0.0
  {
    if ts != [] {
      var front := ts[..|ts| - 1];
      assert forall i :: 0 <= i < |front| ==> front[i] == ts[i];
      SumOfNone(front, keep);
    }
  }

  /** Python's `sum(...)` over the movements satisfying `keep`: it starts from
      the int 0, which stays the result when nothing is selected; otherwise
      the result is a float, every quantity being one. */
  function Total(ts: seq<Transaction>, keep: Transaction -> bool): (r: Amount)
    ensures r.Real() == Sum(ts, keep)
    ensures r.IntAmount? <==> !Selects(ts, keep)
    ensures r.IntAmount? ==> r.i == 0
  {
    if Selects(ts, keep) then FloatAmount(Sum(ts, keep))
    else SumOfNone(ts, keep); IntAmount(0)
  }

  /** The opening amount as the row stores it. */
  function OpeningAmount(rel: seq<Transaction>, start: int): (r: Amount)
    ensures r.Real() == Opening(rel, start)
  {
    Total(rel, Before(start))
  }

  /** The receipts as the row stores them. */
  function IncomingAmount(rel: seq<Transaction>, start: int, end: int): (r: Amount)
    ensures r.Real() == Incoming(rel, start, end)
  {
    Total(rel, ReceiptsBetween(start, end))
  }

  /** The issues as the row stores them: `-sum(...)`, so the int 0 when the
      period has none. */
  function OutgoingAmount(rel: seq<Transaction>, start: int, end: int): (r: Amount)
    ensures r.Real() == Outgoing(rel, start, end)
  {
    Negate(Total(rel, IssuesBetween(start, end)))
  }

  /** A period with no movements stores the int 0 for both turnovers, and its
      `str` is "0", not "0.0". */
  lemma QuietPeriodIsIntZero(rel: seq<Transaction>, start: int, end: int)
    requires forall i :: 0 <= i < |rel| ==> !(start <= rel[i].date <= end)
    ensures IncomingAmount(rel, start, end) == IntAmount(0)
    ensures OutgoingAmount(rel, start, end) == IntAmount(0)
    ensures ToStr(AmountValue(IntAmount(0))) == "0"
  {
    assert !Selects(rel, ReceiptsBetween(start, end));
    assert !Selects(rel, IssuesBetween(start, end));
  }

  /** The unit a row is reported in: the movement unit's base, or the unit
      itself when it has none. */
  function BaseUnit(u: Unit): Unit
  {
    if u.base.Some? then u.base.value else u
  }

  /** `next((w for w in warehouses if match), None)`. */
  function FirstMatching(whs: seq<Warehouse>, wanted: Option<string>): (r: Option<Warehouse>)
    ensures r.Some? ==> exists k :: 0 <= k < |whs| && whs[k] == r.value && WarehouseMatch(r, wanted) &&
                                   forall j :: 0 <= j < k ==> !WarehouseMatch(Some(whs[j]), wanted)
    ensures r.None? ==> forall i :: 0 <= i < |whs| ==> !WarehouseMatch(Some(whs[i]), wanted)
  {
    if whs == [] then None
    else if WarehouseMatch(Some(whs[0]), wanted) then Some(whs[0])
    else
      var rest := FirstMatching(whs[1..], wanted);
      if rest.Some? then
        var k :| 0 <= k < |whs[1..]| && whs[1..][k] == rest.value && WarehouseMatch(rest, wanted) &&
                 forall j :: 0 <= j < k ==> !WarehouseMatch(Some(whs[1..][j]), wanted);
        assert whs[k + 1] == rest.value;
        assert forall j :: 0 <= j < k + 1 ==> !WarehouseMatch(Some(whs[j]), wanted) by {
          forall j | 0 <= j < k + 1 ensures !WarehouseMatch(Some(whs[j]), wanted) {
            if j > 0 { assert whs[j] == whs[1..][j - 1]; }
          }
        }
        rest
      else rest
  }

  /** The `0.0` the row of an item without movements holds. */
  const Zero: Amount := FloatAmount(0.0)

  /** The row of one catalogue item. Without matching movements it is all
      zeros, in the item's unit and the first matching warehouse; otherwise the
      first movement gives warehouse and unit and the sums give the amounts. */
  function RowFor(n: Item, txs: seq<Transaction>, whs: seq<Warehouse>, start: int, end: int,
                  wanted: Option<string>): OsvRow
  {
    var rel := Relevant(txs, n, wanted);
    if rel == [] then OsvRow(FirstMatching(whs, wanted), Some(n), n.unit, Zero, Zero, Zero)
    else OsvRow(rel[0].warehouse, Some(n), Some(BaseUnit(rel[0].unit)),
                OpeningAmount(rel, start), IncomingAmount(rel, start, end), OutgoingAmount(rel, start, end))
  }

  /** The unfiltered statement: one row per catalogue item, in catalogue order. */
  function Report(noms: seq<Item>, txs: seq<Transaction>, whs: seq<Warehouse>, start: int, end: int,
                  wanted: Option<string>): seq<OsvRow>
  {
    seq(|noms|, i requires 0 <= i < |noms| => RowFor(noms[i], txs, whs, start, end, wanted))
  }

  /* ---------- the filter path: rows as dicts and back ---------- */

  const WarehouseKey: string := "Склад"
  const ItemKey: string := "Номенклатура"
  const UnitKey: string := "Единица"
  const OpeningKey: string := "Начальный остаток"
  const IncomingKey: string := "Приход"
  const OutgoingKey: string := "Расход"
  const ClosingKey: string := "Конечный остаток"
  const AllWarehouses: string := "Все склады"

  /** The source's dicts extended by the `id` the rebuild step reads back. */
  function WarehouseDictWithId(w: Warehouse): Value
  {
    Dict([("id", Int(w.id))] + Warehouses.ToDict(w).entries)
  }

  function ItemDict(n: Item): Value
  {
    Dict([("id", Int(n.id)), ("name", Str(n.name))])
  }

  function UnitDictWithId(u: Unit): Value
  {
    Dict([("id", Int(u.id))] + Units.ToDict(u).entries)
  }

  /** An amount as the Python number it is. */
  function AmountValue(a: Amount): Value
  {
    match a
    case IntAmount(i) => Int(i)
    case FloatAmount(x) => Float(x)
  }

  /** A row as a table: the three sections given, then the amounts. */
  function Table(warehouse: Value, item: Value, unit: Value, r: OsvRow): Value
  {
    Dict([(WarehouseKey, warehouse), (ItemKey, item), (UnitKey, unit),
          (OpeningKey, AmountValue(r.opening)), (IncomingKey, AmountValue(r.incoming)),
          (OutgoingKey, AmountValue(r.outgoing)), (ClosingKey, AmountValue(r.Closing()))])
  }

  /** The warehouse section of a row without a warehouse. */
  const NoWarehouse: Value := Dict([("name", Str(AllWarehouses))])

  /** A row as the table the filters are evaluated on, with ids for the
      warehouse, the item and the unit. */
  function Project(r: OsvRow): Value
    requires r.item.Some?
  {
    Table(if r.warehouse.Some? then WarehouseDictWithId(r.warehouse.value) else NoWarehouse,
          ItemDict(r.item.value),
          if r.unit.Some? then UnitDictWithId(r.unit.value) else Dict([]),
          r)
  }

  /** The table row as the source builds it: the warehouse's and the unit's
      `to_dict` (which carry no `id`), and the item's `to_dict`, which
      `nomenclature_model` does not define, so building any row raises. */
  function ProjectAsWritten(r: OsvRow): Result<Value>
    requires r.item.Some?
  {
    Fail(AttributeError, "'nomenclature_model' object has no attribute 'to_dict'")
  }

  /** The table row the source would build if the item had a `to_dict` giving
      `itemDict`: warehouse and unit come from their own `to_dict`, without ids. */
  function ProjectWithSourceDicts(r: OsvRow, itemDict: Value): Value
  {
    Table(if r.warehouse.Some? then Warehouses.ToDict(r.warehouse.value) else NoWarehouse,
          itemDict,
          if r.unit.Some? then Units.ToDict(r.unit.value) else Dict([]),
          r)
  }

  /** The keys of a table differ from one another. */
  lemma TableKeysDiffer()
    ensures WarehouseKey != ItemKey && WarehouseKey != UnitKey && ItemKey != UnitKey
    ensures forall k :: k in [OpeningKey, IncomingKey, OutgoingKey] ==>
              k != WarehouseKey && k != ItemKey && k != UnitKey
    ensures OpeningKey != IncomingKey && OpeningKey != OutgoingKey && IncomingKey != OutgoingKey
  {
    assert |WarehouseKey| == 5 && |ItemKey| == 12 && |UnitKey| == 7;
    assert |OpeningKey| == 17 && |IncomingKey| == 6 && |OutgoingKey| == 6;
    assert IncomingKey[0] != OutgoingKey[0];
  }

  /** A table's sections read back as given. */
  lemma TableSections(warehouse: Value, item: Value, unit: Value, r: OsvRow)
    ensures var e := Table(warehouse, item, unit, r).entries;
            Lookup(e, WarehouseKey) == Some(warehouse) && Lookup(e, ItemKey) == Some(item) &&
            Lookup(e, UnitKey) == Some(unit)
  {
    var e := Table(warehouse, item, unit, r).entries;
    TableKeysDiffer();
    LookupAt(e, 1);
    LookupAt(e, 2);
  }

  lemma TableOpening(warehouse: Value, item: Value, unit: Value, r: OsvRow)
    ensures Lookup(Table(warehouse, item, unit, r).entries, OpeningKey) == Some(AmountValue(r.opening))
  {
    var e := Table(warehouse, item, unit, r).entries;
    TableKeysDiffer();
    LookupAt(e, 3);
  }

  lemma TableIncoming(warehouse: Value, item: Value, unit: Value, r: OsvRow)
    ensures Lookup(Table(warehouse, item, unit, r).entries, IncomingKey) == Some(AmountValue(r.incoming))
  {
    var e := Table(warehouse, item, unit, r).entries;
    assert e[0].0 != IncomingKey by { assert |WarehouseKey| == 5 && |IncomingKey| == 6; }
    assert e[1].0 != IncomingKey by { assert |ItemKey| == 12 && |IncomingKey| == 6; }
    assert e[2].0 != IncomingKey by { assert |UnitKey| == 7 && |IncomingKey| == 6; }
    assert e[3].0 != IncomingKey by { assert |OpeningKey| == 17 && |IncomingKey| == 6; }
    LookupAt(e, 4);
  }

  lemma TableOutgoing(warehouse: Value, item: Value, unit: Value, r: OsvRow)
    ensures Lookup(Table(warehouse, item, unit, r).entries, OutgoingKey) == Some(AmountValue(r.outgoing))
  {
    var e := Table(warehouse, item, unit, r).entries;
    assert e[0].0 != OutgoingKey by { assert |WarehouseKey| == 5 && |OutgoingKey| == 6; }
    assert e[1].0 != OutgoingKey by { assert |ItemKey| == 12 && |OutgoingKey| == 6; }
    assert e[2].0 != OutgoingKey by { assert |UnitKey| == 7 && |OutgoingKey| == 6; }
    assert e[3].0 != OutgoingKey by { assert |OpeningKey| == 17 && |OutgoingKey| == 6; }
    assert e[4].0 != OutgoingKey by { assert IncomingKey[0] != OutgoingKey[0]; }
    LookupAt(e, 5);
  }

  /** A table's amounts read back as the row's. */
  lemma TableAmounts(warehouse: Value, item: Value, unit: Value, r: OsvRow)
    ensures var e := Table(warehouse, item, unit, r).entries;
            AmountOf(e, OpeningKey) == r.opening && AmountOf(e, IncomingKey) == r.incoming &&
            AmountOf(e, OutgoingKey) == r.outgoing
  {
    TableOpening(warehouse, item, unit, r);
    TableIncoming(warehouse, item, unit, r);
    TableOutgoing(warehouse, item, unit, r);
  }

  /** `d.get("id")` on a nested dict (`{}` when the section is missing). */
  function IdField(v: Value): Value
  {
    if v.Dict? then DictGet(v.entries, "id") else Nil
  }

  /** `r.get(key, 0.0)` read as an amount: the number stored under `key`, or
      the float 0.0 without one. The statement's tables hold only ints and
      floats there; any other value is read as 0.0. */
  function AmountOf(entries: seq<(string, Value)>, key: string): Amount
  {
    match Lookup(entries, key)
    case None => FloatAmount(0.0)
    case Some(v) =>
      if v.Float? then FloatAmount(v.x)
      else if v.Int? then IntAmount(v.i)
      else if v.Bool? then IntAmount(if v.b then 1 else 0)
      else FloatAmount(0.0)
  }

  /** What the rebuild step needs of a table row so that it does not raise: a
      dict whose item section is a dict holding an "id" (indexing a missing
      key raises `KeyError`), and whose warehouse and unit sections, where
      present, are dicts (`get("id")` is called on them). */
  predicate Rebuildable(d: Value)
  {
    && d.Dict?
    && Lookup(d.entries, ItemKey).Some? && Lookup(d.entries, ItemKey).value.Dict?
    && HasKey(Lookup(d.entries, ItemKey).value.entries, "id")
    && (Lookup(d.entries, WarehouseKey).Some? ==> Lookup(d.entries, WarehouseKey).value.Dict?)
    && (Lookup(d.entries, UnitKey).Some? ==> Lookup(d.entries, UnitKey).value.Dict?)
  }

  /** A table row back as a statement row: the warehouse, item and unit found by
      the ids the row carries (None without an id or when no object has it), the
      amounts read back. */
  function Rebuild(d: Value, noms: seq<Item>, whs: seq<Warehouse>, units: seq<Unit>): OsvRow
    requires Rebuildable(d)
  {
    var whId := IdField(DictGet(d.entries, WarehouseKey));
    var nomId := IdField(DictGet(d.entries, ItemKey));
    var unitId := IdField(DictGet(d.entries, UnitKey));
    OsvRow(if whId.Int? then WarehouseById(whs, whId.i) else None,
           if nomId.Int? then ItemById(noms, nomId.i) else None,
           if unitId.Int? then UnitById(units, unitId.i) else None,
           AmountOf(d.entries, OpeningKey), AmountOf(d.entries, IncomingKey),
           AmountOf(d.entries, OutgoingKey))
  }

  /** Every row of the unfiltered statement names its item. */
  predicate ItemsNamed(rows: seq<OsvRow>)
  {
    forall i :: 0 <= i < |rows| ==> rows[i].item.Some?
  }

  lemma ReportItemsNamed(noms: seq<Item>, txs: seq<Transaction>, whs: seq<Warehouse>, start: int, end: int,
                         wanted: Option<string>)
    ensures ItemsNamed(Report(noms, txs, whs, start, end, wanted))
  {
  }

  function ProjectAll(rows: seq<OsvRow>): (r: seq<Value>)
    requires ItemsNamed(rows)
    ensures |r| == |rows| && forall i :: 0 <= i < |rows| ==> r[i] == Project(rows[i])
  {
    seq(|rows|, i requires 0 <= i < |rows| => Project(rows[i]))
  }

  predicate AllRebuildable(ds: seq<Value>)
  {
    forall i :: 0 <= i < |ds| ==> Rebuildable(ds[i])
  }

  function RebuildAll(ds: seq<Value>, noms: seq<Item>, whs: seq<Warehouse>, units: seq<Unit>): (r: seq<OsvRow>)
    requires AllRebuildable(ds)
    ensures |r| == |ds| && forall i :: 0 <= i < |ds| ==> r[i] == Rebuild(ds[i], noms, whs, units)
  {
    seq(|ds|, i requires 0 <= i < |ds| => Rebuild(ds[i], noms, whs, units))
  }

  /** `generate(start, end, warehouse, filters)`: the statement, and with a
      non-empty filter list, its rows kept by the filters and rebuilt. */
  function GenerateSpec(noms: seq<Item>, txs: seq<Transaction>, whs: seq<Warehouse>, units: seq<Unit>,
                        start: int, end: int, wanted: Option<string>, filters: seq<FilterDto>): seq<OsvRow>
    requires PathsAreStrings(filters)
  {
    var rows := Report(noms, txs, whs, start, end, wanted);
    if filters == [] then rows
    else
      ReportItemsNamed(noms, txs, whs, start, end, wanted);
      ProjectedRebuildable(rows);
      var kept := Narrow(ProjectAll(rows), filters);
      NarrowKeepsRebuildable(ProjectAll(rows), filters);
      RebuildAll(kept, noms, whs, units)
  }

  /** Narrowing keeps only rows of its input, so projected rows stay rebuildable. */
  lemma NarrowKeepsRebuildable(ds: seq<Value>, filters: seq<FilterDto>)
    requires PathsAreStrings(filters)
    requires AllRebuildable(ds)
    ensures AllRebuildable(Narrow(ds, filters))
  {
    NarrowKeepsProperty(ds, filters, Rebuildable);
  }

  /** Projected rows are rebuildable. */
  lemma ProjectedRebuildable(rows: seq<OsvRow>)
    requires ItemsNamed(rows)
    ensures AllRebuildable(ProjectAll(rows))
  {
    forall i | 0 <= i < |rows| ensures Rebuildable(ProjectAll(rows)[i]) {
      var r := rows[i];
      var item := ItemDict(r.item.value);
      TableSections(if r.warehouse.Some? then WarehouseDictWithId(r.warehouse.value) else NoWarehouse,
                    item,
                    if r.unit.Some? then UnitDictWithId(r.unit.value) else Dict([]),
                    r);
      assert item.entries[0].0 == "id";
    }
  }

  /* ---------- snapshots and balances ---------- */

  /** A snapshot entry from a statement row: ids of warehouse, item and unit,
      the closing balance and the block date. */
  function EntryOf(r: OsvRow, block: int): SnapshotEntry
    requires r.item.Some?
  {
    SnapshotEntry(WarehouseId(r.warehouse), r.item.value.id, UnitId(r.unit), r.Closing().Real(), block)
  }

  /** The snapshot `compute_turnovers_until_block(block)` takes: one entry per
      row of the statement from 1900-01-01 to the block date. */
  function Snapshot(noms: seq<Item>, txs: seq<Transaction>, whs: seq<Warehouse>, block: int): (s: seq<SnapshotEntry>)
  {
    var rows := Report(noms, txs, whs, Day0, block, None);
    seq(|rows|, i requires 0 <= i < |rows| => EntryOf(rows[i], block))
  }

  /** The loop of `compute_turnovers_until_block` turning rows into entries. */
  method EntriesOf(rows: seq<OsvRow>, block: int) returns (entries: seq<SnapshotEntry>)
    requires ItemsNamed(rows)
    ensures entries == seq(|rows|, i requires 0 <= i < |rows| => EntryOf(rows[i], block))
  {
    entries := [];
    var i := 0;
    while i < |rows|
      invariant 0 <= i <= |rows|
      invariant entries == seq(i, k requires 0 <= k < i => EntryOf(rows[k], block))
    {
      var r := rows[i];
      entries := entries + [SnapshotEntry(WarehouseId(r.warehouse), r.item.value.id, UnitId(r.unit), r.Closing().Real(), block)];
      i := i + 1;
    }
  }

  /** The key balances are collected under. */
  type Key = (Option<int>, int, Option<int>)

  function EntryKey(s: SnapshotEntry): Key
  {
    (s.warehouseId, s.itemId, s.unitId)
  }

  function TxKey(t: Transaction): Key
  {
    (WarehouseId(t.warehouse), t.item.id, Some(t.unit.id))
  }

  /** An insertion-ordered dict as a list of entries. */
  type BalanceMap = seq<(Key, real)>

  /** `m.get(k)`. */
  function Get(m: BalanceMap, k: Key): (r: Option<real>)
    ensures r.Some? <==> exists i :: 0 <= i < |m| && m[i].0 == k
  {
    if m == [] then None
    else if m[0].0 == k then Some(m[0].1)
    else Get(m[1..], k)
  }

  /** `m[k] = v`: an existing key keeps its place, a new one goes last. */
  function Put(m: BalanceMap, k: Key, v: real): (r: BalanceMap)
    ensures Get(m, k).Some? ==> |r| == |m|
    ensures Get(m, k).None? ==> r == m + [(k, v)]
  {
    if m == [] then [(k, v)]
    else if m[0].0 == k then [(k, v)] + m[1..]
    else [m[0]] + Put(m[1..], k, v)
  }

  /** The dict comprehension over the snapshot entries. */
  function FromSnapshot(snap: seq<SnapshotEntry>): BalanceMap
  {
    if snap == [] then []
    else Put(FromSnapshot(snap[..|snap| - 1]), EntryKey(snap[|snap| - 1]), snap[|snap| - 1].closing)
  }

  /** One replayed movement: `m[key] = m.get(key, 0.0) + qty`. */
  function AddMovement(m: BalanceMap, t: Transaction): BalanceMap
  {
    var k := TxKey(t);
    Put(m, k, (if Get(m, k).Some? then Get(m, k).value else 0.0) + Qty(t))
  }

  /** The movements replayed in ledger order. */
  function Replay(m: BalanceMap, ts: seq<Transaction>): BalanceMap
  {
    if ts == [] then m else AddMovement(Replay(m, ts[..|ts| - 1]), ts[|ts| - 1])
  }

  /** The movements dated after the block date and up to the target. */
  function After(txs: seq<Transaction>, block: int, target: int): seq<Transaction>
  {
    Where(txs, Between(block + 1, target))
  }

  function WarehouseOf(whs: seq<Warehouse>, id: Option<int>): Option<Warehouse>
  {
    if id.Some? then WarehouseById(whs, id.value) else None
  }

  function UnitOf(units: seq<Unit>, id: Option<int>): Option<Unit>
  {
    if id.Some? then UnitById(units, id.value) else None
  }

  /** A balance from a key: the objects looked up by id. */
  function BalanceOf(noms: seq<Item>, whs: seq<Warehouse>, units: seq<Unit>, k: Key, amount: real): Balance
  {
    Balance(WarehouseOf(whs, k.0), ItemById(noms, k.1), UnitOf(units, k.2), amount)
  }

  /** The snapshot the calculation starts from: the saved one when it was
      saved for this block date, a freshly computed one otherwise. */
  function UsedSnapshot(slot: Option<(int, seq<SnapshotEntry>)>, noms: seq<Item>, txs: seq<Transaction>,
                        whs: seq<Warehouse>, block: int): seq<SnapshotEntry>
  {
    if slot.Some? && slot.value.0 == block then slot.value.1 else Snapshot(noms, txs, whs, block)
  }

  /** The balances from a snapshot when the target is after the block: the
      snapshot's closings with every later movement up to the target added. */
  function BalancesAfterBlock(noms: seq<Item>, whs: seq<Warehouse>, units: seq<Unit>, txs: seq<Transaction>,
                              snap: seq<SnapshotEntry>, block: int, target: int): seq<Balance>
  {
    var m := Replay(FromSnapshot(snap), After(txs, block, target));
    seq(|m|, i requires 0 <= i < |m| => BalanceOf(noms, whs, units, m[i].0, m[i].1))
  }

  /** `compute_balances_at(target)` with the block date as an argument. */
  function BalancesAt(noms: seq<Item>, whs: seq<Warehouse>, units: seq<Unit>, txs: seq<Transaction>,
                      slot: Option<(int, seq<SnapshotEntry>)>, target: int, block: Option<int>): seq<Balance>
  {
    if block.None? then
      var rows := Report(noms, txs, whs, Day0, target, None);
      seq(|rows|, i requires 0 <= i < |rows| =>
            Balance(rows[i].warehouse, rows[i].item, rows[i].unit, rows[i].Closing().Real()))
    else
      var snap := UsedSnapshot(slot, noms, txs, whs, block.value);
      if target <= block.value then
        seq(|snap|, i requires 0 <= i < |snap| =>
              BalanceOf(noms, whs, units, EntryKey(snap[i]), snap[i].closing))
      else BalancesAfterBlock(noms, whs, units, txs, snap, block.value, target)
  }

  /* ---------- the services ---------- */

  /** `OSVPrototype`: the statement generator over a repository. */
  class OsvPrototype {
    const storage: StorageRepository

    constructor (storage: StorageRepository)
      ensures this.storage == storage
    {
      this.storage := storage;
    }

    /** `clone`: a new prototype over the same repository. */
    method Clone() returns (p: OsvPrototype)
      ensures fresh(p) && p.storage == storage
    {
      p := new OsvPrototype(storage);
    }

    /** `generate`: the rows of the statement; with a non-empty filter list,
        the rows as tables are narrowed by the filters and rebuilt. */
    method Generate(start: int, end: int, wanted: Option<string>, filters: seq<FilterDto>)
      returns (rows: seq<OsvRow>)
      requires PathsAreStrings(filters)
      ensures rows == GenerateSpec(storage.nomenclatures, storage.transactions, storage.warehouses,
                                   storage.units, start, end, wanted, filters)
    {
      var result := ReportRows(storage.nomenclatures, storage.transactions, storage.warehouses, start, end, wanted);
      if filters == [] {
        return result;
      }
      ReportItemsNamed(storage.nomenclatures, storage.transactions, storage.warehouses, start, end, wanted);
      ProjectedRebuildable(result);
      var raw := ProjectAll(result);
      var filtered := FilterObjects(raw, filters);
      NarrowKeepsRebuildable(raw, filters);
      rows := RebuildRows(filtered, storage.nomenclatures, storage.warehouses, storage.units);
    }
  }

  /** The loop of `generate` appending one row per catalogue item. */
  method ReportRows(noms: seq<Item>, txs: seq<Transaction>, whs: seq<Warehouse>, start: int, end: int,
                    wanted: Option<string>) returns (result: seq<OsvRow>)
    ensures result == Report(noms, txs, whs, start, end, wanted)
  {
    result := [];
    var i := 0;
    while i < |noms|
      invariant 0 <= i <= |noms|
      invariant |result| == i
      invariant forall k :: 0 <= k < i ==> result[k] == RowFor(noms[k], txs, whs, start, end, wanted)
    {
      var n := noms[i];
      var relevant := Relevant(txs, n, wanted);
      if relevant == [] {
        result := result + [OsvRow(FirstMatching(whs, wanted), Some(n), n.unit, Zero, Zero, Zero)];
      } else {
        var opening := OpeningAmount(relevant, start);
        var incoming := IncomingAmount(relevant, start, end);
        var outgoing := OutgoingAmount(relevant, start, end);
        var baseUnit := BaseUnit(relevant[0].unit);
        result := result + [OsvRow(relevant[0].warehouse, Some(n), Some(baseUnit), opening, incoming, outgoing)];
      }
      i := i + 1;
    }
  }

  /** The loop of `generate` rebuilding the filtered tables as rows. */
  method RebuildRows(filtered: seq<Value>, noms: seq<Item>, whs: seq<Warehouse>, units: seq<Unit>)
    returns (rows: seq<OsvRow>)
    requires AllRebuildable(filtered)
    ensures rows == RebuildAll(filtered, noms, whs, units)
  {
    rows := [];
    var j := 0;
    while j < |filtered|
      invariant 0 <= j <= |filtered|
      invariant |rows| == j
      invariant forall k :: 0 <= k < j ==> rows[k] == Rebuild(filtered[k], noms, whs, units)
    {
      rows := rows + [Rebuild(filtered[j], noms, whs, units)];
      j := j + 1;
    }
    SameElements(rows, RebuildAll(filtered, noms, whs, units));
  }

  /** Lists of one length agreeing at every index are equal. */
  lemma SameElements<T>(a: seq<T>, b: seq<T>)
    requires |a| == |b| && forall i :: 0 <= i < |a| ==> a[i] == b[i]
    ensures a == b
  {
  }

  /** `OSVCalculator`: the services over a repository, through its prototype. */
  class OsvCalculator {
    const repo: StorageRepository
    const prototype: OsvPrototype

    constructor (repo: StorageRepository)
      ensures this.repo == repo && prototype.storage == repo
    {
      this.repo := repo;
      prototype := new OsvPrototype(repo);
    }

    /** `compute_osv`: the statement of a fresh prototype over the repository. */
    method ComputeOsv(start: int, end: int, wanted: Option<string>, filters: seq<FilterDto>)
      returns (rows: seq<OsvRow>)
      requires prototype.storage == repo
      requires PathsAreStrings(filters)
      ensures rows == GenerateSpec(repo.nomenclatures, repo.transactions, repo.warehouses,
                                   repo.units, start, end, wanted, filters)
    {
      var proto := prototype.Clone();
      rows := proto.Generate(start, end, wanted, filters);
    }

    /** `compute_turnovers_until_block`: the statement from 1900-01-01 to the
        block date, one snapshot entry per row, saved in the repository. */
    method ComputeTurnoversUntilBlock(block: int) returns (entries: seq<SnapshotEntry>)
      requires prototype.storage == repo
      modifies repo
      ensures entries == Snapshot(old(repo.nomenclatures), old(repo.transactions), old(repo.warehouses), block)
      ensures repo.snapshot == Some((block, entries))
      ensures unchanged(repo`nomenclatures, repo`units, repo`groups, repo`receipts, repo`warehouses, repo`transactions)
    {
      var proto := prototype.Clone();
      var rows := proto.Generate(Day0, block, None, []);
      ReportItemsNamed(repo.nomenclatures, repo.transactions, repo.warehouses, Day0, block, None);
      entries := EntriesOf(rows, block);
      repo.SaveTurnoversSnapshot(block, entries);
    }

    /** `compute_balances_at(target)` for the block date `block` (None when no
        block date is set). */
    method ComputeBalancesAt(target: int, block: Option<int>) returns (balances: seq<Balance>)
      requires prototype.storage == repo
      modifies repo
      ensures balances == BalancesAt(old(repo.nomenclatures), old(repo.warehouses), old(repo.units),
                                     old(repo.transactions), old(repo.snapshot), target, block)
      ensures block.None? || old(repo.LoadTurnoversSnapshot(block.value)).Some? ==>
                repo.snapshot == old(repo.snapshot)
      ensures block.Some? && old(repo.LoadTurnoversSnapshot(block.value)).None? ==>
                repo.snapshot == Some((block.value, Snapshot(old(repo.nomenclatures), old(repo.transactions),
                                                             old(repo.warehouses), block.value)))
      ensures unchanged(repo`nomenclatures, repo`units, repo`groups, repo`receipts, repo`warehouses, repo`transactions)
    {
      if block.None? {
        var rows := prototype.Generate(Day0, target, None, []);
        balances := ClosingBalances(rows);
        return;
      }
      var blockDate := block.value;
      var loaded := repo.LoadTurnoversSnapshot(blockDate);
      var snapshot: seq<SnapshotEntry>;
      if loaded.Some? {
        snapshot := loaded.value;
      } else {
        snapshot := ComputeTurnoversUntilBlock(blockDate);
      }
      if target <= blockDate {
        balances := SnapshotBalances(snapshot, repo.nomenclatures, repo.warehouses, repo.units);
      } else {
        var m := MapFromSnapshot(snapshot);
        var txs := After(repo.transactions, blockDate, target);
        m := ReplayMovements(m, txs);
        balances := MapBalances(m, repo.nomenclatures, repo.warehouses, repo.units);
      }
    }
  }

  /** The balances of a statement without a block date: each row's objects
      with its closing balance. */
  method ClosingBalances(rows: seq<OsvRow>) returns (balances: seq<Balance>)
    ensures balances == seq(|rows|, i requires 0 <= i < |rows| =>
                              Balance(rows[i].warehouse, rows[i].item, rows[i].unit, rows[i].Closing().Real()))
  {
    balances := [];
    var i := 0;
    while i < |rows|
      invariant 0 <= i <= |rows|
      invariant |balances| == i
      invariant forall k :: 0 <= k < i ==>
                  balances[k] == Balance(rows[k].warehouse, rows[k].item, rows[k].unit, rows[k].Closing().Real())
    {
      balances := balances + [Balance(rows[i].warehouse, rows[i].item, rows[i].unit, rows[i].Closing().Real())];
      i := i + 1;
    }
  }

  /** The balances read straight off a snapshot, objects looked up by id. */
  method SnapshotBalances(snapshot: seq<SnapshotEntry>, noms: seq<Item>, whs: seq<Warehouse>, units: seq<Unit>)
    returns (balances: seq<Balance>)
    ensures |balances| == |snapshot|
    ensures forall k :: 0 <= k < |snapshot| ==>
              balances[k] == BalanceOf(noms, whs, units, EntryKey(snapshot[k]), snapshot[k].closing)
  {
    balances := [];
    var i := 0;
    while i < |snapshot|
      invariant 0 <= i <= |snapshot|
      invariant |balances| == i
      invariant forall k :: 0 <= k < i ==>
                  balances[k] == BalanceOf(noms, whs, units, EntryKey(snapshot[k]), snapshot[k].closing)
    {
      var s := snapshot[i];
      var wh := if s.warehouseId.Some? then WarehouseById(whs, s.warehouseId.value) else None;
      var item := ItemById(noms, s.itemId);
      var unit := if s.unitId.Some? then UnitById(units, s.unitId.value) else None;
      balances := balances + [Balance(wh, item, unit, s.closing)];
      i := i + 1;
    }
  }

  /** The balances dict filled from the snapshot entries in order. */
  method MapFromSnapshot(snapshot: seq<SnapshotEntry>) returns (m: BalanceMap)
    ensures m == FromSnapshot(snapshot)
  {
    m := [];
    var i := 0;
    while i < |snapshot|
      invariant 0 <= i <= |snapshot|
      invariant m == FromSnapshot(snapshot[..i])
    {
      assert snapshot[..i + 1][..i] == snapshot[..i];
      m := Put(m, EntryKey(snapshot[i]), snapshot[i].closing);
      i := i + 1;
    }
    assert snapshot[..i] == snapshot;
  }

  /** The later movements added to the dict one by one. */
  method ReplayMovements(m0: BalanceMap, txs: seq<Transaction>) returns (m: BalanceMap)
    ensures m == Replay(m0, txs)
  {
    m := m0;
    var j := 0;
    while j < |txs|
      invariant 0 <= j <= |txs|
      invariant m == Replay(m0, txs[..j])
    {
      assert txs[..j + 1][..j] == txs[..j];
      var t := txs[j];
      var key := TxKey(t);
      var qty := ToBase(t.unit, t.quantity);
      var current := Get(m, key);
      m := Put(m, key, (if current.Some? then current.value else 0.0) + qty);
      j := j + 1;
    }
    assert txs[..j] == txs;
  }

  /** The dict's entries as balances, objects looked up by id. */
  method MapBalances(m: BalanceMap, noms: seq<Item>, whs: seq<Warehouse>, units: seq<Unit>)
    returns (balances: seq<Balance>)
    ensures |balances| == |m|
    ensures forall k :: 0 <= k < |m| ==> balances[k] == BalanceOf(noms, whs, units, m[k].0, m[k].1)
  {
    balances := [];
    var k := 0;
    while k < |m|
      invariant 0 <= k <= |m|
      invariant |balances| == k
      invariant forall x :: 0 <= x < k ==> balances[x] == BalanceOf(noms, whs, units, m[x].0, m[x].1)
    {
      var entry := m[k];
      var wh := if entry.0.0.Some? then WarehouseById(whs, entry.0.0.value) else None;
      var item := ItemById(noms, entry.0.1);
      var unit := if entry.0.2.Some? then UnitById(units, entry.0.2.value) else None;
      balances := balances + [Balance(wh, item, unit, entry.1)];
      k := k + 1;
    }
  }
}
