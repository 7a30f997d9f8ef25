/** The plain records the ledger engine passes around: movements
    (task2/src/models/transaction_model.py), snapshot entries
    (task2/src/models/turnover_snapshot_model.py), balances
    (task2/src/models/balance_model.py) and recipes
    (task2/src/models/receipt_model.py). Dates are day numbers: the proleptic
    Gregorian ordinal Python's `date.toordinal()` gives. */
module Ledger {
  import opened Results
  import opened Units
  import opened Warehouses
  import opened Nomenclatures

  /** `date(1900, 1, 1)`, the start of every period the engine computes from scratch. */
  const Day0: int := 693596

  /** A stock movement: positive quantities are receipts, negative ones issues.
      The quantity is in `unit`, which every movement the engine reads has. */
  datatype Transaction = Transaction(number: string, item: Item, warehouse: Option<Warehouse>,
                                     unit: Unit, quantity: real, date: int)

  /** The closing balance of one (warehouse, item, unit) combination at a block date. */
  datatype SnapshotEntry = SnapshotEntry(warehouseId: Option<int>, itemId: int, unitId: Option<int>,
                                         closing: real, date: int)

  /** A balance as reported: the objects found by id (None when absent) and the amount. */
  datatype Balance = Balance(warehouse: Option<Warehouse>, item: Option<Item>, unit: Option<Unit>,
                             balance: real)

  /** A recipe: its name, its ingredients, and its unit and group as text. */
  datatype Receipt = Receipt(name: string, ingredients: seq<Item>, unit: string, group: string)

  /** The movement's quantity in base units, `t.unit.to_base(t.quantity)`. */
  function Qty(t: Transaction): real
  {
    ToBase(t.unit, t.quantity)
  }

  /** `w.id if w else None`. */
  function WarehouseId(w: Option<Warehouse>): Option<int>
  {
    if w.Some? then Some(w.value.id) else None
  }

  /** `u.id if u else None`. */
  function UnitId(u: Option<Unit>): Option<int>
  {
    if u.Some? then Some(u.value.id) else None
  }
}
