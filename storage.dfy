/** The in-memory repository, task2/src/core/storage_repository.py. The four
    lists it declares are joined here by what the ledger engine reads from the
    repository it is given: warehouses, movements, look-ups by id and one
    snapshot slot. That part has no definition in the repository file; it
    follows the engine's calls. */
module Storage {
  import opened Results
  import opened Units
  import opened Warehouses
  import opened Nomenclatures
  import opened Ledger

  /** The first catalogue item with the given `id`. */
  function ItemById(items: seq<Item>, id: int): (r: Option<Item>)
    ensures r.Some? <==> exists i :: 0 <= i < |items| && items[i].id == id
    ensures r.Some? ==> r.value.id == id && r.value in items
  {
    if items == [] then None
    else if items[0].id == id then Some(items[0])
    else ItemById(items[1..], id)
  }

  /** The first unit with the given `id`. */
  function UnitById(units: seq<Unit>, id: int): (r: Option<Unit>)
    ensures r.Some? <==> exists i :: 0 <= i < |units| && units[i].id == id
    ensures r.Some? ==> r.value.id == id && r.value in units
  {
    if units == [] then None
    else if units[0].id == id then Some(units[0])
    else UnitById(units[1..], id)
  }

  /** The first warehouse with the given `id`. */
  function WarehouseById(warehouses: seq<Warehouse>, id: int): (r: Option<Warehouse>)
    ensures r.Some? <==> exists i :: 0 <= i < |warehouses| && warehouses[i].id == id
    ensures r.Some? ==> r.value.id == id && r.value in warehouses
  {
    if warehouses == [] then None
    else if warehouses[0].id == id then Some(warehouses[0])
    else WarehouseById(warehouses[1..], id)
  }

  /** Among items with distinct ids, looking an item up by its own id finds it. */
  lemma {:induction false} ItemByOwnId(items: seq<Item>, k: int)
    requires 0 <= k < |items|
    requires forall i, j :: 0 <= i < j < |items| ==> items[i].id != items[j].id
    ensures ItemById(items, items[k].id) == Some(items[k])
  {
    if k > 0 {
      assert items[1..][k - 1] == items[k];
      ItemByOwnId(items[1..], k - 1);
    }
  }

  class StorageRepository {
    var nomenclatures: seq<Item>
    var units: seq<Unit>
    var groups: seq<Group>
    var receipts: seq<Receipt>
    var warehouses: seq<Warehouse>
    var transactions: seq<Transaction>
    /** The saved snapshot, with the block date it was saved for. */
    var snapshot: Option<(int, seq<SnapshotEntry>)>

    /** A new repository: every list empty, no snapshot. */
    constructor ()
      ensures nomenclatures == [] && units == [] && groups == [] && receipts == []
      ensures warehouses == [] && transactions == [] && snapshot.None?
    {
      nomenclatures, units, groups, receipts := [], [], [], [];
      warehouses, transactions, snapshot := [], [], None;
    }

    method AddNomenclature(item: Item)
      modifies this
      ensures nomenclatures == old(nomenclatures) + [item]
      ensures unchanged(`units, `groups, `receipts, `warehouses, `transactions, `snapshot)
    {
      nomenclatures := nomenclatures + [item];
    }

    method AddUnit(item: Unit)
      modifies this
      ensures units == old(units) + [item]
      ensures unchanged(`nomenclatures, `groups, `receipts, `warehouses, `transactions, `snapshot)
    {
      units := units + [item];
    }

    method AddGroup(item: Group)
      modifies this
      ensures groups == old(groups) + [item]
      ensures unchanged(`nomenclatures, `units, `receipts, `warehouses, `transactions, `snapshot)
    {
      groups := groups + [item];
    }

    method AddReceipt(item: Receipt)
      modifies this
      ensures receipts == old(receipts) + [item]
      ensures unchanged(`nomenclatures, `units, `groups, `warehouses, `transactions, `snapshot)
    {
      receipts := receipts + [item];
    }

    method AddWarehouse(item: Warehouse)
      modifies this
      ensures warehouses == old(warehouses) + [item]
      ensures unchanged(`nomenclatures, `units, `groups, `receipts, `transactions, `snapshot)
    {
      warehouses := warehouses + [item];
    }

    method AddTransaction(item: Transaction)
      modifies this
      ensures transactions == old(transactions) + [item]
      ensures unchanged(`nomenclatures, `units, `groups, `receipts, `warehouses, `snapshot)
    {
      transactions := transactions + [item];
    }

    /** `save_turnovers_snapshot`: the slot now holds this list for this date. */
    method SaveTurnoversSnapshot(date: int, entries: seq<SnapshotEntry>)
      modifies this
      ensures snapshot == Some((date, entries))
      ensures unchanged(`nomenclatures, `units, `groups, `receipts, `warehouses, `transactions)
    {
      snapshot := Some((date, entries));
    }

    /** `load_turnovers_snapshot`: the saved list when it was saved for this date. */
    function LoadTurnoversSnapshot(date: int): (r: Option<seq<SnapshotEntry>>)
      reads this
      ensures r.Some? <==> snapshot.Some? && snapshot.value.0 == date
      ensures r.Some? ==> r.value == snapshot.value.1
    {
      if snapshot.Some? && snapshot.value.0 == date then Some(snapshot.value.1) else None
    }
  }
}
