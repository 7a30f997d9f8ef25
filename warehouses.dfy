/** Warehouses (storage locations), task2/src/models/warehouse_model.py. */
module Warehouses {
  import opened Results
  import opened Text
  import opened Values
  import References

  /** `warehouse_model`: the reference part (unique code, name), the `id`
      attribute the ledger keys balances by, and the short code. */
  datatype Warehouse = Warehouse(uid: string, id: int, name: string, code: string)

  /** Python `s.replace(" ", "")`: every plain space removed. */
  function RemoveSpaces(s: string): (r: string)
    ensures ' ' !in r && |r| <= |s|
    ensures ' ' !in s ==> r == s
    ensures forall c :: c in r ==> c in s
  {
    if s == [] then ""
    else (if s[0] == ' ' then "" else [s[0]]) + RemoveSpaces(s[1..])
  }

  /** `_generate_code`: the name's first three characters, upper-cased, spaces removed. */
  function GenerateCode(name: string): (c: string)
    ensures |c| <= 3 && ' ' !in c
    ensures forall ch :: ch in c ==> exists i :: 0 <= i < 3 && i < |name| && ch == UpperChar(name[i])
    ensures ' ' !in name[..if |name| < 3 then |name| else 3] ==>
              c == Upper(name[..if |name| < 3 then |name| else 3])
  {
    var prefix := name[..if |name| < 3 then |name| else 3];
    var up := Upper(prefix);
    assert forall k :: 0 <= k < |up| ==> (up[k] == ' ' <==> prefix[k] == ' ');
    RemoveSpaces(up)
  }

  /** `warehouse_model(name, code)`: the name goes through the reference setter
      when not empty; a missing or empty code is generated from the name as given. */
  function MakeWarehouse(uid: string, id: int, name: string, code: Option<string>): (r: Result<Warehouse>)
    ensures r.Ok? <==> name == "" || References.CheckedName(name).Ok?
    ensures r.Ok? ==> r.value.uid == uid && r.value.id == id &&
                      r.value.name == (if name == "" then "" else Strip(name))
    ensures r.Ok? && code.Some? && code.value != "" ==> r.value.code == code.value
    ensures r.Ok? && (code.None? || code.value == "") ==> r.value.code == GenerateCode(name)
    ensures r.Raise? ==> r.error.kind == ArgumentException
  {
    var checkedName := if name == "" then Ok("") else References.CheckedName(name);
    if checkedName.Raise? then Raise(checkedName.error)
    else
      var c := if code.Some? && code.value != "" then code.value else GenerateCode(name);
      Ok(Warehouse(uid, id, checkedName.value, c))
  }

  /** `to_dict`: exactly the name and the code. */
  function ToDict(w: Warehouse): (d: Value)
    ensures d.Dict? && |d.entries| == 2 && DistinctKeys(d.entries)
    ensures Lookup(d.entries, "name") == Some(Str(w.name))
    ensures Lookup(d.entries, "code") == Some(Str(w.code))
    ensures !HasKey(d.entries, "id")
  {
    Dict([("name", Str(w.name)), ("code", Str(w.code))])
  }

  /** A warehouse built from the test name "Main Warehouse" gets the code "MAI". */
  lemma MainWarehouseCode()
    ensures GenerateCode("Main Warehouse") == "MAI"
  {
    assert "Main Warehouse"[..3] == "Mai";
    assert Upper("Mai") == "MAI";
  }
}
