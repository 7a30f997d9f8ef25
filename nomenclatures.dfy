/** Catalogue items, task2/src/models/nomenclature_model.py, with the group
    record they refer to (task2/src/models/group_model.py). */
module Nomenclatures {
  import opened Results
  import opened Text
  import opened Values
  import opened Validator
  import opened References
  import opened Units

  /** `group_model`: a reference with a name and the caller-assigned `id`. */
  datatype Group = Group(uid: string, id: int, name: string)

  /** A catalogue item as the ledger sees it: unique code, the `id` attribute,
      name and default unit. */
  datatype Item = Item(uid: string, id: int, name: string, unit: Option<Unit>)

  /** The longest full name, counted after stripping. */
  const FullNameLimit: int := 255

  /** The `full_name` setter's check: non-blank, at most 255 characters once stripped. */
  function CheckedFullName(value: string): (r: Result<string>)
    ensures r.Ok? <==> Strip(value) != [] && |Strip(value)| <= FullNameLimit
    ensures r.Ok? ==> r.value == Strip(value)
    ensures r.Raise? ==> r.error.kind == ArgumentException
  {
    assert IsInstanceOf(Str(value), Class(StrType));
    match Validate(Str(value), Class(StrType), Some(FullNameLimit))
    case Ok(_) => Ok(Strip(value))
    case Raise(e) => Raise(e)
  }

  /** `nomenclature_model`: the reference part (`ref`, unique code and name),
      the full name, the group and the unit. */
  class Nomenclature {
    const ref: Reference
    var fullName: string
    var group: Option<Group>
    var unit: Option<Unit>

    constructor (ref: Reference)
      ensures this.ref == ref && fullName == "" && group.None? && unit.None?
    {
      this.ref := ref;
      fullName := "";
      group := None;
      unit := None;
    }

    /** The `full_name` setter; a rejected value leaves the previous one. */
    method SetFullName(value: string) returns (err: Option<Exc>)
      modifies this
      ensures err.None? <==> CheckedFullName(value).Ok?
      ensures err.Some? ==> err.value.kind == ArgumentException
      ensures fullName == (if err.None? then Strip(value) else old(fullName))
      ensures group == old(group) && unit == old(unit)
    {
      match CheckedFullName(value)
      case Ok(n) =>
        fullName := n;
        err := None;
      case Raise(e) =>
        err := Some(e);
    }

    /** The `group` setter: only a `group_model` is accepted (None included in the refusals). */
    method SetGroup(value: Arg<Group>) returns (err: Option<Exc>)
      modifies this
      ensures err.None? <==> value.Given?
      ensures err.Some? ==> err.value.kind == ArgumentException
      ensures group == (if value.Given? then Some(value.value) else old(group))
      ensures fullName == old(fullName) && unit == old(unit)
    {
      if value.Given? {
        group := Some(value.value);
        err := None;
      } else {
        err := Some(Exc(ArgumentException, "group must be a group_model"));
      }
    }

    /** The `unit` setter: only a `unit_model` is accepted. */
    method SetUnit(value: Arg<Unit>) returns (err: Option<Exc>)
      modifies this
      ensures err.None? <==> value.Given?
      ensures err.Some? ==> err.value.kind == ArgumentException
      ensures unit == (if value.Given? then Some(value.value) else old(unit))
      ensures fullName == old(fullName) && group == old(group)
    {
      if value.Given? {
        unit := Some(value.value);
        err := None;
      } else {
        err := Some(Exc(ArgumentException, "unit must be a unit_model"));
      }
    }

    /** The item as the ledger records it, once a caller has given it an `id`. */
    function AsItem(id: int): Item
      reads this, ref
    {
      Item(ref.uniqueCode, id, ref.name, unit)
    }
  }

  /** The setter calls of `nomenclature_model(...)` on a fresh item: an empty
      full name and a None group or unit are skipped, anything given is
      assigned through its setter, and the first refusal stops the rest. */
  method AssignGiven(n: Nomenclature, fullName: string, group: Arg<Group>, unit: Arg<Unit>)
    returns (err: Option<Exc>)
    requires n.fullName == "" && n.group.None? && n.unit.None?
    modifies n
    ensures err.None? <==> (fullName == "" || CheckedFullName(fullName).Ok?) && !group.Other? && !unit.Other?
    ensures err.Some? ==> err.value.kind == ArgumentException
    ensures err.None? ==> n.fullName == (if fullName == "" then "" else Strip(fullName)) &&
                          n.group == (if group.Given? then Some(group.value) else None) &&
                          n.unit == (if unit.Given? then Some(unit.value) else None)
  {
    err := None;
    if fullName != "" {
      err := n.SetFullName(fullName);
      if err.Some? {
        return;
      }
    }
    if !group.Absent? {
      err := n.SetGroup(group);
      if err.Some? {
        return;
      }
    }
    if !unit.Absent? {
      err := n.SetUnit(unit);
    }
  }

  /** `nomenclature_model(name, full_name, group, unit)`: the name as for every
      reference; an empty full name and a None group or unit are skipped;
      anything given is assigned through its setter, in that order. */
  method NewNomenclature(code: string, name: string, fullName: string, group: Arg<Group>, unit: Arg<Unit>)
    returns (r: Result<Nomenclature>)
    ensures r.Ok? <==> (name == "" || CheckedName(name).Ok?) &&
                       (fullName == "" || CheckedFullName(fullName).Ok?) &&
                       !group.Other? && !unit.Other?
    ensures r.Raise? ==> r.error.kind == ArgumentException
    ensures r.Ok? ==> fresh(r.value) && fresh(r.value.ref) &&
                      r.value.ref.uniqueCode == code &&
                      r.value.ref.name == (if name == "" then "" else Strip(name)) &&
                      r.value.fullName == (if fullName == "" then "" else Strip(fullName)) &&
                      r.value.group == (if group.Given? then Some(group.value) else None) &&
                      r.value.unit == (if unit.Given? then Some(unit.value) else None)
  {
    var base := NewReference(code, name);
    if base.Raise? {
      return Raise(base.error);
    }
    var ref := base.value;
    assert ref.uniqueCode == code && ref.name == (if name == "" then "" else Strip(name));
    var n := new Nomenclature(ref);
    var err := AssignGiven(n, fullName, group, unit);
    if err.Some? {
      return Raise(err.value);
    }
    assert n.ref == ref && ref.uniqueCode == code;
    r := Ok(n);
  }
}
