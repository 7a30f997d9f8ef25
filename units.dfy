/** Units of measure with a conversion factor to their base unit,
    task2/src/models/unit_model.py. */
module Units {
  import opened Results
  import opened Values
  import opened Validator
  import Text
  import References

  /** `unit_model`: the reference part (unique code, name), the `id` attribute
      the ledger keys balances by, a factor relative to the base, and the base
      unit (None for a unit that is its own base). */
  datatype Unit = Unit(uid: string, id: int, name: string, factor: int, base: Option<Unit>)

  /** The factor as Python reads it once `validator.validate(factor, int)`
      passed: a bool is an int (True is 1, False is 0). */
  function IntValue(v: Value): int
    requires v.Int? || v.Bool?
  {
    if v.Int? then v.i else if v.b then 1 else 0
  }

  /** `unit_model(name, factor, base)`. The name goes through the reference
      setter when not empty; the factor must be an int greater than zero; the
      base must be a unit or None. */
  function MakeUnit(uid: string, id: int, name: string, factor: Value, base: Arg<Unit>): (r: Result<Unit>)
    ensures r.Ok? <==>
      (name == "" || References.CheckedName(name).Ok?) &&
      (factor.Int? || factor.Bool?) && IntValue(factor) > 0 && !base.Other?
    ensures r.Ok? ==> r.value.factor == IntValue(factor) > 0 &&
                      r.value.base == (if base.Given? then Some(base.value) else None) &&
                      r.value.uid == uid && r.value.id == id
    ensures r.Ok? ==> r.value.name == if name == "" then "" else References.CheckedName(name).value
    ensures r.Raise? ==> r.error.kind == ArgumentException
  {
    var checkedName := if name == "" then Ok("") else References.CheckedName(name);
    if checkedName.Raise? then Raise(checkedName.error)
    else match Validate(factor, Class(IntType), None)
      case Raise(e) => Raise(e)
      case Ok(_) =>
        if IntValue(factor) <= 0 then Fail(ArgumentException, "factor must be a positive integer")
        else match base
          case Absent => Ok(Unit(uid, id, checkedName.value, IntValue(factor), None))
          case Given(b) => Ok(Unit(uid, id, checkedName.value, IntValue(factor), Some(b)))
          case Other(_) => Fail(ArgumentException, "base must be a unit_model or None")
  }

  /** `to_base`: the quantity expressed in the base unit, using this unit's own
      factor only. */
  function ToBase(u: Unit, v: real): real
  {
    v * u.factor as real
  }

  /** `from_base`: the quantity expressed in this unit; a zero factor raises. */
  function FromBase(u: Unit, v: real): (r: Result<real>)
    ensures r.Ok? <==> u.factor != 0
    ensures r.Raise? ==> r.error.kind == ArgumentException
    ensures r.Ok? ==> r.value * u.factor as real == v
  {
    if u.factor == 0 then Fail(ArgumentException, "factor must not be zero")
    else Ok(v / u.factor as real)
  }

  /** Converting to the base and back, or back and then to the base, returns
      the quantity unchanged for every unit with a positive factor. */
  lemma RoundTrip(u: Unit, v: real)
    requires u.factor > 0
    ensures FromBase(u, ToBase(u, v)) == Ok(v)
    ensures ToBase(u, FromBase(u, v).value) == v
  {
    var f := u.factor as real;
    var w := FromBase(u, v * f).value;
    assert w * f == v * f;
    assert (w - v) * f == 0.0;
    assert ToBase(u, v) == v * f;
    assert FromBase(u, v * f) == Ok(w);
  }

  /** `to_base` does not look through the base unit: two units with the same
      factor convert alike whatever their bases. */
  lemma ToBaseIgnoresBase(u: Unit, w: Unit, v: real)
    requires u.factor == w.factor
    ensures ToBase(u, v) == ToBase(w, v)
  {
  }

  /** A unit with factor 1 converts every quantity to itself, both ways. */
  lemma FactorOneIsIdentity(u: Unit, v: real)
    requires u.factor == 1
    ensures ToBase(u, v) == v && FromBase(u, v) == Ok(v)
  {
  }

  /** Conversion is positively scaled: it preserves the sign of the quantity. */
  lemma ToBasePreservesSign(u: Unit, v: real)
    requires u.factor > 0
    ensures (v > 0.0 <==> ToBase(u, v) > 0.0) && (v < 0.0 <==> ToBase(u, v) < 0.0)
  {
  }

  /** `to_dict`: the name, the factor as "coefficient", and the base's name. */
  function ToDict(u: Unit): (d: Value)
    ensures d.Dict? && DistinctKeys(d.entries)
    ensures Lookup(d.entries, "name") == Some(Str(u.name))
    ensures Lookup(d.entries, "coefficient") == Some(Int(u.factor))
    ensures Lookup(d.entries, "base") == Some(if u.base.Some? then Str(u.base.value.name) else Nil)
    ensures |d.entries| == 3 && !HasKey(d.entries, "id")
  {
    var entries := [("name", Str(u.name)), ("coefficient", Int(u.factor)),
                    ("base", if u.base.Some? then Str(u.base.value.name) else Nil)];
    assert entries[1..][1..] == [entries[2]];
    Dict(entries)
  }

  /** A unit is built from an accepted name, an int (or bool) factor above
      zero and a base that is None or a unit; it carries exactly those. */
  lemma MakeUnitAccepted(uid: string, id: int, name: string, factor: Value, base: Arg<Unit>)
    requires name == "" || References.CheckedName(name) == Ok(name)
    requires (factor.Int? || factor.Bool?) && IntValue(factor) > 0 && !base.Other?
    ensures MakeUnit(uid, id, name, factor, base) ==
            Ok(Unit(uid, id, name, IntValue(factor), if base.Given? then Some(base.value) else None))
  {
  }

  /** 2 kg is 2000 g, and 2000 g is 2.0 kg. */
  lemma KilogramConversions(g: Unit)
    ensures ToBase(Unit("kg", 2, "кг", 1000, Some(g)), 2.0) == 2000.0
    ensures FromBase(Unit("kg", 2, "кг", 1000, Some(g)), 2000.0) == Ok(2.0)
  {
  }

  /** A zero factor fails construction, whatever the other arguments. */
  lemma ZeroFactorRejected(uid: string, id: int, name: string, base: Arg<Unit>)
    ensures MakeUnit(uid, id, name, Int(0), base).Raise?
  {
  }

  /** A bool factor True passes the int check and counts as factor 1. */
  lemma TrueFactorIsOne(uid: string, id: int, name: string, base: Arg<Unit>)
    requires name == "" || References.CheckedName(name) == Ok(name)
    requires !base.Other?
    ensures MakeUnit(uid, id, name, Bool(true), base).Ok?
    ensures MakeUnit(uid, id, name, Bool(true), base).value.factor == 1
  {
    MakeUnitAccepted(uid, id, name, Bool(true), base);
  }
}
