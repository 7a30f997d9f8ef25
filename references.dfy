/** The common base of the reference models, task2/src/core/abstract_reference.py:
    a unique code (compared by `__eq__`) and a validated name. */
module References {
  import opened Results
  import opened Text
  import opened Values
  import opened Validator

  /** The longest name a reference may carry, counted after stripping. */
  const NameLimit: int := 50

  /** The `name` setter's check: `validator.validate(value, str, max_length=50)`,
      then the stripped value is what gets stored. */
  function CheckedName(value: string): (r: Result<string>)
    ensures r.Ok? <==> Strip(value) != [] && |Strip(value)| <= NameLimit
    ensures r.Ok? ==> r.value == Strip(value) && 0 < |r.value| <= NameLimit
    ensures r.Raise? ==> r.error.kind == ArgumentException
  {
    assert IsInstanceOf(Str(value), Class(StrType));
    match Validate(Str(value), Class(StrType), Some(NameLimit))
    case Ok(_) => Ok(Strip(value))
    case Raise(e) => Raise(e)
  }

  /** The `unique_code` setter's check: any non-blank string, stored stripped. */
  function CheckedCode(value: string): (r: Result<string>)
    ensures r.Ok? <==> Strip(value) != []
    ensures r.Ok? ==> r.value == Strip(value)
    ensures r.Raise? ==> r.error.kind == ArgumentException
  {
    assert IsInstanceOf(Str(value), Class(StrType));
    var checked := Validate(Str(value), Class(StrType), None);
    assert checked.Ok? <==> Strip(value) != [] by {
    }
    match checked
    case Ok(_) => Ok(Strip(value))
    case Raise(e) => Raise(e)
  }

  /** A name the setter accepts is accepted again when assigned back: the
      stored form is a fixed point of the check. */
  lemma StoredNameIsStable(value: string)
    requires CheckedName(value).Ok?
    ensures CheckedName(CheckedName(value).value) == CheckedName(value)
  {
    StripIdempotent(value);
  }

  /** `abstract_reference`: the unique code given at construction (a fresh
      random hex string in the source) and the name, "" until assigned. */
  class Reference {
    var uniqueCode: string
    var name: string

    constructor (code: string)
      ensures uniqueCode == code && name == ""
    {
      uniqueCode := code;
      name := "";
    }

    /** The `name` setter: validation precedes the write, so a rejected value
        leaves the previous name. */
    method SetName(value: string) returns (err: Option<Exc>)
      modifies this
      ensures err.None? <==> CheckedName(value).Ok?
      ensures err.Some? ==> err.value.kind == ArgumentException
      ensures name == (if err.None? then Strip(value) else old(name))
      ensures uniqueCode == old(uniqueCode)
    {
      match CheckedName(value)
      case Ok(n) =>
        name := n;
        err := None;
      case Raise(e) =>
        err := Some(e);
    }

    /** The `unique_code` setter. */
    method SetUniqueCode(value: string) returns (err: Option<Exc>)
      modifies this
      ensures err.None? <==> Strip(value) != []
      ensures err.Some? ==> err.value.kind == ArgumentException
      ensures uniqueCode == (if err.None? then Strip(value) else old(uniqueCode))
      ensures name == old(name)
    {
      match CheckedCode(value)
      case Ok(c) =>
        uniqueCode := c;
        err := None;
      case Raise(e) =>
        err := Some(e);
    }

    /** `__eq__`: two references are equal exactly when their unique codes are. */
    predicate Equals(other: Reference)
      reads this, other
    {
      uniqueCode == other.uniqueCode
    }
  }

  /** `abstract_reference(name)`: a fresh reference whose name is assigned
      through the setter only when `name` is not empty. */
  method NewReference(code: string, name: string) returns (r: Result<Reference>)
    ensures r.Ok? <==> name == "" || CheckedName(name).Ok?
    ensures r.Ok? ==> fresh(r.value) && r.value.uniqueCode == code &&
                      r.value.name == (if name == "" then "" else Strip(name))
    ensures r.Raise? ==> r.error.kind == ArgumentException
  {
    var ref := new Reference(code);
    if name != "" {
      var err := ref.SetName(name);
      if err.Some? {
        return Raise(err.value);
      }
    }
    r := Ok(ref);
  }
}
