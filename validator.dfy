/** Argument validation (`validator.validate`) and exception re-mapping
    (`error_proxy.wrap`), task2/src/core/validator.py. */
module Validator {
  import opened Results
  import opened Text
  import opened Values

  /** What `validator.validate` accepts: a value that is not None, is an
      instance of the expected class (or of one of a tuple of classes) and,
      when it is a string (a `str`-derived enum member included), is not blank and (with a limit) has a stripped
      length within the limit. */
  predicate Acceptable(value: Value, expected: Expected, maxLength: Option<int>)
  {
    && value != Nil
    && IsInstanceOf(value, expected)
    && (StrText(value).Some? ==> Strip(StrText(value).value) != [] &&
                                 (maxLength.Some? ==> |Strip(StrText(value).value)| <= maxLength.value))
  }

  /** `validator.validate(value, expected_type, max_length)`: returns True or
      raises. Every refusal is `argument_exception`, except a type mismatch
      against a tuple of classes: the message reads `expected_type.__name__`,
      which a tuple lacks, so that refusal is an `AttributeError`. */
  function Validate(value: Value, expected: Expected, maxLength: Option<int>): (r: Result<bool>)
    ensures r.Ok? <==> Acceptable(value, expected, maxLength)
    ensures r.Ok? ==> r.value
    ensures r.Raise? && expected.Class? ==> r.error.kind == ArgumentException
    ensures r.Raise? && expected.Classes? ==>
              (r.error.kind == AttributeError <==> value != Nil && !IsInstanceOf(value, expected)) &&
              (r.error.kind == AttributeError || r.error.kind == ArgumentException)
  {
    if value == Nil then Fail(ArgumentException, "argument must not be None")
    else if !IsInstanceOf(value, expected) then
      match expected
      case Class(_) => Fail(ArgumentException, "argument has the wrong type")
      case Classes(_) => Fail(AttributeError, "'tuple' object has no attribute '__name__'")
    else match StrText(value)
      case Some(text) =>
        if Strip(text) == [] then Fail(ArgumentException, "string argument must not be empty")
        else if maxLength.Some? && |Strip(text)| > maxLength.value then
          Fail(ArgumentException, "string argument is too long")
        else Ok(true)
      case None => Ok(true)
  }

  /** `unit_model.to_base` checks its argument against the tuple `(int, float)`:
      a number passes, and any other value that is not None is refused with an
      `AttributeError`, which the caller's `except argument_exception` does not
      catch. */
  lemma NumberTupleCheck(value: Value)
    requires value != Nil
    ensures Validate(value, Classes([IntType, FloatType]), None).Ok? <==>
            value.Int? || value.Bool? || value.Float?
    ensures Validate(value, Classes([IntType, FloatType]), None).Raise? ==>
            Validate(value, Classes([IntType, FloatType]), None).error.kind == AttributeError
  {
    var ts := [IntType, FloatType];
    assert IsInstanceOf(value, Classes(ts)) <==> value.Int? || value.Bool? || value.Float? by {
      if value.Int? || value.Bool? { assert IsInstance(value, ts[0]); }
      if value.Float? { assert IsInstance(value, ts[1]); }
    }
  }

  /** The common use: a string checked against an optional length limit. A
      string is accepted exactly when it is not blank and its stripped length is
      within the limit. */
  lemma ValidateString(s: string, maxLength: Option<int>)
    ensures Validate(Str(s), Class(StrType), maxLength).Ok? <==>
            (exists k :: 0 <= k < |s| && !IsSpace(s[k])) &&
            (maxLength.None? || |Strip(s)| <= maxLength.value)
  {
    BlankIffAllSpace(s);
    assert IsInstanceOf(Str(s), Class(StrType));
  }

  /** `error_proxy.wrap(rethrow)` applied to a call whose outcome is `outcome`:
      a result passes through, `argument_exception` propagates unchanged, any
      other exception is replaced by `rethrow` carrying the same message. */
  function Wrap<T>(rethrow: ExcKind, outcome: Result<T>): (r: Result<T>)
    ensures r.Ok? <==> outcome.Ok?
    ensures outcome.Ok? ==> r == outcome
    ensures outcome.Raise? && outcome.error.kind == ArgumentException ==> r == outcome
    ensures outcome.Raise? && outcome.error.kind != ArgumentException ==>
              r == Raise(Exc(rethrow, outcome.error.message))
  {
    match outcome
    case Ok(_) => outcome
    case Raise(e) =>
      if e.kind == ArgumentException then outcome else Raise(Exc(rethrow, e.message))
  }

  /** The decorator's default target class. */
  const DefaultRethrow: ExcKind := OperationException

  /** Wrapping an already wrapped call changes nothing more. */
  lemma WrapIdempotent<T>(rethrow: ExcKind, outcome: Result<T>)
    ensures Wrap(rethrow, Wrap(rethrow, outcome)) == Wrap(rethrow, outcome)
  {
  }
}
