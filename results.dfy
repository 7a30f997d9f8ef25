/** Success/failure carriers shared by the whole model.

    The source reports failures by raising Python exceptions; the model returns
    them as values. `Exc` keeps the exception class and its message. */
module Results {

  datatype Option<+T> = None | Some(value: T)

  /** The exception classes the modelled code raises or catches. */
  datatype ExcKind =
    | ArgumentException    // validator.argument_exception
    | OperationException   // validator.operation_exception
    | ValueError
    | TypeError
    | KeyError
    | AttributeError
    | OtherException(className: string)

  datatype Exc = Exc(kind: ExcKind, message: string)

  /** The outcome of a Python call: a returned value or a raised exception. */
  datatype Result<+T> = Ok(value: T) | Raise(error: Exc)

  function Fail<T>(kind: ExcKind, message: string): Result<T>
  {
    Raise(Exc(kind, message))
  }

  /** A Python comprehension over calls that may raise: the values of all the
      calls when none raises, otherwise the first exception in order. */
  function Collect<T>(rs: seq<Result<T>>): (r: Result<seq<T>>)
    ensures r.Ok? <==> forall i :: 0 <= i < |rs| ==> rs[i].Ok?
    ensures r.Ok? ==> |r.value| == |rs| && forall i :: 0 <= i < |rs| ==> r.value[i] == rs[i].value
    ensures r.Raise? ==> exists i :: 0 <= i < |rs| && rs[i] == Raise(r.error) &&
                                     forall j :: 0 <= j < i ==> rs[j].Ok?
  {
    if rs == [] then Ok([])
    else
      match Collect(rs[..|rs| - 1])
      case Raise(e) => Raise(e)
      case Ok(xs) =>
        match rs[|rs| - 1]
        case Raise(e) => Raise(e)
        case Ok(x) => Ok(xs + [x])
  }

  /** The comprehension raises the exception of its first call that raises. */
  lemma CollectFirstRaise<T>(rs: seq<Result<T>>, i: nat)
    requires i < |rs| && rs[i].Raise? && forall j :: 0 <= j < i ==> rs[j].Ok?
    ensures Collect(rs) == Raise(rs[i].error)
  {
  }

  /** When every call returns, the comprehension returns their values. */
  lemma CollectAllOk<T>(rs: seq<Result<T>>, xs: seq<T>)
    requires |xs| == |rs| && forall j :: 0 <= j < |rs| ==> rs[j] == Ok(xs[j])
    ensures Collect(rs) == Ok(xs)
  {
    assert Collect(rs).Ok?;
    assert Collect(rs).value == xs;
  }
}
