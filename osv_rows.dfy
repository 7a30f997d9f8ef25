/** One line of the turnover statement, task2/src/models/osv_row_model.py. */
module OsvRows {
  import opened Results
  import opened Units
  import opened Warehouses
  import opened Nomenclatures

  /** A Python number as a row holds it: an `int` or a `float`. */
  datatype Amount = IntAmount(i: int) | FloatAmount(x: real)
  {
    /** The number's value. */
    function Real(): real
    {
      if IntAmount? then i as real else x
    }
  }

  /** Python `a + b`: an int only when both are ints. */
  function Add(a: Amount, b: Amount): (r: Amount)
    ensures r.Real() == a.Real() + b.Real()
    ensures r.IntAmount? <==> a.IntAmount? && b.IntAmount?
  {
    if a.IntAmount? && b.IntAmount? then IntAmount(a.i + b.i) else FloatAmount(a.Real() + b.Real())
  }

  /** Python `a - b`: an int only when both are ints. */
  function Subtract(a: Amount, b: Amount): (r: Amount)
    ensures r.Real() == a.Real() - b.Real()
    ensures r.IntAmount? <==> a.IntAmount? && b.IntAmount?
  {
    if a.IntAmount? && b.IntAmount? then IntAmount(a.i - b.i) else FloatAmount(a.Real() - b.Real())
  }

  /** Python `-a`, which keeps the kind of number. */
  function Negate(a: Amount): (r: Amount)
    ensures r.Real() == -a.Real()
    ensures r.IntAmount? <==> a.IntAmount?
  {
    match a
    case IntAmount(i) => IntAmount(-i)
    case FloatAmount(x) => FloatAmount(-x)
  }

  /** Where, what and in which unit, with the opening balance and the period's
      receipts and issues (issues as a positive amount). */
  datatype OsvRow = OsvRow(warehouse: Option<Warehouse>, item: Option<Item>, unit: Option<Unit>,
                           opening: Amount, incoming: Amount, outgoing: Amount)
  {
    /** The `closing` property: derived from the three stored amounts, never
        stored; an int only when all three are. */
    function Closing(): (r: Amount)
      ensures r.IntAmount? <==> opening.IntAmount? && incoming.IntAmount? && outgoing.IntAmount?
    {
      Subtract(Add(opening, incoming), outgoing)
    }
  }

  /** The closing balance is opening plus receipts minus issues; moving any of
      the stored amounts moves it by the same amount (the opposite one for
      issues), and nothing else affects it. */
  lemma ClosingIsDerived(r: OsvRow, dOpening: real, dIncoming: real, dOutgoing: real)
    ensures r.Closing().Real() == r.opening.Real() + r.incoming.Real() - r.outgoing.Real()
    ensures r.(opening := FloatAmount(r.opening.Real() + dOpening),
               incoming := FloatAmount(r.incoming.Real() + dIncoming),
               outgoing := FloatAmount(r.outgoing.Real() + dOutgoing)).Closing().Real()
            == r.Closing().Real() + dOpening + dIncoming - dOutgoing
    ensures forall w, i, u :: r.(warehouse := w, item := i, unit := u).Closing() == r.Closing()
  {
  }

  /** A row with nothing opened, received or issued closes at zero. */
  lemma ZeroRowClosesAtZero(r: OsvRow)
    requires r.opening.Real() == 0.0 && r.incoming.Real() == 0.0 && r.outgoing.Real() == 0.0
    ensures r.Closing().Real() == 0.0
  {
  }

  /** Issues never raise the closing balance above opening plus receipts. */
  lemma ClosingBound(r: OsvRow)
    requires r.outgoing.Real() >= 0.0
    ensures r.Closing().Real() <= r.opening.Real() + r.incoming.Real()
  {
  }
}
