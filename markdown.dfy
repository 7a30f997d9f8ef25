/** The Markdown table renderer, task2/src/logics/response_md.py
    (`response_md.create_response`); `MarkdownFormatter.format` in
    task2/src/core/response_formatters.py is the same code and is modelled by
    the same members. A table is a list of dicts: the first dict's keys are the
    columns, and every dict gives one line of cells. */
module Markdown {
  import opened Results
  import opened Text
  import opened Values

  /** One dict of the list being rendered. */
  type Row = seq<(string, Value)>

  /** `list(row.keys())`. */
  function Keys(row: Row): (ks: seq<string>)
    ensures |ks| == |row| && forall i :: 0 <= i < |row| ==> ks[i] == row[i].0
  {
    seq(|row|, i requires 0 <= i < |row| => row[i].0)
  }

  /** One line of the table: the cells between bars. */
  function Line(cells: seq<string>): string
  {
    "| " + Join(cells, " | ") + " |\n"
  }

  /** The separator cells, one `---` per column. */
  function Dashes(n: nat): (r: seq<string>)
    ensures |r| == n && forall i :: 0 <= i < n ==> r[i] == "---"
  {
    seq(n, _ => "---")
  }

  /** The lines written one after another. */
  function Concat(lines: seq<string>): string
  {
    if lines == [] then "" else Concat(lines[..|lines| - 1]) + lines[|lines| - 1]
  }

  /** The `KeyError` that `row[h]` raises for a missing key. */
  function MissingKey(h: string): Exc
  {
    Exc(KeyError, "'" + h + "'")
  }

  /** `row[h]`: the value under `h`, or the `KeyError` for a missing key. */
  function Get(row: Row, h: string): Result<Value>
  {
    match Lookup(row, h)
    case Some(v) => Ok(v)
    case None => Raise(MissingKey(h))
  }

  /** `row[h]` for each header `h`, in header order. */
  function Gets(row: Row, headers: seq<string>): (gs: seq<Result<Value>>)
    ensures |gs| == |headers| && forall j :: 0 <= j < |headers| ==> gs[j] == Get(row, headers[j])
  {
    seq(|headers|, j requires 0 <= j < |headers| => Get(row, headers[j]))
  }

  /** `[row[h] for h in headers]`: the values of one line's cells, or the
      error of the first header the row lacks. */
  function RowCells(row: Row, headers: seq<string>): Result<seq<Value>>
  {
    Collect(Gets(row, headers))
  }

  /** `str(v)` of each value, in order. How one value prints is the
      parameter `str`: the table's layout does not depend on it, and `Table`
      passes Python's `str`, `ToStr`, when it renders. */
  function Texts(vs: seq<Value>, str: Value -> string): (ts: seq<string>)
    ensures |ts| == |vs| && forall i :: 0 <= i < |vs| ==> ts[i] == str(vs[i])
  {
    seq(|vs|, i requires 0 <= i < |vs| => str(vs[i]))
  }

  /** The line one row renders to under `headers`, or the error it raises. */
  function LineOf(row: Row, headers: seq<string>, str: Value -> string): Result<string>
  {
    match RowCells(row, headers)
    case Ok(cs) => Ok(Line(Texts(cs, str)))
    case Raise(e) => Raise(e)
  }

  /** The line, or the error, of each row in turn. */
  function RowResults(rows: seq<Row>, headers: seq<string>, str: Value -> string): (ls: seq<Result<string>>)
    ensures |ls| == |rows| && forall i :: 0 <= i < |rows| ==> ls[i] == LineOf(rows[i], headers, str)
  {
    seq(|rows|, i requires 0 <= i < |rows| => LineOf(rows[i], headers, str))
  }

  /** What `create_response(data)` returns or raises, each value printed
      with `str`: the first row's keys are the headers, and the first row
      lacking one of them raises. */
  function Table(data: seq<Row>, str: Value -> string): Result<string>
  {
    if data == [] then Ok("")
    else
      var headers := Keys(data[0]);
      match Collect(RowResults(data, headers, str))
      case Ok(ls) => Ok(Line(headers) + Line(Dashes(|headers|)) + Concat(ls))
      case Raise(e) => Raise(e)
  }

  /** `" | ".join(str(row[h]) for h in headers)`, framed as one line. */
  method RowLine(row: Row, headers: seq<string>, str: Value -> string) returns (r: Result<string>)
    ensures r == LineOf(row, headers, str)
  {
    ghost var gs := Gets(row, headers);
    var cells := [];
    ghost var values := [];
    for j := 0 to |headers|
      invariant |values| == j && forall m :: 0 <= m < j ==> gs[m] == Ok(values[m])
      invariant cells == Texts(values, str)
    {
      match Lookup(row, headers[j]) {
        case Some(v) =>
          assert Texts(values + [v], str) == cells + [str(v)];
          cells := cells + [str(v)];
          values := values + [v];
        case None =>
          CollectFirstRaise(gs, j);
          return Raise(MissingKey(headers[j]));
      }
    }
    CollectAllOk(gs, values);
    return Ok(Line(cells));
  }

  /** `create_response(data)`: the header line, the separator line, then one
      line per row. */
  method Render(data: seq<Row>) returns (r: Result<string>)
    ensures r == Table(data, ToStr)
  {
    if |data| == 0 {
      return Ok("");
    }
    var headers := Keys(data[0]);
    var md := Line(headers);
    md := md + Line(Dashes(|headers|));
    r := AppendRows(data, headers, md, ToStr);
  }

  /** The row loop of `create_response`: each row's line appended to `md` in
      turn, or the first failing row's error. */
  method AppendRows(data: seq<Row>, headers: seq<string>, md: string, str: Value -> string)
    returns (r: Result<string>)
    ensures Collect(RowResults(data, headers, str)).Ok? ==>
              r == Ok(md + Concat(Collect(RowResults(data, headers, str)).value))
    ensures Collect(RowResults(data, headers, str)).Raise? ==>
              r == Raise(Collect(RowResults(data, headers, str)).error)
  {
    ghost var rs := RowResults(data, headers, str);
    ghost var ls: seq<string> := [];
    var out := md;
    for i := 0 to |data|
      invariant |ls| == i && forall m :: 0 <= m < i ==> rs[m] == Ok(ls[m])
      invariant out == md + Concat(ls)
    {
      var line := RowLine(data[i], headers, str);
      if line.Raise? {
        CollectFirstRaise(rs, i);
        return Raise(line.error);
      }
      PrefixStep(rs, ls, line.value);
      AppendConcat(md, ls, line.value);
      out := out + line.value;
      ls := ls + [line.value];
    }
    CollectAllOk(rs, ls);
    return Ok(out);
  }

  /** One pass of the row loop keeps the lines written so far equal to the
      lines of the rows read so far. */
  lemma PrefixStep(rs: seq<Result<string>>, ls: seq<string>, l: string)
    requires |ls| < |rs| && rs[|ls|] == Ok(l)
    requires forall m :: 0 <= m < |ls| ==> rs[m] == Ok(ls[m])
    ensures forall m :: 0 <= m < |ls| + 1 ==> rs[m] == Ok((ls + [l])[m])
  {
  }

  /** Appending one more line to the text written so far. */
  lemma AppendConcat(md: string, ls: seq<string>, l: string)
    ensures (md + Concat(ls)) + l == md + Concat(ls + [l])
  {
    ConcatSnoc(ls, l);
    assert (md + Concat(ls)) + l == md + (Concat(ls) + l);
  }

  /** Writing one more line after a run of lines. */
  lemma ConcatSnoc(lines: seq<string>, l: string)
    ensures Concat(lines + [l]) == Concat(lines) + l
  {
    assert (lines + [l])[..|lines|] == lines;
  }

  /** Writing two runs of lines is writing the first run, then the second. */
  lemma {:induction false} ConcatAppend(a: seq<string>, b: seq<string>)
    ensures Concat(a + b) == Concat(a) + Concat(b)
    decreases |b|
  {
    if b == [] {
      assert a + b == a;
    } else {
      var front, last := b[..|b| - 1], b[|b| - 1];
      assert b == front + [last];
      assert a + b == (a + front) + [last];
      ConcatAppend(a, front);
      ConcatSnoc(a + front, last);
      ConcatSnoc(front, last);
      assert (Concat(a) + Concat(front)) + last == Concat(a) + (Concat(front) + last);
    }
  }

  /** Two lines written one after the other. */
  lemma ConcatPair(x: string, y: string)
    ensures Concat([x, y]) == x + y
  {
    assert [x, y][..1] == [x];
    assert [x][..0] == [];
    assert Concat([x]) == Concat([]) + x;
    assert Concat([x, y]) == Concat([x]) + y;
  }

  /** A line of the table as Markdown lays it out: it opens with `"| "` and
      closes with `" |\n"`. */
  predicate IsLine(s: string)
  {
    |s| >= 4 && s[..2] == "| " && s[|s| - 3..] == " |\n"
  }

  /** Every line the renderer writes has the shape of a table line. */
  lemma LineShape(cells: seq<string>)
    ensures IsLine(Line(cells))
  {
    var body := Join(cells, " | ");
    var l := Line(cells);
    assert l == "| " + (body + " |\n");
    assert l == ("| " + body) + " |\n";
  }

  /** The row has a value under every header. */
  predicate Complete(row: Row, headers: seq<string>)
  {
    forall j :: 0 <= j < |headers| ==> HasKey(row, headers[j])
  }

  /** A row renders exactly when it has every header. */
  lemma RowOk(row: Row, headers: seq<string>, str: Value -> string)
    ensures LineOf(row, headers, str).Ok? <==> Complete(row, headers)
  {
    var gs := Gets(row, headers);
    assert forall j :: 0 <= j < |headers| ==> (gs[j].Ok? <==> HasKey(row, headers[j]));
  }

  /** The cells of a row that has every header, `str(row[h])` for each
      header `h` in order. */
  function CellTexts(row: Row, headers: seq<string>, str: Value -> string): (ts: seq<string>)
    requires Complete(row, headers)
    ensures |ts| == |headers|
  {
    seq(|headers|, j requires 0 <= j < |headers| => str(Lookup(row, headers[j]).value))
  }

  /** A row that renders is the line of its cells. */
  lemma RowText(row: Row, headers: seq<string>, str: Value -> string)
    requires LineOf(row, headers, str).Ok?
    ensures Complete(row, headers)
    ensures LineOf(row, headers, str).value == Line(CellTexts(row, headers, str))
  {
    RowOk(row, headers, str);
    var gs := Gets(row, headers);
    var cs := Collect(gs).value;
    assert Texts(cs, str) == CellTexts(row, headers, str);
  }

  /** The first header a row that does not render lacks, whose `KeyError`
      it raises. */
  lemma MissingHeader(row: Row, headers: seq<string>, str: Value -> string) returns (j: nat)
    requires LineOf(row, headers, str).Raise?
    ensures j < |headers| && !HasKey(row, headers[j])
    ensures LineOf(row, headers, str).error == MissingKey(headers[j])
    ensures forall m :: 0 <= m < j ==> HasKey(row, headers[m])
  {
    var gs := Gets(row, headers);
    j :| 0 <= j < |gs| && gs[j] == Raise(Collect(gs).error) && forall m :: 0 <= m < j ==> gs[m].Ok?;
    assert forall m :: 0 <= m < j ==> HasKey(row, headers[m]);
  }

  /** A row that does not render raises the `KeyError` of the first header
      it lacks. */
  lemma RowError(row: Row, headers: seq<string>, str: Value -> string)
    requires LineOf(row, headers, str).Raise?
    ensures exists j :: 0 <= j < |headers| && !HasKey(row, headers[j]) &&
                        LineOf(row, headers, str).error == MissingKey(headers[j]) &&
                        forall m :: 0 <= m < j ==> HasKey(row, headers[m])
  {
    var j := MissingHeader(row, headers, str);
  }

  /** The first row that does not render, whose error the rows raise. */
  lemma FailingRow(rows: seq<Row>, headers: seq<string>, str: Value -> string) returns (i: nat)
    requires Collect(RowResults(rows, headers, str)).Raise?
    ensures i < |rows| && LineOf(rows[i], headers, str) == Raise(Collect(RowResults(rows, headers, str)).error)
    ensures forall m :: 0 <= m < i ==> LineOf(rows[m], headers, str).Ok?
  {
    var rs := RowResults(rows, headers, str);
    i :| 0 <= i < |rs| && rs[i] == Raise(Collect(rs).error) && forall m :: 0 <= m < i ==> rs[m].Ok?;
  }

  /** The data lines of rows that have every header, one per row. */
  function RowLines(rows: seq<Row>, headers: seq<string>, str: Value -> string): (ls: seq<string>)
    requires forall i :: 0 <= i < |rows| ==> Complete(rows[i], headers)
    ensures |ls| == |rows|
  {
    seq(|rows|, i requires 0 <= i < |rows| => Line(CellTexts(rows[i], headers, str)))
  }

  /** A table renders exactly when every row has every key of the first row;
      keys the first row lacks play no part. */
  lemma TableOk(data: seq<Row>, str: Value -> string)
    requires data != []
    ensures var h := Keys(data[0]);
            Table(data, str).Ok? <==> forall i :: 0 <= i < |data| ==> Complete(data[i], h)
  {
    var h := Keys(data[0]);
    forall i | 0 <= i < |data| ensures LineOf(data[i], h, str).Ok? <==> Complete(data[i], h) {
      RowOk(data[i], h, str);
    }
  }

  /** A table that does not render raises the `KeyError` of the first key of
      the first row that the first incomplete row lacks. */
  lemma TableError(data: seq<Row>, str: Value -> string)
    requires Table(data, str).Raise?
    ensures data != []
    ensures Table(data, str).error.kind == KeyError
    ensures var h := Keys(data[0]);
            exists i, j :: 0 <= i < |data| && 0 <= j < |h| && !HasKey(data[i], h[j]) &&
              Table(data, str).error == MissingKey(h[j]) &&
              (forall m :: 0 <= m < i ==> Complete(data[m], h)) &&
              (forall n :: 0 <= n < j ==> HasKey(data[i], h[n]))
  {
    var h := Keys(data[0]);
    var i := FailingRow(data, h, str);
    var j := MissingHeader(data[i], h, str);
    assert forall m :: 0 <= m < i ==> Complete(data[m], h) by {
      forall m | 0 <= m < i ensures Complete(data[m], h) {
        RowOk(data[m], h, str);
      }
    }
    assert Table(data, str).error == MissingKey(h[j]);
  }

  /** A rendered table is `len(data) + 2` lines written one after another:
      the first row's keys, one `---` per key, then for each row
      `str(row[h])` for each header `h` in order. */
  lemma TableLines(data: seq<Row>, str: Value -> string)
    requires data != [] && Table(data, str).Ok?
    ensures var h := Keys(data[0]);
            (forall i :: 0 <= i < |data| ==> Complete(data[i], h)) &&
            Table(data, str).value == Concat([Line(h), Line(Dashes(|h|))] + RowLines(data, h, str))
  {
    var h := Keys(data[0]);
    TableOk(data, str);
    var rs := RowResults(data, h, str);
    var ls := Collect(rs).value;
    forall i | 0 <= i < |data| ensures ls[i] == Line(CellTexts(data[i], h, str)) {
      RowText(data[i], h, str);
    }
    assert ls == RowLines(data, h, str);
    ConcatAppend([Line(h), Line(Dashes(|h|))], ls);
    ConcatPair(Line(h), Line(Dashes(|h|)));
  }

  /** Every line of a rendered table opens with `"| "` and closes with
      `" |\n"`. */
  lemma TableLineShapes(data: seq<Row>, str: Value -> string)
    requires data != [] && forall i :: 0 <= i < |data| ==> Complete(data[i], Keys(data[0]))
    ensures var h := Keys(data[0]);
            var lines := [Line(h), Line(Dashes(|h|))] + RowLines(data, h, str);
            |lines| == |data| + 2 && forall k :: 0 <= k < |lines| ==> IsLine(lines[k])
  {
    var h := Keys(data[0]);
    var lines := [Line(h), Line(Dashes(|h|))] + RowLines(data, h, str);
    forall k | 0 <= k < |lines| ensures IsLine(lines[k]) {
      if k == 0 {
        LineShape(h);
      } else if k == 1 {
        LineShape(Dashes(|h|));
      } else {
        LineShape(CellTexts(data[k - 2], h, str));
      }
    }
  }

  /** Keys missing from the first row are never rendered: tables whose rows
      find the same values under the first row's keys render the same. */
  lemma TableIgnoresExtraKeys(a: seq<Row>, b: seq<Row>, str: Value -> string)
    requires |a| == |b| && a != [] && Keys(a[0]) == Keys(b[0])
    requires forall i, j :: 0 <= i < |a| && 0 <= j < |Keys(a[0])| ==>
               Lookup(a[i], Keys(a[0])[j]) == Lookup(b[i], Keys(a[0])[j])
    ensures Table(a, str) == Table(b, str)
  {
    var h := Keys(a[0]);
    forall i | 0 <= i < |a| ensures Gets(a[i], h) == Gets(b[i], h) {
      assert forall j :: 0 <= j < |h| ==> Gets(a[i], h)[j] == Gets(b[i], h)[j];
    }
    assert RowResults(a, h, str) == RowResults(b, h, str);
  }

  /** A single row with distinct keys always renders: its header line, its
      separator, and its own values in key order. */
  lemma TableOneRow(row: Row, str: Value -> string)
    requires DistinctKeys(row)
    ensures Table([row], str) == Ok(Line(Keys(row)) + Line(Dashes(|row|)) +
                               Line(seq(|row|, j requires 0 <= j < |row| => str(row[j].1))))
  {
    var h := Keys(row);
    forall j | 0 <= j < |row| ensures Lookup(row, h[j]) == Some(row[j].1) {
      LookupAt(row, j);
    }
    var l := Line(CellTexts(row, h, str));
    assert CellTexts(row, h, str) == seq(|row|, j requires 0 <= j < |row| => str(row[j].1));
    RowOk(row, h, str);
    RowText(row, h, str);
    CollectAllOk(RowResults([row], h, str), [l]);
    assert Concat([l]) == l by {
      assert [l][..0] == [];
    }
  }

  /** A rendered table opens with the line of the first row's keys. */
  lemma TableHeader(data: seq<Row>, str: Value -> string)
    requires data != [] && Table(data, str).Ok?
    ensures var h := Keys(data[0]);
            |Line(h)| <= |Table(data, str).value| && Table(data, str).value[..|Line(h)|] == Line(h)
  {
    var h := Keys(data[0]);
    var rest := Line(Dashes(|h|)) + Concat(Collect(RowResults(data, h, str)).value);
    assert Table(data, str).value == Line(h) + rest;
  }

  /** The header line of the columns `id` and `name`. */
  lemma IdNameLine()
    ensures Line(["id", "name"]) == "| id | name |\n"
  {
    var h := ["id", "name"];
    assert Join(h, " | ") == "id | name" by {
      assert h[1..] == ["name"];
    }
  }

  /** Two rows keyed `id` and `name` render, with those keys as headers. */
  lemma IdNameRenders(x1: Value, x2: Value, y1: Value, y2: Value, str: Value -> string)
    ensures var data := [[("id", x1), ("name", y1)], [("id", x2), ("name", y2)]];
            Keys(data[0]) == ["id", "name"] && Table(data, str).Ok?
  {
    var r1 := [("id", x1), ("name", y1)];
    var r2 := [("id", x2), ("name", y2)];
    var data := [r1, r2];
    var h := Keys(r1);
    assert h == ["id", "name"];
    assert Complete(r1, h) by {
      assert r1[0].0 == h[0] && r1[1].0 == h[1];
    }
    assert Complete(r2, h) by {
      assert r2[0].0 == h[0] && r2[1].0 == h[1];
    }
    TableOk(data, str);
  }

  /** Two rows keyed `id` and `name` render with the header line
      `| id | name |`. */
  lemma HeaderExample(x1: Value, x2: Value, y1: Value, y2: Value, str: Value -> string)
    ensures var data := [[("id", x1), ("name", y1)], [("id", x2), ("name", y2)]];
            Table(data, str).Ok? && Table(data, str).value[..14] == "| id | name |\n"
  {
    var data := [[("id", x1), ("name", y1)], [("id", x2), ("name", y2)]];
    IdNameLine();
    IdNameRenders(x1, x2, y1, y2, str);
    TableHeader(data, str);
  }
}
