/** Row filtering by dotted field paths, task2/src/core/filter_utils.py. */
module FilterUtils {
  import opened Results
  import opened Text
  import opened Values
  import opened FilterDtos

  /** The value a dotted path leads to: a dict is read with `get` (exact,
      case-sensitive keys), an object by attribute name; a missing attribute, a
      value with no attributes, or a None met on the way gives None. */
  function NestedValue(v: Value, parts: seq<string>): (r: Value)
    decreases |parts|
  {
    if parts == [] then v
    else if v == Nil then Nil
    else if v.Dict? then NestedValue(DictGet(v.entries, parts[0]), parts[1..])
    else
      match GetAttr(v, parts[0])
      case Some(a) => NestedValue(a, parts[1..])
      case None => Nil
  }

  /** A None met anywhere on the path is the result. */
  lemma {:induction false} NilStaysNil(parts: seq<string>)
    ensures NestedValue(Nil, parts) == Nil
  {
  }

  /** A path of one key into a dict is a plain `get`. */
  lemma SingleKeyIsGet(entries: seq<(string, Value)>, key: string)
    ensures NestedValue(Dict(entries), [key]) == DictGet(entries, key)
  {
    NilStaysNil([]);
  }

  /** A path may go on into a datetime's fields: `date.year` reads the year. */
  lemma DateFieldPath(key: string, d: Value)
    requires d.DateTime?
    ensures NestedValue(Dict([(key, d)]), [key, "year"]) == Int(d.year)
  {
    assert DictGet([(key, d)], key) == d;
    assert [key, "year"][1..] == ["year"];
    assert NestedValue(Dict([(key, d)]), [key, "year"]) == NestedValue(d, ["year"]);
    assert GetAttr(d, "year") == Some(Int(d.year));
    assert ["year"][1..] == [];
    assert NestedValue(d, ["year"]) == NestedValue(Int(d.year), []);
  }

  /** `get_nested_value(obj, field_path)`: walks the path's pieces, replacing
      the current value, and stops at the first None. */
  method GetNestedValue(obj: Value, fieldPath: string) returns (r: Value)
    ensures r == NestedValue(obj, Split(fieldPath, '.'))
  {
    var parts := Split(fieldPath, '.');
    var current := obj;
    var i := 0;
    while i < |parts|
      invariant 0 <= i <= |parts|
      invariant NestedValue(obj, parts) == NestedValue(current, parts[i..])
    {
      if current == Nil {
        return Nil;
      }
      var part := parts[i];
      assert parts[i..][1..] == parts[i + 1..];
      if current.Dict? {
        current := DictGet(current.entries, part);
        i := i + 1;
        continue;
      }
      var attr := GetAttr(current, part);
      if attr.Some? {
        current := attr.value;
        i := i + 1;
        continue;
      }
      return Nil;
    }
    r := current;
  }

  /** Whether a row passes one filter: the field must resolve to something
      other than None, and the lower-cased `str` forms must be equal (EQUALS) or
      the filter's must occur in the field's (LIKE). */
  predicate Passes(obj: Value, f: FilterDto)
    requires f.fieldName.Str?
  {
    var value := NestedValue(obj, Split(f.fieldName.s, '.'));
    value != Nil &&
    var valueText := Lower(ToStr(value));
    var filterText := Lower(ToStr(f.value));
    match f.filterType
    case Equals => valueText == filterText
    case Like => Contains(valueText, filterText)
  }

  predicate PathsAreStrings(filters: seq<FilterDto>)
  {
    forall i :: 0 <= i < |filters| ==> filters[i].fieldName.Str?
  }

  /** The elements satisfying `p`, in their order. */
  function KeepIf(xs: seq<Value>, p: Value -> bool): (r: seq<Value>)
    ensures |r| <= |xs|
  {
    if xs == [] then []
    else KeepIf(xs[..|xs| - 1], p) + (if p(xs[|xs| - 1]) then [xs[|xs| - 1]] else [])
  }

  /** The rows that pass `f`, in their order. */
  function Select(objs: seq<Value>, f: FilterDto): seq<Value>
    requires f.fieldName.Str?
  {
    KeepIf(objs, o => f.fieldName.Str? && Passes(o, f))
  }

  /** The filters applied one after another, each narrowing the previous result. */
  function Narrow(objs: seq<Value>, filters: seq<FilterDto>): seq<Value>
    requires PathsAreStrings(filters)
  {
    if filters == [] then objs
    else Select(Narrow(objs, filters[..|filters| - 1]), filters[|filters| - 1])
  }

  /** Passing every filter. */
  predicate PassesAll(obj: Value, filters: seq<FilterDto>)
    requires PathsAreStrings(filters)
  {
    forall i :: 0 <= i < |filters| ==> Passes(obj, filters[i])
  }

  /** The rows that pass every filter, in their order. */
  function Keep(objs: seq<Value>, filters: seq<FilterDto>): seq<Value>
    requires PathsAreStrings(filters)
  {
    KeepIf(objs, o => PathsAreStrings(filters) && PassesAll(o, filters))
  }

  /** `xs` is `ys` with some elements dropped, the rest in their order. */
  predicate IsSubsequence<T(==)>(xs: seq<T>, ys: seq<T>)
    decreases |ys|
  {
    if ys == [] then xs == []
    else IsSubsequence(xs, ys[..|ys| - 1]) ||
         (xs != [] && xs[|xs| - 1] == ys[|ys| - 1] && IsSubsequence(xs[..|xs| - 1], ys[..|ys| - 1]))
  }

  /** Keeping elements preserves their order: the result is a subsequence. */
  lemma {:induction false} KeepIfIsSubsequence(xs: seq<Value>, p: Value -> bool)
    ensures IsSubsequence(KeepIf(xs, p), xs)
    decreases |xs|
  {
    if xs != [] {
      var front := xs[..|xs| - 1];
      KeepIfIsSubsequence(front, p);
      var kept := KeepIf(xs, p);
      if p(xs[|xs| - 1]) {
        assert kept == KeepIf(front, p) + [xs[|xs| - 1]];
        assert kept[..|kept| - 1] == KeepIf(front, p);
      } else {
        assert kept == KeepIf(front, p);
      }
    }
  }

  /** An element is kept exactly when it is in the input and satisfies `p`. */
  lemma {:induction false} KeepIfMembership(xs: seq<Value>, p: Value -> bool, x: Value)
    ensures x in KeepIf(xs, p) <==> x in xs && p(x)
    decreases |xs|
  {
    if xs != [] {
      var front := xs[..|xs| - 1];
      KeepIfMembership(front, p, x);
      assert xs == front + [xs[|xs| - 1]];
    }
  }

  /** Keeping with a condition every element meets keeps everything. */
  lemma {:induction false} KeepIfAll(xs: seq<Value>, p: Value -> bool)
    requires forall i :: 0 <= i < |xs| ==> p(xs[i])
    ensures KeepIf(xs, p) == xs
    decreases |xs|
  {
    if xs != [] {
      KeepIfAll(xs[..|xs| - 1], p);
      assert xs == xs[..|xs| - 1] + [xs[|xs| - 1]];
    }
  }

  /** Conditions that agree on the input keep the same elements. */
  lemma {:induction false} KeepIfSame(xs: seq<Value>, p: Value -> bool, q: Value -> bool)
    requires forall i :: 0 <= i < |xs| ==> p(xs[i]) == q(xs[i])
    ensures KeepIf(xs, p) == KeepIf(xs, q)
    decreases |xs|
  {
    if xs != [] {
      KeepIfSame(xs[..|xs| - 1], p, q);
    }
  }

  lemma KeepIfAppendOne(xs: seq<Value>, y: Value, p: Value -> bool)
    ensures KeepIf(xs + [y], p) == KeepIf(xs, p) + (if p(y) then [y] else [])
  {
    assert (xs + [y])[..|xs + [y]| - 1] == xs;
  }

  /** Keeping by `p` and then by `q` keeps by both at once. */
  lemma {:induction false} KeepIfTwice(xs: seq<Value>, p: Value -> bool, q: Value -> bool,
                                       pq: Value -> bool)
    requires forall x :: pq(x) == (p(x) && q(x))
    ensures KeepIf(KeepIf(xs, p), q) == KeepIf(xs, pq)
    decreases |xs|
  {
    if xs != [] {
      var front := xs[..|xs| - 1];
      var last := xs[|xs| - 1];
      KeepIfTwice(front, p, q, pq);
      if p(last) {
        assert KeepIf(xs, p) == KeepIf(front, p) + [last];
        KeepIfAppendOne(KeepIf(front, p), last, q);
      } else {
        assert KeepIf(xs, p) == KeepIf(front, p);
        assert !pq(last);
      }
    }
  }

  /** Keeping rows is order-preserving, keeps exactly the rows passing every
      filter, and with no filter keeps everything. */
  lemma KeepProperties(objs: seq<Value>, filters: seq<FilterDto>)
    requires PathsAreStrings(filters)
    ensures IsSubsequence(Keep(objs, filters), objs)
    ensures forall x :: x in Keep(objs, filters) <==> x in objs && PassesAll(x, filters)
    ensures filters == [] ==> Keep(objs, filters) == objs
  {
    var p := o => PathsAreStrings(filters) && PassesAll(o, filters);
    KeepIfIsSubsequence(objs, p);
    forall x
      ensures x in Keep(objs, filters) <==> x in objs && PassesAll(x, filters)
    {
      KeepIfMembership(objs, p, x);
    }
    if filters == [] {
      KeepIfAll(objs, p);
    }
  }

  /** Passing one more filter is passing the others and that one. */
  lemma PassesAllSnoc(x: Value, filters: seq<FilterDto>, f: FilterDto)
    requires PathsAreStrings(filters) && f.fieldName.Str?
    ensures PathsAreStrings(filters + [f])
    ensures PassesAll(x, filters + [f]) <==> PassesAll(x, filters) && Passes(x, f)
  {
    var all := filters + [f];
    assert forall i :: 0 <= i < |all| ==> all[i] == if i < |filters| then filters[i] else f;
    if PassesAll(x, filters) && Passes(x, f) {
      forall i | 0 <= i < |all| ensures Passes(x, all[i]) {
        if i < |filters| { assert all[i] == filters[i]; }
      }
    }
    if PassesAll(x, all) {
      forall i | 0 <= i < |filters| ensures Passes(x, filters[i]) {
        assert all[i] == filters[i];
      }
      assert all[|filters|] == f;
    }
  }

  /** Narrowing one filter at a time keeps the same rows as requiring every
      filter at once: the sequential narrowing is a conjunction. */
  lemma {:induction false} NarrowIsKeep(objs: seq<Value>, filters: seq<FilterDto>)
    requires PathsAreStrings(filters)
    ensures Narrow(objs, filters) == Keep(objs, filters)
    decreases |filters|
  {
    if filters == [] {
      KeepIfAll(objs, o => PathsAreStrings(filters) && PassesAll(o, filters));
    } else {
      var front := filters[..|filters| - 1];
      var f := filters[|filters| - 1];
      assert PathsAreStrings(front);
      NarrowIsKeep(objs, front);
      forall x
        ensures (PathsAreStrings(filters) && PassesAll(x, filters)) ==
                ((PathsAreStrings(front) && PassesAll(x, front)) && (f.fieldName.Str? && Passes(x, f)))
      {
        PassesAllSnoc(x, front, f);
        assert front + [f] == filters;
      }
      KeepIfTwice(objs, o => PathsAreStrings(front) && PassesAll(o, front),
                  o => f.fieldName.Str? && Passes(o, f),
                  o => PathsAreStrings(filters) && PassesAll(o, filters));
    }
  }

  /** Narrowing keeps only rows of its input, so whatever holds of every input
      row holds of every row kept. */
  lemma {:induction false} NarrowKeepsProperty(objs: seq<Value>, filters: seq<FilterDto>, q: Value -> bool)
    requires PathsAreStrings(filters)
    requires forall i :: 0 <= i < |objs| ==> q(objs[i])
    ensures forall i :: 0 <= i < |Narrow(objs, filters)| ==> q(Narrow(objs, filters)[i])
    decreases |filters|
  {
    if filters != [] {
      var front := filters[..|filters| - 1];
      var f := filters[|filters| - 1];
      assert PathsAreStrings(front);
      NarrowKeepsProperty(objs, front, q);
      var prev := Narrow(objs, front);
      forall i | 0 <= i < |Narrow(objs, filters)|
        ensures q(Narrow(objs, filters)[i])
      {
        var x := Narrow(objs, filters)[i];
        KeepIfMembership(prev, o => f.fieldName.Str? && Passes(o, f), x);
      }
    }
  }

  /** Selecting from one more row adds that row when it passes. */
  lemma SelectStep(rows: seq<Value>, j: int, f: FilterDto)
    requires 0 <= j < |rows| && f.fieldName.Str?
    ensures Select(rows[..j + 1], f) == Select(rows[..j], f) + (if Passes(rows[j], f) then [rows[j]] else [])
  {
    assert rows[..j + 1][..j] == rows[..j];
  }

  /** One pass of `filter_objects`: the rows whose field passes the filter
      `f`, collected in order. */
  method SelectPass(rows: seq<Value>, f: FilterDto) returns (filtered: seq<Value>)
    requires f.fieldName.Str?
    ensures filtered == Select(rows, f)
  {
    filtered := [];
    var j := 0;
    while j < |rows|
      invariant 0 <= j <= |rows|
      invariant filtered == Select(rows[..j], f)
    {
      SelectStep(rows, j, f);
      var value := GetNestedValue(rows[j], f.fieldName.s);
      if value != Nil {
        var valueText := Lower(ToStr(value));
        var filterText := Lower(ToStr(f.value));
        if f.filterType == Equals {
          if valueText == filterText {
            filtered := filtered + [rows[j]];
          }
        } else if f.filterType == Like {
          if Contains(valueText, filterText) {
            filtered := filtered + [rows[j]];
          }
        }
      }
      j := j + 1;
    }
    assert rows[..j] == rows;
  }

  /** `filter_objects(objects, filters)`: the result is narrowed by each filter
      in turn, each pass collecting the rows that survive it. */
  method FilterObjects(objects: seq<Value>, filters: seq<FilterDto>) returns (r: seq<Value>)
    requires PathsAreStrings(filters)
    ensures r == Narrow(objects, filters)
  {
    r := objects;
    var k := 0;
    while k < |filters|
      invariant 0 <= k <= |filters|
      invariant PathsAreStrings(filters[..k])
      invariant r == Narrow(objects, filters[..k])
    {
      var filtered := SelectPass(r, filters[k]);
      assert filters[..k + 1][..k] == filters[..k];
      r := filtered;
      k := k + 1;
    }
    assert filters[..k] == filters;
  }
}
