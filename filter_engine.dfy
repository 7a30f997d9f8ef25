/** The second filtering engine, task2/src/core/filter_engine.py: the same
    dotted paths, with `all` over the filters per row. */
module FilterEngine {
  import opened Results
  import opened Text
  import opened Values
  import opened FilterDtos
  import opened FilterUtils

  /** `get_nested(obj, path)`: dict `get` or `getattr(obj, p, None)` per piece,
      stopping at None. It resolves every path exactly as `get_nested_value` does. */
  method GetNested(obj: Value, path: string) returns (r: Value)
    ensures r == NestedValue(obj, Split(path, '.'))
  {
    var parts := Split(path, '.');
    var current := obj;
    var i := 0;
    while i < |parts|
      invariant 0 <= i <= |parts|
      invariant NestedValue(obj, parts) == NestedValue(current, parts[i..])
    {
      if current == Nil {
        return Nil;
      }
      assert parts[i..][1..] == parts[i + 1..];
      if current.Dict? {
        current := DictGet(current.entries, parts[i]);
      } else {
        var attr := GetAttr(current, parts[i]);
        current := if attr.Some? then attr.value else Nil;
        NilStaysNil(parts[i + 1..]);
      }
      i := i + 1;
    }
    r := current;
  }

  /** `filter_engine.match`: false when the field resolves to None; otherwise
      the lower-cased `str` forms are compared by the operator's name. It
      accepts exactly the rows `filter_objects` lets through for that filter. */
  function Match(obj: Value, f: FilterDto): (m: bool)
    requires f.fieldName.Str?
    ensures m <==> Passes(obj, f)
    ensures NestedValue(obj, Split(f.fieldName.s, '.')) == Nil ==> !m
  {
    var value := NestedValue(obj, Split(f.fieldName.s, '.'));
    if value == Nil then false
    else
      var valueText := Lower(ToStr(value));
      var filterText := Lower(ToStr(f.value));
      if TypeName(f.filterType) == "EQUALS" then valueText == filterText
      else if TypeName(f.filterType) == "LIKE" then Contains(valueText, filterText)
      else false
  }

  /** `filter_engine.filter`: each row is appended when every filter matches it. */
  method Filter(objects: seq<Value>, filters: seq<FilterDto>) returns (r: seq<Value>)
    requires PathsAreStrings(filters)
    ensures r == Keep(objects, filters)
  {
    r := [];
    var i := 0;
    while i < |objects|
      invariant 0 <= i <= |objects|
      invariant r == Keep(objects[..i], filters)
    {
      assert objects[..i + 1][..i] == objects[..i];
      if forall k :: 0 <= k < |filters| ==> Match(objects[i], filters[k]) {
        r := r + [objects[i]];
      }
      i := i + 1;
    }
    assert objects[..i] == objects;
  }

  /** Filtering an already filtered list with the same filters changes nothing. */
  lemma FilterIdempotent(objs: seq<Value>, filters: seq<FilterDto>)
    requires PathsAreStrings(filters)
    ensures Keep(Keep(objs, filters), filters) == Keep(objs, filters)
  {
    var p := o => PathsAreStrings(filters) && PassesAll(o, filters);
    KeepIfTwice(objs, p, p, p);
  }
}
