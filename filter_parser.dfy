/** The strict filter-list parser, task2/src/core/filter_parser.py. */
module FilterParser {
  import opened Results
  import opened Values
  import opened FilterDtos

  /** `REQUIRED_FIELDS`: every filter item must carry these keys. */
  predicate HasRequiredFields(entries: seq<(string, Value)>)
  {
    HasKey(entries, "field_name") && HasKey(entries, "value") && HasKey(entries, "filter_type")
  }

  /** The value a dict maps `k` to, for a key it has (`item[k]`). */
  function At(entries: seq<(string, Value)>, k: string): Value
    requires HasKey(entries, k)
  {
    Lookup(entries, k).value
  }

  /** One item of the list: a dict with the three keys whose `filter_type` is
      a string (a `str`-derived member included) holding the exact name of a
      member. A `filter_type` Python cannot hash (a list, a dict, or an
      instance of a class deriving from `abstract_model`) raises `TypeError`
      in the member lookup; every other refusal is a `ValueError`. Only
      presence is checked, so a None `value` passes. */
  function ParseItem(item: Value): (r: Result<FilterDto>)
    ensures r.Ok? <==> item.Dict? && HasRequiredFields(item.entries) &&
                       StrText(At(item.entries, "filter_type")).Some? &&
                       TypeByName(StrText(At(item.entries, "filter_type")).value).Some?
    ensures r.Ok? ==> r.value.fieldName == At(item.entries, "field_name") &&
                      r.value.value == At(item.entries, "value") &&
                      TypeName(r.value.filterType) == StrText(At(item.entries, "filter_type")).value
    ensures r.Raise? ==> r.error.kind == (if item.Dict? && HasRequiredFields(item.entries) &&
                                             !Hashable(At(item.entries, "filter_type"))
                                          then TypeError else ValueError)
  {
    if !item.Dict? then Fail(ValueError, "Each filter must be dict")
    else if !HasRequiredFields(item.entries) then Fail(ValueError, "Filter item missing fields")
    else
      var ftype := At(item.entries, "filter_type");
      if !Hashable(ftype) then Fail(TypeError, "unhashable type")
      else
        match StrText(ftype)
        case None => Fail(ValueError, "Unknown filter type")
        case Some(name) =>
          match TypeByName(name)
          case None => Fail(ValueError, "Unknown filter type")
          case Some(t) => Ok(FilterDto(At(item.entries, "field_name"), At(item.entries, "value"), t))
  }

  /** The item `{"field_name": field, "value": value, "filter_type": ftype}`. */
  function Item(field: Value, value: Value, ftype: Value): Value
  {
    Dict([("field_name", field), ("value", value), ("filter_type", ftype)])
  }

  lemma ItemLookups(field: Value, value: Value, ftype: Value)
    ensures HasRequiredFields(Item(field, value, ftype).entries)
    ensures At(Item(field, value, ftype).entries, "filter_type") == ftype
    ensures At(Item(field, value, ftype).entries, "field_name") == field
    ensures At(Item(field, value, ftype).entries, "value") == value
  {
    var e := Item(field, value, ftype).entries;
    assert e[0].0 == "field_name" && e[1].0 == "value" && e[2].0 == "filter_type";
    FilterDictLookups(field, value, ftype);
  }

  /** A member of the operator enum, which derives from `str`, is looked up by
      its value and found. */
  lemma MemberParsed(field: Value, value: Value, t: FilterType)
    ensures ParseItem(Item(field, value, MemberValue(t))) == Ok(FilterDto(field, value, t))
  {
    var ftype := MemberValue(t);
    ItemLookups(field, value, ftype);
    TypeByOwnName(t);
    assert Hashable(ftype) && StrText(ftype) == Some(TypeName(t));
  }

  /** A model object as the operator cannot be hashed: `abstract_model`
      defines `__eq__` without `__hash__`, so the look-up raises `TypeError`. */
  lemma ModelObjectTypeRaises(field: Value, value: Value, cls: string, attrs: seq<(string, Value)>, text: string)
    requires cls in EqualityOnlyClasses
    ensures ParseItem(Item(field, value, Obj(cls, attrs, text))).Raise?
    ensures ParseItem(Item(field, value, Obj(cls, attrs, text))).error.kind == TypeError
  {
    ItemLookups(field, value, Obj(cls, attrs, text));
  }

  /** `filter_parser.parse` as a value: a list of items parsed in order, the
      first refusal being the outcome; anything but a list is a `ValueError`. */
  function ParseSpec(raw: Value): (r: Result<seq<FilterDto>>)
  {
    if !raw.List? then Fail(ValueError, "filters must be list")
    else Collect(seq(|raw.items|, i requires 0 <= i < |raw.items| => ParseItem(raw.items[i])))
  }

  /** `filter_parser.parse`: the items are parsed one by one into a growing
      list. On success the filters line up one to one with the items; a refusal
      is the first item's refusal. */
  method Parse(raw: Value) returns (r: Result<seq<FilterDto>>)
    ensures r == ParseSpec(raw)
    ensures !raw.List? ==> r.Raise? && r.error.kind == ValueError
    ensures r.Ok? ==> raw.List? && |r.value| == |raw.items| &&
                      forall i :: 0 <= i < |raw.items| ==> ParseItem(raw.items[i]) == Ok(r.value[i])
  {
    if !raw.List? {
      return Fail(ValueError, "filters must be list");
    }
    ghost var outcomes := seq(|raw.items|, i requires 0 <= i < |raw.items| => ParseItem(raw.items[i]));
    var filters: seq<FilterDto> := [];
    var i := 0;
    while i < |raw.items|
      invariant 0 <= i <= |raw.items|
      invariant |filters| == i && forall m :: 0 <= m < i ==> outcomes[m] == Ok(filters[m])
    {
      var item := ParseItem(raw.items[i]);
      if item.Raise? {
        CollectFirstRaise(outcomes, i);
        return Raise(item.error);
      }
      filters := filters + [item.value];
      i := i + 1;
    }
    CollectAllOk(outcomes, filters);
    r := Ok(filters);
  }
}
