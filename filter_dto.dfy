/** Filter specifications, task2/src/models/filter_dto.py. */
module FilterDtos {
  import opened Results
  import opened Text
  import opened Values

  /** The filter operators: exact match and substring match. */
  datatype FilterType = Equals | Like

  /** A member's `name` (and, the enum deriving from `str` with each value
      equal to its name, its value). */
  function TypeName(t: FilterType): string
  {
    match t
    case Equals => "EQUALS"
    case Like => "LIKE"
  }

  /** `FilterType[name]`: look a member up by its exact name. */
  function TypeByName(name: string): (r: Option<FilterType>)
    ensures r.Some? <==> name == "EQUALS" || name == "LIKE"
    ensures r.Some? ==> TypeName(r.value) == name
  {
    if name == "EQUALS" then Some(Equals)
    else if name == "LIKE" then Some(Like)
    else None
  }

  /** Looking a member up by its own name gives it back. */
  lemma TypeByOwnName(t: FilterType)
    ensures TypeByName(TypeName(t)) == Some(t)
  {
  }

  /** A filter: the dotted path to the field, the value to compare with and the operator. */
  datatype FilterDto = FilterDto(fieldName: Value, value: Value, filterType: FilterType)

  /** A member as a Python value. */
  function MemberValue(t: FilterType): Value
  {
    EnumMember("FilterType", TypeName(t), Str(TypeName(t)), true)
  }

  /** The `FilterType` member a Python value denotes when it is one. */
  function AsFilterType(v: Value): Option<FilterType>
  {
    if v.EnumMember? && v.enumName == "FilterType" then TypeByName(v.member) else None
  }

  /** What `from_dict` accepts as `filter_type`: a string (a `str`-derived
      member included) naming a member once stripped and upper-cased, or
      otherwise a member itself. */
  predicate TypeAccepted(ftype: Value)
  {
    match StrText(ftype)
    case Some(text) => TypeByName(Upper(Strip(text))).Some?
    case None => AsFilterType(ftype).Some?
  }

  /** `FilterDTO.from_dict`. Every refusal is a `ValueError`: input that is not
      a dict, a missing or None `field_name`, `value` or `filter_type`, or a
      `filter_type` that names no member. */
  function FromDict(data: Value): (r: Result<FilterDto>)
    ensures r.Ok? <==> data.Dict? && DictGet(data.entries, "field_name") != Nil &&
                       DictGet(data.entries, "value") != Nil &&
                       DictGet(data.entries, "filter_type") != Nil &&
                       TypeAccepted(DictGet(data.entries, "filter_type"))
    ensures r.Raise? ==> r.error.kind == ValueError
    ensures r.Ok? ==> r.value.fieldName == DictGet(data.entries, "field_name") &&
                      r.value.value == DictGet(data.entries, "value")
    ensures r.Ok? && StrText(DictGet(data.entries, "filter_type")).Some? ==>
              TypeName(r.value.filterType) == Upper(Strip(StrText(DictGet(data.entries, "filter_type")).value))
    ensures r.Ok? && StrText(DictGet(data.entries, "filter_type")).None? ==>
              Some(r.value.filterType) == AsFilterType(DictGet(data.entries, "filter_type"))
  {
    if !data.Dict? then Fail(ValueError, "Filter must be an object")
    else
      var field := DictGet(data.entries, "field_name");
      var value := DictGet(data.entries, "value");
      var ftype := DictGet(data.entries, "filter_type");
      if field == Nil then Fail(ValueError, "Missing field 'field_name'")
      else if value == Nil then Fail(ValueError, "Missing field 'value'")
      else if ftype == Nil then Fail(ValueError, "Missing field 'filter_type'")
      else if StrText(ftype).Some? then
        match TypeByName(Upper(Strip(StrText(ftype).value)))
        case None => Fail(ValueError, "Invalid filter_type")
        case Some(t) => Ok(FilterDto(field, value, t))
      else
        match AsFilterType(ftype)
        case None => Fail(ValueError, "Invalid filter_type")
        case Some(t) => Ok(FilterDto(field, value, t))
  }

  /** The three keys of a filter given in a dict literal are found by `get`. */
  lemma FilterDictLookups(field: Value, value: Value, ftype: Value)
    ensures var entries := [("field_name", field), ("value", value), ("filter_type", ftype)];
            DictGet(entries, "field_name") == field && DictGet(entries, "value") == value &&
            DictGet(entries, "filter_type") == ftype
  {
    var entries := [("field_name", field), ("value", value), ("filter_type", ftype)];
    assert "value" != "field_name" by { assert |"value"| != |"field_name"|; }
    assert "filter_type" != "field_name" by { assert "filter_type"[2] != "field_name"[2]; }
    assert "filter_type" != "value" by { assert |"filter_type"| != |"value"|; }
    assert entries[1..] == [("value", value), ("filter_type", ftype)];
    assert entries[1..][1..] == [("filter_type", ftype)];
    assert Lookup(entries[1..][1..], "filter_type") == Some(ftype);
    assert Lookup(entries[1..], "filter_type") == Some(ftype);
    assert Lookup(entries[1..], "value") == Some(value);
  }

  /** A dict literal with a string operator builds the filter its name denotes. */
  lemma FromDictWithTypeName(field: Value, value: Value, name: string, t: FilterType)
    requires field != Nil && value != Nil
    requires TypeByName(Upper(Strip(name))) == Some(t)
    ensures FromDict(Dict([("field_name", field), ("value", value), ("filter_type", Str(name))]))
            == Ok(FilterDto(field, value, t))
  {
    FilterDictLookups(field, value, Str(name));
  }

  /** Member names are upper case without surrounding white space, so the
      normalisation of `from_dict` leaves them as they are. */
  lemma NameNormalised(t: FilterType)
    ensures Upper(Strip(TypeName(t))) == TypeName(t)
  {
    var name := TypeName(t);
    StripUnchanged(name);
    var u := Upper(name);
    if t == Equals {
      assert u[0] == 'E' && u[1] == 'Q' && u[2] == 'U' && u[3] == 'A' && u[4] == 'L' && u[5] == 'S';
    } else {
      assert u[0] == 'L' && u[1] == 'I' && u[2] == 'K' && u[3] == 'E';
    }
  }

  /** A member given as the operator is taken through the string branch and
      comes back as itself. */
  lemma MemberAccepted(field: Value, value: Value, t: FilterType)
    requires field != Nil && value != Nil
    ensures FromDict(Dict([("field_name", field), ("value", value), ("filter_type", MemberValue(t))]))
            == Ok(FilterDto(field, value, t))
  {
    FilterDictLookups(field, value, MemberValue(t));
    NameNormalised(t);
    TypeByOwnName(t);
    assert StrText(MemberValue(t)) == Some(TypeName(t));
  }

  lemma UpperLike()
    ensures Upper("like") == "LIKE"
  {
    var u := Upper("like");
    assert u[0] == 'L' && u[1] == 'I' && u[2] == 'K' && u[3] == 'E';
  }

  /** The operator name is matched after trimming and upper-casing: "like"
      with white space around it is LIKE. */
  lemma PaddedLowerCaseTypeAccepted(field: Value, value: Value, before: string, after: string)
    requires field != Nil && value != Nil
    requires forall k :: 0 <= k < |before| ==> IsSpace(before[k])
    requires forall k :: 0 <= k < |after| ==> IsSpace(after[k])
    ensures FromDict(Dict([("field_name", field), ("value", value), ("filter_type", Str(before + "like" + after))]))
            == Ok(FilterDto(field, value, Like))
  {
    var name := before + "like" + after;
    assert TypeByName(Upper(Strip(name))) == Some(Like) by {
      StripSurrounded(before, "like", after);
      UpperLike();
    }
    FromDictWithTypeName(field, value, name, Like);
  }
}
