/** The converters behind the convert factory, task2/src/core/convertors.py:
    each accepts one kind of value and returns its JSON-ready form, or raises
    `TypeError` for anything else. */
module Convertors {
  import opened Results
  import opened Text
  import opened Values

  /** The name Python's `type(v)` reports. */
  function ClassName(v: Value): string
  {
    match v
    case Nil => "NoneType"
    case Bool(_) => "bool"
    case Int(_) => "int"
    case Float(_) => "float"
    case Str(_) => "str"
    case DateTime(_, _, _, _, _, _) => "datetime.datetime"
    case EnumMember(e, _, _, _) => e
    case List(_) => "list"
    case Dict(_) => "dict"
    case Obj(c, _, _) => c
  }

  /** `f"{type(v)}"`. */
  function TypeText(v: Value): string
  {
    "<class '" + ClassName(v) + "'>"
  }

  /** `basic_convertor.convert`: ints (bools included), floats and strings
      (members of `str`-derived enums included) are returned as they are. */
  function BasicConvert(v: Value): (r: Result<Value>)
    ensures r.Ok? <==> v.Bool? || v.Int? || v.Float? || StrText(v).Some?
    ensures r.Ok? ==> r.value == v
    ensures r.Raise? ==> r.error.kind == TypeError
  {
    var accepted := [IntType, FloatType, StrType];
    assert v.Bool? || v.Int? ==> IsInstance(v, accepted[0]);
    assert v.Float? ==> IsInstance(v, accepted[1]);
    assert StrText(v).Some? ==> IsInstance(v, accepted[2]);
    if IsInstanceOfAny(v, accepted) then Ok(v)
    else Fail(TypeError, "Unsupported type for basic_convertor: " + TypeText(v))
  }

  /** `datetime_convertor.convert`: a datetime becomes its `isoformat()` text. */
  function DateTimeConvert(v: Value): (r: Result<Value>)
    ensures r.Ok? <==> v.DateTime?
    ensures r.Ok? ==> r.value.Str?
    ensures r.Raise? ==> r.error.kind == TypeError
  {
    if v.DateTime? then Ok(Str(DateTimeText(v, 'T')))
    else Fail(TypeError, "Unsupported type for datetime_convertor: " + TypeText(v))
  }

  /** `reference_convertor.convert`: an object with both a `code` and a `name`
      attribute becomes the dict of those two, in that order. */
  function ReferenceConvert(v: Value): (r: Result<Value>)
    ensures r.Ok? <==> GetAttr(v, "code").Some? && GetAttr(v, "name").Some?
    ensures r.Ok? ==> r.value.Dict? && |r.value.entries| == 2
    ensures r.Raise? ==> r.error.kind == TypeError
  {
    match (GetAttr(v, "code"), GetAttr(v, "name"))
    case (Some(code), Some(name)) => Ok(Dict([("code", code), ("name", name)]))
    case _ => Fail(TypeError, "Unsupported object for reference_convertor: " + TypeText(v))
  }

  /** The dict a reference converts to holds exactly its code under "code" and
      its name under "name". */
  lemma ReferenceDict(v: Value)
    requires ReferenceConvert(v).Ok?
    ensures var e := ReferenceConvert(v).value.entries;
            DistinctKeys(e) &&
            Lookup(e, "code") == GetAttr(v, "code") && Lookup(e, "name") == GetAttr(v, "name") &&
            forall k :: HasKey(e, k) <==> k == "code" || k == "name"
  {
    var e := ReferenceConvert(v).value.entries;
    assert e[0].0 == "code" && e[1].0 == "name";
    assert e[1..] == [e[1]];
  }

  /** 10 to the power `w`. */
  function Pow10(w: nat): nat
  {
    if w == 0 then 1 else 10 * Pow10(w - 1)
  }

  /** A number below `10^w` has at most `w` decimal digits. */
  lemma {:induction false} DigitCount(n: nat, w: nat)
    requires 1 <= w && n < Pow10(w)
    ensures |NatToString(n)| <= w
    decreases w
  {
    if n >= 10 {
      DigitCount(n / 10, w - 1);
    }
  }

  /** A zero-padded field of a number below `10^w` is exactly `w` digits. */
  lemma PadShape(n: nat, w: nat)
    requires 1 <= w && n < Pow10(w)
    ensures |Pad(n, w)| == w
    ensures forall i :: 0 <= i < w ==> '0' <= Pad(n, w)[i] <= '9'
  {
    DigitCount(n, w);
  }

  /** Six fields of widths 4, 2, 2, 2, 2, 2 joined as a timestamp. */
  lemma StampShape(y: string, mo: string, d: string, sep: char, h: string, mi: string, s: string)
    requires |y| == 4 && |mo| == 2 && |d| == 2 && |h| == 2 && |mi| == 2 && |s| == 2
    ensures var t := y + "-" + mo + "-" + d + [sep] + h + ":" + mi + ":" + s;
            |t| == 19 && t[4] == '-' && t[7] == '-' && t[10] == sep && t[13] == ':' && t[16] == ':' &&
            t[..10] == y + "-" + mo + "-" + d
  {
    var date := y + "-" + mo + "-" + d;
    var t := date + [sep] + h + ":" + mi + ":" + s;
    assert t == date + ([sep] + h + ":" + mi + ":" + s);
    assert t[..10] == date;
  }

  /** The ISO text of a datetime whose fields fit their widths has the shape
      `YYYY-MM-DDTHH:MM:SS`, its first ten characters being the date. */
  lemma IsoFormatShape(v: Value)
    requires v.DateTime?
    requires 0 <= v.year < 10000 && 0 <= v.month < 100 && 0 <= v.day < 100
    requires 0 <= v.hour < 100 && 0 <= v.minute < 100 && 0 <= v.second < 100
    ensures var t := DateTimeConvert(v).value.s;
            |t| == 19 && t[4] == '-' && t[7] == '-' && t[10] == 'T' && t[13] == ':' && t[16] == ':' &&
            t[..10] == Pad(v.year, 4) + "-" + Pad(v.month, 2) + "-" + Pad(v.day, 2)
  {
    assert Pow10(2) == 100 && Pow10(4) == 10000 by {
      assert Pow10(1) == 10;
      assert Pow10(3) == 1000;
    }
    PadShape(v.year, 4);
    PadShape(v.month, 2);
    PadShape(v.day, 2);
    PadShape(v.hour, 2);
    PadShape(v.minute, 2);
    PadShape(v.second, 2);
    StampShape(Pad(v.year, 4), Pad(v.month, 2), Pad(v.day, 2), 'T', Pad(v.hour, 2), Pad(v.minute, 2),
               Pad(v.second, 2));
  }
}
