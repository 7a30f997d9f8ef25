/** The Python values the dynamically typed parts of the system handle: filter
    specifications, rows projected to dictionaries, arguments checked by the
    validator, objects handed to the converters. */
module Values {
  import opened Results
  import opened Text

  /** A Python value. An enum member is its class, its name, its value and
      whether the class also derives from `str` (`class E(str, Enum)`, whose
      members are strings holding their value). An object is its class name,
      its attributes (what `getattr` finds) and the text its `__str__`
      produces. */
  datatype Value =
    | Nil
    | Bool(b: bool)
    | Int(i: int)
    | Float(x: real)
    | Str(s: string)
    | DateTime(year: int, month: int, day: int, hour: int, minute: int, second: int)
    | EnumMember(enumName: string, member: string, value: Value, strMixin: bool)
    | List(items: seq<Value>)
    | Dict(entries: seq<(string, Value)>)
    | Obj(cls: string, attrs: seq<(string, Value)>, text: string)

  /** An argument declared with a model class `T`: Python's None, an instance
      of `T`, or some other object (`raw`, which is not None). */
  datatype Arg<+T> = Absent | Given(value: T) | Other(raw: Value)

  /** Python classes a value can be checked against with `isinstance`. */
  datatype PyType =
    | StrType | IntType | FloatType | BoolType | DateTimeType | ListType | DictType
    | ClassType(name: string)

  /** Python `isinstance(v, t)`; `bool` is a subclass of `int`. */
  predicate IsInstance(v: Value, t: PyType)
  {
    match v
    case Nil => false
    case Bool(_) => t == BoolType || t == IntType
    case Int(_) => t == IntType
    case Float(_) => t == FloatType
    case Str(_) => t == StrType
    case DateTime(_, _, _, _, _, _) => t == DateTimeType
    case EnumMember(e, _, val, strMixin) => t == ClassType(e) || (strMixin && val.Str? && t == StrType)
    case List(_) => t == ListType
    case Dict(_) => t == DictType
    case Obj(c, _, _) => t == ClassType(c)
  }

  /** `isinstance(v, (t1, t2, ...))` with a tuple of classes. */
  predicate IsInstanceOfAny(v: Value, ts: seq<PyType>)
  {
    exists i :: 0 <= i < |ts| && IsInstance(v, ts[i])
  }

  /** The text of a `str` instance: a string, or a member of a `str`-derived
      enum, whose string methods see its value. */
  function StrText(v: Value): (r: Option<string>)
    ensures r.Some? <==> IsInstance(v, StrType)
  {
    if v.Str? then Some(v.s)
    else if v.EnumMember? && v.strMixin && v.value.Str? then Some(v.value.s)
    else None
  }

  /** The classes deriving from `abstract_model`, which defines `__eq__`
      without `__hash__`: their instances cannot be hashed. */
  const EqualityOnlyClasses: set<string> :=
    {"abstract_model", "abstract_reference", "storage_model", "group_model", "nomenclature_model",
     "organization_model", "unit_model", "warehouse_model"}

  /** Whether Python can hash the value, as a dict look-up needs. */
  predicate Hashable(v: Value)
  {
    !v.List? && !v.Dict? && !(v.Obj? && v.cls in EqualityOnlyClasses)
  }

  /** The second argument of `isinstance`: one class, or a tuple of classes. */
  datatype Expected = Class(t: PyType) | Classes(ts: seq<PyType>)

  /** `isinstance(v, expected)` for either form of `expected`. */
  predicate IsInstanceOf(v: Value, expected: Expected)
  {
    match expected
    case Class(t) => IsInstance(v, t)
    case Classes(ts) => IsInstanceOfAny(v, ts)
  }

  /** No key occurs twice, as in every Python dict. */
  predicate DistinctKeys(entries: seq<(string, Value)>)
  {
    forall i, j :: 0 <= i < j < |entries| ==> entries[i].0 != entries[j].0
  }

  predicate HasKey(entries: seq<(string, Value)>, k: string)
  {
    exists i :: 0 <= i < |entries| && entries[i].0 == k
  }

  /** The value stored under `k`, if any (`k in d` then `d[k]`). */
  function Lookup(entries: seq<(string, Value)>, k: string): (r: Option<Value>)
    ensures r.Some? <==> HasKey(entries, k)
    ensures r.Some? ==> exists i :: 0 <= i < |entries| && entries[i] == (k, r.value)
  {
    if entries == [] then None
    else if entries[0].0 == k then Some(entries[0].1)
    else Lookup(entries[1..], k)
  }

  /** The entry at `j` is what a look-up of its key finds when no earlier entry
      has that key. */
  lemma {:induction false} LookupAt(entries: seq<(string, Value)>, j: int)
    requires 0 <= j < |entries|
    requires forall i :: 0 <= i < j ==> entries[i].0 != entries[j].0
    ensures Lookup(entries, entries[j].0) == Some(entries[j].1)
    decreases j
  {
    if j > 0 {
      assert entries[1..][j - 1] == entries[j];
      LookupAt(entries[1..], j - 1);
    }
  }

  /** Python `d.get(k)`: the stored value, or None when the key is absent. */
  function DictGet(entries: seq<(string, Value)>, k: string): Value
  {
    match Lookup(entries, k)
    case Some(v) => v
    case None => Nil
  }

  /** Python `getattr(v, name)` when the attribute exists: an object's own
      attributes, a datetime's fields, the real and imaginary parts of a number
      and an enum member's name and value. Methods are not attributes here. */
  function GetAttr(v: Value, name: string): (r: Option<Value>)
    ensures v.Obj? ==> r == Lookup(v.attrs, name)
    ensures v.Nil? || v.Str? || v.List? || v.Dict? ==> r.None?
    ensures v.DateTime? && name == "year" ==> r == Some(Int(v.year))
    ensures v.DateTime? && name == "month" ==> r == Some(Int(v.month))
    ensures v.DateTime? && name == "day" ==> r == Some(Int(v.day))
    ensures (v.Int? || v.Float?) && name == "real" ==> r == Some(v)
    ensures v.EnumMember? && name == "name" ==> r == Some(Str(v.member))
    ensures v.EnumMember? && name == "value" ==> r == Some(v.value)
  {
    match v
    case Obj(_, attrs, _) => Lookup(attrs, name)
    case DateTime(y, mo, d, h, mi, s) =>
      if name == "year" then Some(Int(y))
      else if name == "month" then Some(Int(mo))
      else if name == "day" then Some(Int(d))
      else if name == "hour" then Some(Int(h))
      else if name == "minute" then Some(Int(mi))
      else if name == "second" then Some(Int(s))
      else if name == "microsecond" then Some(Int(0))
      else if name == "tzinfo" then Some(Nil)
      else None
    case Int(i) => IntegerAttr(i, name)
    case Bool(b) => IntegerAttr(if b then 1 else 0, name)
    case Float(x) =>
      if name == "real" then Some(Float(x))
      else if name == "imag" then Some(Float(0.0))
      else None
    case EnumMember(_, m, val, _) =>
      if name == "name" then Some(Str(m))
      else if name == "value" then Some(val)
      else None
    case _ => None
  }

  /** The attributes of an `int` (and of a `bool`, read as 0 or 1). */
  function IntegerAttr(i: int, name: string): Option<Value>
  {
    if name == "real" || name == "numerator" then Some(Int(i))
    else if name == "imag" then Some(Int(0))
    else if name == "denominator" then Some(Int(1))
    else None
  }

  function Pad(n: nat, width: nat): string
  {
    var digits := NatToString(n);
    if |digits| >= width then digits else seq(width - |digits|, _ => '0') + digits
  }

  /** `datetime.isoformat()` with the given separator between date and time
      (`str(datetime)` uses a space). Years are rendered as 4 digits. */
  function DateTimeText(v: Value, sep: char): string
    requires v.DateTime?
  {
    var n := (i: int) => if i < 0 then 0 else i;
    Pad(n(v.year), 4) + "-" + Pad(n(v.month), 2) + "-" + Pad(n(v.day), 2) + [sep] +
    Pad(n(v.hour), 2) + ":" + Pad(n(v.minute), 2) + ":" + Pad(n(v.second), 2)
  }

  /** The first `n` decimal digits of a fraction `f` in [0, 1). */
  function FractionDigits(f: real, n: nat): string
    requires 0.0 <= f < 1.0
    decreases n
  {
    if n == 0 then ""
    else
      var d := (f * 10.0).Floor;
      [DigitChar(d)] + FractionDigits(f * 10.0 - d as real, n - 1)
  }

  function DropTrailingZeros(s: string): string
  {
    if s != [] && s[|s| - 1] == '0' then DropTrailingZeros(s[..|s| - 1]) else s
  }

  /** Python `repr(float)`, rendered in positional notation: the integer part,
      a point, and up to 16 fraction digits without trailing zeros (at least one). */
  function FloatText(x: real): string
  {
    var a := if x < 0.0 then -x else x;
    var ip := a.Floor;
    var frac := DropTrailingZeros(FractionDigits(a - ip as real, 16));
    (if x < 0.0 then "-" else "") + NatToString(ip) + "." + (if frac == "" then "0" else frac)
  }

  /** The quote `repr` puts around a string: double quotes when it holds a
      single quote and no double quote, single quotes otherwise. */
  function QuoteFor(s: string): char
  {
    if SingleQuote in s && DoubleQuote !in s then DoubleQuote else SingleQuote
  }

  const Backslash: char := 92 as char
  const SingleQuote: char := 39 as char
  const DoubleQuote: char := 34 as char
  const Newline: char := 10 as char
  const CarriageReturn: char := 13 as char
  const Tab: char := 9 as char

  /** How `repr` writes one character of a string quoted with `q`: a backslash,
      the quote itself and the common control characters are escaped, other
      ASCII control characters become `\xhh`. */
  function EscapeChar(c: char, q: char): string
  {
    if c == Backslash then [Backslash, Backslash]
    else if c == q then [Backslash, q]
    else if c == Newline then [Backslash, 'n']
    else if c == CarriageReturn then [Backslash, 'r']
    else if c == Tab then [Backslash, 't']
    else if c < ' ' || c == 127 as char then [Backslash, 'x', HexDigit(c as int / 16), HexDigit(c as int % 16)]
    else [c]
  }

  function HexDigit(d: int): char
    requires 0 <= d < 16
  {
    if d < 10 then DigitChar(d) else (('a' as int) + d - 10) as char
  }

  /** Python `repr(s)` of a string. */
  function StrRepr(s: string): (r: string)
    ensures |r| >= |s| + 2 && r[0] == QuoteFor(s) && r[|r| - 1] == QuoteFor(s)
  {
    var q := QuoteFor(s);
    [q] + EscapeAll(s, q) + [q]
  }

  function EscapeAll(s: string, q: char): (r: string)
    ensures |r| >= |s|
  {
    if s == [] then "" else EscapeAll(s[..|s| - 1], q) + EscapeChar(s[|s| - 1], q)
  }

  /** A character `repr` writes as itself inside the quote `q`. */
  predicate Verbatim(c: char, q: char)
  {
    c != Backslash && c != q && c >= ' ' && c != 127 as char
  }

  lemma {:induction false} EscapeVerbatim(s: string, q: char)
    requires forall i :: 0 <= i < |s| ==> Verbatim(s[i], q)
    ensures EscapeAll(s, q) == s
  {
    if s != [] {
      EscapeVerbatim(s[..|s| - 1], q);
      assert s[..|s| - 1] + [s[|s| - 1]] == s;
    }
  }

  /** A string without backslashes or control characters, and not holding
      both kinds of quote, is shown as itself between quotes: double quotes
      when it holds a single quote, single quotes otherwise. */
  lemma StrReprPlain(s: string)
    requires forall i :: 0 <= i < |s| ==> s[i] != Backslash && s[i] >= ' ' && s[i] != 127 as char
    requires !(SingleQuote in s && DoubleQuote in s)
    ensures StrRepr(s) == [QuoteFor(s)] + s + [QuoteFor(s)]
    ensures QuoteFor(s) == (if SingleQuote in s then DoubleQuote else SingleQuote)
  {
    EscapeVerbatim(s, QuoteFor(s));
  }

  /** Python `repr(v)`. */
  function Repr(v: Value): string
  {
    match v
    case Nil => "None"
    case Bool(b) => if b then "True" else "False"
    case Int(i) => IntToString(i)
    case Float(x) => FloatText(x)
    case Str(s) => StrRepr(s)
    case DateTime(y, mo, d, h, mi, s) =>
      "datetime.datetime(" + Join([IntToString(y), IntToString(mo), IntToString(d), IntToString(h),
                                   IntToString(mi)] + (if s == 0 then [] else [IntToString(s)]), ", ") + ")"
    case EnumMember(e, m, val, _) => "<" + e + "." + m + ": " + Repr(val) + ">"
    case List(items) =>
      "[" + Join(seq(|items|, i requires 0 <= i < |items| => Repr(items[i])), ", ") + "]"
    case Dict(entries) =>
      "{" + Join(seq(|entries|, i requires 0 <= i < |entries| =>
                     StrRepr(entries[i].0) + ": " + Repr(entries[i].1)), ", ") + "}"
    case Obj(_, _, text) => text
  }

  /** Python `str(v)`. */
  function ToStr(v: Value): string
  {
    match v
    case Str(s) => s
    case DateTime(_, _, _, _, _, _) => DateTimeText(v, ' ')
    case EnumMember(e, m, _, _) => e + "." + m
    case _ => Repr(v)
  }
}
