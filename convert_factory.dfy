/** The convert factory, task2/src/logics/convert_factory.py: turns a value into
    its JSON-ready form recursively, dispatching on its Python type to the
    converters, and orders every resulting dict's keys for reading. */
module ConvertFactory {
  import opened Results
  import opened Values
  import opened Convertors

  /** `_preferred_order`: the keys a dict shows first, in this order. */
  const PreferredOrder: seq<string> :=
    ["code", "unique_code", "name", "group", "author", "unit", "portions", "ingredients", "steps"]

  /* ---------- _sort_keys ---------- */

  /** No key is listed twice. */
  predicate DistinctList(keys: seq<string>)
  {
    forall i, j :: 0 <= i < j < |keys| ==> keys[i] != keys[j]
  }

  /** The first loop of `_sort_keys`: for each of `keys` in turn, its entry when
      `data` has that key. */
  function PreferredPresent(keys: seq<string>, data: seq<(string, Value)>): (r: seq<(string, Value)>)
    ensures forall i :: 0 <= i < |r| ==> r[i].0 in keys && Lookup(data, r[i].0) == Some(r[i].1)
  {
    if keys == [] then []
    else
      var front := PreferredPresent(keys[..|keys| - 1], data);
      var k := keys[|keys| - 1];
      assert forall i :: 0 <= i < |front| ==> front[i].0 in keys by {
        forall i | 0 <= i < |front| ensures front[i].0 in keys {
          var x :| 0 <= x < |keys| - 1 && keys[..|keys| - 1][x] == front[i].0;
          assert keys[x] == front[i].0;
        }
      }
      match Lookup(data, k)
      case Some(v) => front + [(k, v)]
      case None => front
  }

  /** The second loop of `_sort_keys`: the entries whose key is not one of
      `pref`, in their original order. */
  function Others(pref: seq<string>, data: seq<(string, Value)>): (r: seq<(string, Value)>)
    ensures forall i :: 0 <= i < |r| ==> r[i].0 !in pref && r[i] in data
  {
    if data == [] then []
    else
      var last := data[|data| - 1];
      var front := Others(pref, data[..|data| - 1]);
      assert forall i :: 0 <= i < |front| ==> front[i] in data by {
        forall i | 0 <= i < |front| ensures front[i] in data {
          var x :| 0 <= x < |data| - 1 && data[..|data| - 1][x] == front[i];
          assert data[x] == front[i];
        }
      }
      front + (if last.0 in pref then [] else [last])
  }

  /** What `_sort_keys` returns for the preferred order `pref`: the preferred
      keys present, in preferred order, then every other key in its original
      order. */
  function SortedKeys(pref: seq<string>, data: seq<(string, Value)>): seq<(string, Value)>
  {
    PreferredPresent(pref, data) + Others(pref, data)
  }

  /** `_sort_keys(data)` with `pref` as `_preferred_order`: fills the ordered
      dict in two passes. */
  method SortKeys(pref: seq<string>, data: seq<(string, Value)>) returns (ordered: seq<(string, Value)>)
    requires DistinctKeys(data)
    ensures ordered == SortedKeys(pref, data)
  {
    ordered := [];
    for i := 0 to |pref|
      invariant ordered == PreferredPresent(pref[..i], data)
    {
      var key := pref[i];
      assert pref[..i + 1][..i] == pref[..i];
      match Lookup(data, key) {
        case Some(v) => ordered := ordered + [(key, v)];
        case None =>
      }
    }
    assert pref[..|pref|] == pref;
    var preferred := ordered;
    for j := 0 to |data|
      invariant ordered == preferred + Others(pref, data[..j])
    {
      var (k, v) := data[j];
      assert data[..j + 1][..j] == data[..j];
      SeenKeys(pref, data, j);
      if !HasKey(ordered, k) {
        ordered := ordered + [(k, v)];
      }
    }
    assert data[..|data|] == data;
  }

  /** During the second pass, the next key is already in the ordered dict
      exactly when it is a preferred one. */
  lemma SeenKeys(pref: seq<string>, data: seq<(string, Value)>, j: int)
    requires DistinctKeys(data) && 0 <= j < |data|
    ensures HasKey(PreferredPresent(pref, data) + Others(pref, data[..j]), data[j].0) <==> data[j].0 in pref
  {
    var k := data[j].0;
    var p := PreferredPresent(pref, data);
    var o := Others(pref, data[..j]);
    if k in pref {
      LookupDistinct(data, j);
      PreferredPresentHas(pref, data, k, data[j].1);
      var x :| 0 <= x < |p| && p[x] == (k, data[j].1);
      assert (p + o)[x].0 == k;
    } else {
      forall x | 0 <= x < |p + o| ensures (p + o)[x].0 != k {
        if x >= |p| {
          var y :| 0 <= y < j && data[..j][y] == o[x - |p|];
          assert data[y].0 != data[j].0;
        }
      }
    }
  }

  /** In a dict with distinct keys, the entry at `j` is what its key finds. */
  lemma LookupDistinct(data: seq<(string, Value)>, j: int)
    requires DistinctKeys(data) && 0 <= j < |data|
    ensures Lookup(data, data[j].0) == Some(data[j].1)
  {
    LookupAt(data, j);
  }

  /** Every key of `keys` present in `data` is taken in the first pass, with
      its value. */
  lemma {:induction false} PreferredPresentHas(keys: seq<string>, data: seq<(string, Value)>, k: string, v: Value)
    requires k in keys && Lookup(data, k) == Some(v)
    ensures (k, v) in PreferredPresent(keys, data)
    decreases |keys|
  {
    var front := keys[..|keys| - 1];
    if k != keys[|keys| - 1] {
      var x :| 0 <= x < |keys| && keys[x] == k;
      assert front[x] == k;
      PreferredPresentHas(front, data, k, v);
    }
  }

  /** With distinct keys, the first pass takes each key at most once. */
  lemma {:induction false} PreferredPresentDistinct(keys: seq<string>, data: seq<(string, Value)>)
    requires DistinctList(keys)
    ensures DistinctKeys(PreferredPresent(keys, data))
    decreases |keys|
  {
    if keys != [] {
      var front := keys[..|keys| - 1];
      PreferredPresentDistinct(front, data);
      var f := PreferredPresent(front, data);
      forall i | 0 <= i < |f| ensures f[i].0 != keys[|keys| - 1] {
        var x :| 0 <= x < |front| && front[x] == f[i].0;
        assert keys[x] == f[i].0;
      }
    }
  }

  /** Every entry whose key is not preferred is kept by the second pass. */
  lemma {:induction false} OthersHas(pref: seq<string>, data: seq<(string, Value)>, e: (string, Value))
    requires e in data && e.0 !in pref
    ensures e in Others(pref, data)
    decreases |data|
  {
    if e != data[|data| - 1] {
      var x :| 0 <= x < |data| && data[x] == e;
      assert data[..|data| - 1][x] == e;
      OthersHas(pref, data[..|data| - 1], e);
    }
  }

  /** The second pass keeps the keys of a dict with distinct keys distinct. */
  lemma {:induction false} OthersDistinct(pref: seq<string>, data: seq<(string, Value)>)
    requires DistinctKeys(data)
    ensures DistinctKeys(Others(pref, data))
    decreases |data|
  {
    if data != [] {
      var front := data[..|data| - 1];
      OthersDistinct(pref, front);
      var f := Others(pref, front);
      forall i | 0 <= i < |f| ensures f[i].0 != data[|data| - 1].0 {
        var x :| 0 <= x < |front| && front[x] == f[i];
      }
    }
  }

  /** A sequence whose keys are distinct has as many elements as its set. */
  lemma {:induction false} DistinctCard(s: seq<(string, Value)>)
    requires DistinctKeys(s)
    ensures |set e | e in s| == |s|
    decreases |s|
  {
    if s != [] {
      var front := s[..|s| - 1];
      DistinctCard(front);
      var last := s[|s| - 1];
      assert last !in front;
      assert s == front + [last];
      assert (set e | e in s) == (set e | e in front) + {last};
    }
  }

  /** `_sort_keys` returns exactly the entries it was given. */
  lemma SortedKeysEntries(pref: seq<string>, data: seq<(string, Value)>)
    requires DistinctKeys(data)
    ensures forall e :: e in SortedKeys(pref, data) <==> e in data
  {
    var p := PreferredPresent(pref, data);
    var r := SortedKeys(pref, data);
    forall e | e in r ensures e in data {
      if e in p {
        var x :| 0 <= x < |p| && p[x] == e;
        assert Lookup(data, e.0) == Some(e.1);
      }
    }
    forall e | e in data ensures e in r {
      var j :| 0 <= j < |data| && data[j] == e;
      if e.0 in pref {
        LookupDistinct(data, j);
        PreferredPresentHas(pref, data, e.0, e.1);
      } else {
        OthersHas(pref, data, e);
      }
    }
  }

  /** `_sort_keys` repeats no key, and no other key precedes a preferred one. */
  lemma SortedKeysDistinct(pref: seq<string>, data: seq<(string, Value)>)
    requires DistinctList(pref) && DistinctKeys(data)
    ensures DistinctKeys(SortedKeys(pref, data))
    ensures forall i, j :: 0 <= i < j < |SortedKeys(pref, data)| && SortedKeys(pref, data)[j].0 in pref ==>
              SortedKeys(pref, data)[i].0 in pref
  {
    var p := PreferredPresent(pref, data);
    var o := Others(pref, data);
    var r := SortedKeys(pref, data);
    PreferredPresentDistinct(pref, data);
    OthersDistinct(pref, data);
    assert forall j :: |p| <= j < |r| ==> r[j] == o[j - |p|];
    forall i, j | 0 <= i < j < |r| ensures r[i].0 != r[j].0 {
      if i < |p| && |p| <= j {
        assert r[i].0 in pref;
      }
    }
    forall i, j | 0 <= i < j < |r| && r[j].0 in pref ensures r[i].0 in pref {
      assert j < |p|;
    }
  }

  /** `_sort_keys` returns exactly the entries it was given, without repeating
      a key and as many of them, and no other key precedes a preferred one. */
  lemma SortedKeysSameEntries(pref: seq<string>, data: seq<(string, Value)>)
    requires DistinctList(pref) && DistinctKeys(data)
    ensures forall e :: e in SortedKeys(pref, data) <==> e in data
    ensures DistinctKeys(SortedKeys(pref, data))
    ensures |SortedKeys(pref, data)| == |data|
    ensures forall i, j :: 0 <= i < j < |SortedKeys(pref, data)| && SortedKeys(pref, data)[j].0 in pref ==>
              SortedKeys(pref, data)[i].0 in pref
  {
    var r := SortedKeys(pref, data);
    SortedKeysEntries(pref, data);
    SortedKeysDistinct(pref, data);
    DistinctCard(data);
    DistinctCard(r);
    assert (set e | e in r) == (set e | e in data);
  }

  /** A key found in `a` is found with the same value in any dict with
      distinct keys that holds all of `a`'s entries. */
  lemma LookupSubset(a: seq<(string, Value)>, b: seq<(string, Value)>, k: string)
    requires DistinctKeys(b)
    requires forall e :: e in a ==> e in b
    ensures Lookup(a, k).Some? ==> Lookup(b, k) == Lookup(a, k)
  {
    if Lookup(a, k).Some? {
      var i :| 0 <= i < |a| && a[i] == (k, Lookup(a, k).value);
      assert a[i] in b;
      var j :| 0 <= j < |b| && b[j] == a[i];
      LookupDistinct(b, j);
    }
  }

  /** Two dicts with distinct keys and the same entries find the same value
      under every key. */
  lemma SameEntriesSameLookup(a: seq<(string, Value)>, b: seq<(string, Value)>, k: string)
    requires DistinctKeys(a) && DistinctKeys(b)
    requires forall e :: e in a <==> e in b
    ensures Lookup(a, k) == Lookup(b, k)
  {
    LookupSubset(a, b, k);
    LookupSubset(b, a, k);
  }

  /** Sorting the keys changes no look-up. */
  lemma SortedKeysLookup(pref: seq<string>, data: seq<(string, Value)>, k: string)
    requires DistinctList(pref) && DistinctKeys(data)
    ensures Lookup(SortedKeys(pref, data), k) == Lookup(data, k)
  {
    SortedKeysSameEntries(pref, data);
    SameEntriesSameLookup(SortedKeys(pref, data), data, k);
  }

  /** The first pass depends only on what the keys look up to. */
  lemma {:induction false} PreferredPresentByLookup(keys: seq<string>, a: seq<(string, Value)>, b: seq<(string, Value)>)
    requires forall k :: Lookup(a, k) == Lookup(b, k)
    ensures PreferredPresent(keys, a) == PreferredPresent(keys, b)
    decreases |keys|
  {
    if keys != [] {
      PreferredPresentByLookup(keys[..|keys| - 1], a, b);
    }
  }

  /** The second pass distributes over concatenation. */
  lemma {:induction false} OthersAppend(pref: seq<string>, a: seq<(string, Value)>, b: seq<(string, Value)>)
    ensures Others(pref, a + b) == Others(pref, a) + Others(pref, b)
    decreases |b|
  {
    if b != [] {
      var last := b[|b| - 1];
      assert (a + b)[..|a + b| - 1] == a + b[..|b| - 1];
      assert (a + b)[|a + b| - 1] == last;
      OthersAppend(pref, a, b[..|b| - 1]);
    } else {
      assert a + b == a;
    }
  }

  /** The second pass keeps nothing of entries that are all preferred. */
  lemma {:induction false} OthersNone(pref: seq<string>, s: seq<(string, Value)>)
    requires forall i :: 0 <= i < |s| ==> s[i].0 in pref
    ensures Others(pref, s) == []
    decreases |s|
  {
    if s != [] {
      OthersNone(pref, s[..|s| - 1]);
    }
  }

  /** The second pass keeps all of entries none of which is preferred. */
  lemma {:induction false} OthersAll(pref: seq<string>, s: seq<(string, Value)>)
    requires forall i :: 0 <= i < |s| ==> s[i].0 !in pref
    ensures Others(pref, s) == s
    decreases |s|
  {
    if s != [] {
      OthersAll(pref, s[..|s| - 1]);
      assert s[..|s| - 1] + [s[|s| - 1]] == s;
    }
  }

  /** Ordering the keys of an already ordered dict changes nothing. */
  lemma SortedKeysIdempotent(pref: seq<string>, data: seq<(string, Value)>)
    requires DistinctList(pref) && DistinctKeys(data)
    ensures SortedKeys(pref, SortedKeys(pref, data)) == SortedKeys(pref, data)
  {
    var p := PreferredPresent(pref, data);
    var o := Others(pref, data);
    var r := SortedKeys(pref, data);
    assert PreferredPresent(pref, r) == p by {
      forall k ensures Lookup(r, k) == Lookup(data, k) {
        SortedKeysLookup(pref, data, k);
      }
      PreferredPresentByLookup(pref, r, data);
    }
    assert Others(pref, r) == o by {
      OthersAppend(pref, p, o);
      OthersNone(pref, p);
      OthersAll(pref, o);
    }
  }

  /** Keys at or past position `n` that `data` lacks add nothing to the first pass. */
  lemma {:induction false} PreferredPresentTail(keys: seq<string>, data: seq<(string, Value)>, n: int)
    requires 0 <= n <= |keys|
    requires forall m :: n <= m < |keys| ==> Lookup(data, keys[m]).None?
    ensures PreferredPresent(keys, data) == PreferredPresent(keys[..n], data)
    decreases |keys| - n
  {
    if n < |keys| {
      PreferredPresentTail(keys[..|keys| - 1], data, n);
      assert keys[..|keys| - 1][..n] == keys[..n];
    } else {
      assert keys[..n] == keys;
    }
  }

  /* ---------- convert ---------- */

  /** A dict rebuilt from `entries`' keys and the values `xs`, position by position. */
  function Rekey(entries: seq<(string, Value)>, xs: seq<Value>): (r: seq<(string, Value)>)
    requires |xs| == |entries|
    ensures |r| == |entries| && forall i :: 0 <= i < |r| ==> r[i] == (entries[i].0, xs[i])
  {
    seq(|entries|, i requires 0 <= i < |entries| => (entries[i].0, xs[i]))
  }

  /** Every element of `items` converted, in order. */
  function ConvertEach(pref: seq<string>, items: seq<Value>, ghost whole: Value): (rs: seq<Result<Value>>)
    requires forall i :: 0 <= i < |items| ==> items[i] < whole
    ensures |rs| == |items|
    decreases whole, 0
  {
    seq(|items|, i requires 0 <= i < |items| => Convert(pref, items[i]))
  }

  /** `convert(obj)` with `pref` as `_preferred_order`. A member of a
      `str`-derived enum is a string and is returned as it is; every other
      object goes to the reference converter, since every Python object has a
      `__class__`. */
  function Convert(pref: seq<string>, v: Value): (r: Result<Value>)
    ensures v.Nil? ==> r == Ok(Nil)
    ensures v.Bool? || v.Int? || v.Float? || StrText(v).Some? ==> r == Ok(v)
    ensures v.DateTime? ==> r.Ok? && r.value.Str?
    ensures v.List? && r.Ok? ==> r.value.List? && |r.value.items| == |v.items|
    ensures v.Dict? && r.Ok? ==> r.value.Dict?
    ensures (v.EnumMember? && StrText(v).None?) || v.Obj? ==>
              (r.Ok? <==> GetAttr(v, "code").Some? && GetAttr(v, "name").Some?)
    ensures v.EnumMember? && StrText(v).None? ==> r.Raise?
    ensures r.Raise? ==> r.error.kind == TypeError
    decreases v, 1
  {
    if v.Nil? then Ok(Nil)
    else if v.Bool? || v.Int? || v.Float? || StrText(v).Some? then BasicConvert(v)
    else if v.DateTime? then DateTimeConvert(v)
    else if v.List? then
      match Collect(ConvertEach(pref, v.items, v))
      case Ok(xs) => Ok(List(xs))
      case Raise(e) => Raise(e)
    else if v.Dict? then
      var values := seq(|v.entries|, i requires 0 <= i < |v.entries| => v.entries[i].1);
      assert forall i :: 0 <= i < |values| ==> values[i] < v by {
        forall i | 0 <= i < |values| ensures values[i] < v {
          assert v.entries[i] in v.entries;
        }
      }
      match Collect(ConvertEach(pref, values, v))
      case Ok(xs) => Ok(Dict(SortedKeys(pref, Rekey(v.entries, xs))))
      case Raise(e) => Raise(e)
    else SortReference(pref, v)
  }

  /** The values of a dict are smaller than the dict. */
  lemma ValuesBelow(entries: seq<(string, Value)>, values: seq<Value>, v: Value)
    requires v == Dict(entries) && |values| == |entries|
    requires forall i :: 0 <= i < |entries| ==> values[i] == entries[i].1
    ensures forall i :: 0 <= i < |values| ==> values[i] < v
  {
    forall i | 0 <= i < |values| ensures values[i] < v {
      assert entries[i] in entries;
    }
  }

  /** The reference converter's dict, with its keys ordered. */
  function SortReference(pref: seq<string>, v: Value): (r: Result<Value>)
    ensures r.Ok? <==> ReferenceConvert(v).Ok?
    ensures r.Raise? ==> r == ReferenceConvert(v)
    ensures r.Ok? ==> r.value.Dict?
  {
    match ReferenceConvert(v)
    case Ok(d) => Ok(Dict(SortedKeys(pref, d.entries)))
    case Raise(e) => Raise(e)
  }

  /** `convert_collection(items)`: every item converted, the first failure
      raised. */
  function ConvertCollection(pref: seq<string>, items: seq<Value>): (r: Result<seq<Value>>)
    ensures r.Ok? <==> forall i :: 0 <= i < |items| ==> Convert(pref, items[i]).Ok?
    ensures r.Ok? ==>
              |r.value| == |items| && forall i :: 0 <= i < |items| ==> r.value[i] == Convert(pref, items[i]).value
    ensures r.Raise? ==>
              exists i :: 0 <= i < |items| && Convert(pref, items[i]) == Raise(r.error) &&
                (forall j :: 0 <= j < i ==> Convert(pref, items[j]).Ok?)
  {
    var rs := seq(|items|, i requires 0 <= i < |items| => Convert(pref, items[i]));
    assert forall i :: 0 <= i < |items| ==> rs[i] == Convert(pref, items[i]);
    Collect(rs)
  }

  /** Converting a list is converting it as a collection and wrapping the
      result in a list again. */
  lemma ConvertList(pref: seq<string>, items: seq<Value>)
    ensures ConvertCollection(pref, items).Ok? ==>
              Convert(pref, List(items)) == Ok(List(ConvertCollection(pref, items).value))
    ensures ConvertCollection(pref, items).Raise? ==>
              Convert(pref, List(items)) == Raise(ConvertCollection(pref, items).error)
  {
    var rs := ConvertEach(pref, items, List(items));
    assert rs == seq(|items|, i requires 0 <= i < |items| => Convert(pref, items[i]));
  }

  /** A converted dict keeps every key and no other, finds under each key the
      converted value, repeats no key, and lists the preferred keys first. */
  lemma ConvertDict(pref: seq<string>, entries: seq<(string, Value)>, k: string)
    requires DistinctList(pref) && DistinctKeys(entries)
    requires Convert(pref, Dict(entries)).Ok?
    ensures forall j :: 0 <= j < |entries| ==> Convert(pref, entries[j].1).Ok?
    ensures var out := Convert(pref, Dict(entries)).value.entries;
            DistinctKeys(out) && |out| == |entries| &&
            (Lookup(entries, k).None? ==> Lookup(out, k).None?) &&
            (Lookup(entries, k).Some? ==> Lookup(out, k) == Some(Convert(pref, Lookup(entries, k).value).value)) &&
            forall i, j :: 0 <= i < j < |out| && out[j].0 in pref ==> out[i].0 in pref
  {
    var rs := ConvertValues(pref, entries);
    DictParts(pref, entries);
    var xs := Collect(rs).value;
    var re := Rekey(entries, xs);
    RekeyDistinct(entries, xs);
    SortedKeysSameEntries(pref, re);
    SortedKeysLookup(pref, re, k);
    RekeyLookup(entries, xs, k);
  }

  /** The result of converting each value of a dict, in order. */
  function ConvertValues(pref: seq<string>, entries: seq<(string, Value)>): (rs: seq<Result<Value>>)
    ensures |rs| == |entries| && forall i :: 0 <= i < |entries| ==> rs[i] == Convert(pref, entries[i].1)
  {
    seq(|entries|, i requires 0 <= i < |entries| => Convert(pref, entries[i].1))
  }

  /** `convert` of a dict: each value converted in order, then, when none
      raises, the keys with their converted values in the preferred order. */
  lemma DictParts(pref: seq<string>, entries: seq<(string, Value)>)
    ensures Collect(ConvertValues(pref, entries)).Ok? ==>
              Convert(pref, Dict(entries)) ==
              Ok(Dict(SortedKeys(pref, Rekey(entries, Collect(ConvertValues(pref, entries)).value))))
    ensures Collect(ConvertValues(pref, entries)).Raise? ==>
              Convert(pref, Dict(entries)) == Raise(Collect(ConvertValues(pref, entries)).error)
  {
    var values := seq(|entries|, i requires 0 <= i < |entries| => entries[i].1);
    ValuesBelow(entries, values, Dict(entries));
    assert ConvertEach(pref, values, Dict(entries)) == ConvertValues(pref, entries);
  }

  /** Rekeying keeps the keys, so distinct keys stay distinct. */
  lemma RekeyDistinct(entries: seq<(string, Value)>, xs: seq<Value>)
    requires |xs| == |entries| && DistinctKeys(entries)
    ensures DistinctKeys(Rekey(entries, xs))
  {
    var re := Rekey(entries, xs);
    forall i, j | 0 <= i < j < |re| ensures re[i].0 != re[j].0 {
      assert re[i].0 == entries[i].0 && re[j].0 == entries[j].0;
    }
  }

  /** Rekeying keeps each key in its place, so a key of a dict with distinct
      keys finds the new value given at its position, and a missing key stays
      missing. */
  lemma RekeyLookup(entries: seq<(string, Value)>, xs: seq<Value>, k: string)
    requires |xs| == |entries| && DistinctKeys(entries)
    ensures Lookup(Rekey(entries, xs), k).Some? <==> Lookup(entries, k).Some?
    ensures forall j :: 0 <= j < |entries| && entries[j].0 == k ==> Lookup(Rekey(entries, xs), k) == Some(xs[j])
  {
    var re := Rekey(entries, xs);
    assert HasKey(re, k) <==> HasKey(entries, k) by {
      assert forall i :: 0 <= i < |re| ==> re[i].0 == entries[i].0;
    }
    forall j | 0 <= j < |entries| && entries[j].0 == k ensures Lookup(re, k) == Some(xs[j]) {
      LookupAt(re, j);
    }
  }

  /** The first pass over a dict of two preferred keys, listed in preferred
      order, stopped after the first `n` preferred keys. */
  lemma {:induction false} PairPrefix(pref: seq<string>, d: seq<(string, Value)>, i: int, j: int, n: int)
    requires DistinctList(pref) && 0 <= i < j < |pref| && 0 <= n <= |pref|
    requires |d| == 2 && d[0].0 == pref[i] && d[1].0 == pref[j]
    ensures PreferredPresent(pref[..n], d) == (if i < n then [d[0]] else []) + (if j < n then [d[1]] else [])
    decreases n
  {
    if n > 0 {
      var k := pref[n - 1];
      assert pref[..n][..n - 1] == pref[..n - 1];
      PairPrefix(pref, d, i, j, n - 1);
      assert d[1..][1..] == [];
      if n - 1 != i && n - 1 != j {
        assert k != d[0].0 && k != d[1].0;
        assert Lookup(d, k) == None;
      }
    }
  }

  /** Ordering the keys of a dict of two preferred keys, already in preferred
      order, changes nothing. */
  lemma PairSorted(pref: seq<string>, d: seq<(string, Value)>, i: int, j: int)
    requires DistinctList(pref) && 0 <= i < j < |pref|
    requires |d| == 2 && d[0].0 == pref[i] && d[1].0 == pref[j]
    ensures SortedKeys(pref, d) == d
  {
    PairPrefix(pref, d, i, j, |pref|);
    assert pref[..|pref|] == pref;
    OthersNone(pref, d);
  }

  /** The factory's preferred order lists no key twice, and puts "code" first
      and "name" third. */
  lemma PreferredOrderDistinct()
    ensures DistinctList(PreferredOrder)
    ensures |PreferredOrder| > 2 && PreferredOrder[0] == "code" && PreferredOrder[2] == "name"
  {
  }

  /** A reference object with a code and a name converts to the dict of
      exactly those two, code first, whenever "code" precedes "name" in the
      preferred order. */
  lemma ConvertReference(pref: seq<string>, cls: string, attrs: seq<(string, Value)>, text: string, code: Value, name: Value)
    requires DistinctList(pref) && |pref| > 2 && pref[0] == "code" && pref[2] == "name"
    requires Lookup(attrs, "code") == Some(code) && Lookup(attrs, "name") == Some(name)
    ensures Convert(pref, Obj(cls, attrs, text)) == Ok(Dict([("code", code), ("name", name)]))
  {
    var v := Obj(cls, attrs, text);
    var d := [("code", code), ("name", name)];
    assert ReferenceConvert(v) == Ok(Dict(d));
    ObjectConverted(pref, v);
    PairSorted(pref, d, 0, 2);
  }

  /** An object converts to its reference dict with the keys ordered. */
  lemma ObjectConverted(pref: seq<string>, v: Value)
    requires v.Obj? && ReferenceConvert(v).Ok?
    ensures Convert(pref, v) == Ok(Dict(SortedKeys(pref, ReferenceConvert(v).value.entries)))
  {
  }

  /** With the factory's own preferred order, a reference converts to its code
      then its name. */
  lemma FactoryConvertReference(cls: string, attrs: seq<(string, Value)>, text: string, code: Value, name: Value)
    requires Lookup(attrs, "code") == Some(code) && Lookup(attrs, "name") == Some(name)
    ensures Convert(PreferredOrder, Obj(cls, attrs, text)) == Ok(Dict([("code", code), ("name", name)]))
  {
    PreferredOrderDistinct();
    ConvertReference(PreferredOrder, cls, attrs, text, code, name);
  }

  /** A value built only of the kinds JSON has, with no key repeated in any
      dict: no object and no enum member anywhere inside it. */
  predicate Plain(v: Value)
  {
    match v
    case EnumMember(_, _, _, _) => false
    case Obj(_, _, _) => false
    case List(items) => forall i :: 0 <= i < |items| ==> Plain(items[i])
    case Dict(entries) =>
      DistinctKeys(entries) &&
      forall i :: 0 <= i < |entries| ==> (assert entries[i] in entries; Plain(entries[i].1))
    case _ => true
  }

  /** A list of values that convert to themselves converts to itself. */
  lemma ListFixed(pref: seq<string>, xs: seq<Value>)
    requires forall i :: 0 <= i < |xs| ==> Convert(pref, xs[i]) == Ok(xs[i])
    ensures Convert(pref, List(xs)) == Ok(List(xs))
  {
    var rs := ConvertEach(pref, xs, List(xs));
    assert forall i :: 0 <= i < |xs| ==> rs[i] == Ok(xs[i]);
    assert Collect(rs).value == xs;
  }

  /** A dict already in preferred order whose values convert to themselves
      converts to itself. */
  lemma DictFixed(pref: seq<string>, out: seq<(string, Value)>)
    requires forall i :: 0 <= i < |out| ==> Convert(pref, out[i].1) == Ok(out[i].1)
    requires SortedKeys(pref, out) == out
    ensures Convert(pref, Dict(out)) == Ok(Dict(out))
  {
    var values := seq(|out|, i requires 0 <= i < |out| => out[i].1);
    var rs := ConvertEach(pref, values, Dict(out));
    assert forall i :: 0 <= i < |out| ==> rs[i] == Ok(values[i]);
    var ys := Collect(rs).value;
    assert Rekey(out, ys) == out;
  }

  /** Converting a plain value succeeds, and converting its result again
      changes nothing: the factory's output is a fixed point. */
  lemma {:induction false} ConvertStable(pref: seq<string>, v: Value)
    requires DistinctList(pref) && Plain(v)
    ensures Convert(pref, v).Ok? && Convert(pref, Convert(pref, v).value) == Convert(pref, v)
    decreases v
  {
    match v
    case List(items) =>
      forall i | 0 <= i < |items|
        ensures Convert(pref, items[i]).Ok? && Convert(pref, Convert(pref, items[i]).value) == Convert(pref, items[i])
      {
        ConvertStable(pref, items[i]);
      }
      ConvertList(pref, items);
      var xs := ConvertCollection(pref, items).value;
      ListFixed(pref, xs);
    case Dict(entries) =>
      forall i | 0 <= i < |entries|
        ensures Convert(pref, entries[i].1).Ok? &&
                Convert(pref, Convert(pref, entries[i].1).value) == Convert(pref, entries[i].1)
      {
        assert entries[i] in entries;
        ConvertStable(pref, entries[i].1);
      }
      DictStable(pref, entries);
    case _ =>
  }

  /** The dict case of `ConvertStable`, once every value is known to be stable. */
  lemma DictStable(pref: seq<string>, entries: seq<(string, Value)>)
    requires DistinctList(pref) && DistinctKeys(entries)
    requires forall i :: 0 <= i < |entries| ==>
               Convert(pref, entries[i].1).Ok? &&
               Convert(pref, Convert(pref, entries[i].1).value) == Convert(pref, entries[i].1)
    ensures Convert(pref, Dict(entries)).Ok?
    ensures Convert(pref, Convert(pref, Dict(entries)).value) == Convert(pref, Dict(entries))
  {
    var v := Dict(entries);
    var rs := ConvertValues(pref, entries);
    DictParts(pref, entries);
    var xs := Collect(rs).value;
    var re := Rekey(entries, xs);
    RekeyDistinct(entries, xs);
    var out := SortedKeys(pref, re);
    assert Convert(pref, v) == Ok(Dict(out));
    assert forall i :: 0 <= i < |out| ==> Convert(pref, out[i].1) == Ok(out[i].1) by {
      SortedKeysEntries(pref, re);
      forall i | 0 <= i < |out| ensures Convert(pref, out[i].1) == Ok(out[i].1) {
        assert out[i] in re;
        var m :| 0 <= m < |re| && re[m] == out[i];
        assert rs[m] == Ok(xs[m]);
      }
    }
    assert SortedKeys(pref, out) == out by {
      SortedKeysIdempotent(pref, re);
    }
    DictFixed(pref, out);
  }
}
