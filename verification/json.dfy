/**
 * JSON documents as the core passes them around (Python dicts, lists and
 * scalars). An object keeps its members in insertion order, as a Python dict
 * does; the operations below are the dict operations the core uses.
 */
module JsonData {
  import opened Wrappers

  datatype Json =
    | JNull
    | JBool(b: bool)
    | JInt(i: int)
    | JReal(r: real)
    | JStr(s: string)
    | JArr(items: seq<Json>)
    | JObj(fields: seq<(string, Json)>)

  type Fields = seq<(string, Json)>

  /** Python truthiness: `None`, `False`, zero and empty containers are false. */
  predicate Truthy(j: Json) {
    match j
    case JNull => false
    case JBool(b) => b
    case JInt(i) => i != 0
    case JReal(r) => r != 0.0
    case JStr(s) => s != ""
    case JArr(items) => items != []
    case JObj(fields) => fields != []
  }

  /** The keys of a dict, in order. */
  function Keys(fields: Fields): (ks: seq<string>)
    ensures |ks| == |fields|
  {
    if fields == [] then [] else [fields[0].0] + Keys(fields[1..])
  }

  /** `d or {}`: an absent or falsy dict becomes the empty dict. */
  function OrEmpty(d: Option<Json>): (r: Json)
    ensures d.Some? && Truthy(d.value) ==> r == d.value
    ensures !(d.Some? && Truthy(d.value)) ==> r == JObj([])
  {
    if d.Some? && Truthy(d.value) then d.value else JObj([])
  }

  predicate HasKey(fields: Fields, key: string) {
    key in Keys(fields)
  }

  /** No key occurs twice, as in every Python dict. */
  predicate UniqueKeys(fields: Fields) {
    fields == [] || (!HasKey(fields[1..], fields[0].0) && UniqueKeys(fields[1..]))
  }

  /** `d.get(key)`: the value stored under `key`, if any. */
  function Get(fields: Fields, key: string): (r: Option<Json>)
    ensures r.None? <==> !HasKey(fields, key)
  {
    if fields == [] then None
    else if fields[0].0 == key then Some(fields[0].1)
    else Get(fields[1..], key)
  }

  /** `d.get(key, default)`. */
  function GetOr(fields: Fields, key: string, default: Json): Json {
    Get(fields, key).GetOr(default)
  }

  /** `j.get(key)` on a value that may not be a dict; `None` models the AttributeError. */
  function Member(j: Json, key: string): Option<Json> {
    if j.JObj? then Get(j.fields, key) else None
  }

  /**
   * `d[key] = v`: an existing key keeps its place and takes the new value, a
   * new key goes to the end.
   */
  function Put(fields: Fields, key: string, v: Json): Fields {
    if fields == [] then [(key, v)]
    else if fields[0].0 == key then [(key, v)] + fields[1..]
    else [fields[0]] + Put(fields[1..], key, v)
  }

  /** `d[key] = v` keeps the order of the keys, adding a new one at the end. */
  lemma {:induction false} PutKeys(fields: Fields, key: string, v: Json)
    ensures Keys(Put(fields, key, v)) == if HasKey(fields, key) then Keys(fields) else Keys(fields) + [key]
  {
    if fields != [] && fields[0].0 != key {
      PutKeys(fields[1..], key, v);
    }
  }

  /** After `d[key] = v`, `d[key]` is `v` and every other key reads as before. */
  lemma {:induction false} PutGet(fields: Fields, key: string, v: Json, k: string)
    ensures Get(Put(fields, key, v), k) == if k == key then Some(v) else Get(fields, k)
  {
    if fields != [] && fields[0].0 != key {
      PutGet(fields[1..], key, v, k);
    }
  }

  /** Assigning a key keeps the keys distinct. */
  lemma {:induction false} PutUnique(fields: Fields, key: string, v: Json)
    requires UniqueKeys(fields)
    ensures UniqueKeys(Put(fields, key, v))
  {
    if fields != [] && fields[0].0 != key {
      PutUnique(fields[1..], key, v);
      PutKeys(fields[1..], key, v);
    }
  }

  /** `d.update(other)`: the members of `other` put into `d` one by one. */
  function Update(fields: Fields, other: Fields): (r: Fields)
    decreases |other|
  {
    if other == [] then fields
    else Update(Put(fields, other[0].0, other[0].1), other[1..])
  }

  /** After `d.update(other)` a key reads as in `other` if it is there, else as before. */
  lemma {:induction false} UpdateGet(fields: Fields, other: Fields, k: string)
    requires UniqueKeys(other)
    ensures Get(Update(fields, other), k) == if HasKey(other, k) then Get(other, k) else Get(fields, k)
    decreases |other|
  {
    if other != [] {
      var (key, v) := other[0];
      var put := Put(fields, key, v);
      UpdateGet(put, other[1..], k);
      PutGet(fields, key, v, k);
      assert Keys(other) == [key] + Keys(other[1..]);
      assert HasKey(other, k) <==> k == key || HasKey(other[1..], k);
      if k == key {
        assert Get(other, k) == Some(v);
      } else {
        assert Get(other, k) == Get(other[1..], k);
      }
    }
  }
}
