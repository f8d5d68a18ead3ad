/**
 * A decoded JSON document as Python's `json` module hands it over: `None`,
 * `bool`, `int`, `str`, `list` and `dict`. An object keeps its members in
 * document order; a key that occurs twice maps to its last value, as in a
 * dict built by `json.loads`.
 */
module Json {
  import opened Wrappers

  datatype Json =
    | JNull
    | JBool(b: bool)
    | JInt(n: int)
    | JString(s: string)
    | JArray(items: seq<Json>)
    | JObject(fields: seq<(string, Json)>)

  /** The value bound to `key`, taking the last binding when the key repeats. */
  function Lookup(fields: seq<(string, Json)>, key: string): (r: Option<Json>)
    ensures r.None? <==> forall i :: 0 <= i < |fields| ==> fields[i].0 != key
    ensures r.Some? ==>
      exists i :: 0 <= i < |fields| && fields[i] == (key, r.value) &&
        forall j :: i < j < |fields| ==> fields[j].0 != key
  {
    if fields == [] then None
    else if fields[|fields| - 1].0 == key then Some(fields[|fields| - 1].1)
    else Lookup(fields[..|fields| - 1], key)
  }

  /** `d.get(key)` on a dict: a missing key reads as `None`. */
  function Get(fields: seq<(string, Json)>, key: string): (v: Json)
    ensures (forall i :: 0 <= i < |fields| ==> fields[i].0 != key) ==> v == JNull
  {
    match Lookup(fields, key)
    case Some(v) => v
    case None => JNull
  }

  /** Each key of a two-member object reads back its own value. */
  lemma GetOfPair(k1: string, v1: Json, k2: string, v2: Json)
    requires k1 != k2
    ensures Get([(k1, v1), (k2, v2)], k1) == v1
    ensures Get([(k1, v1), (k2, v2)], k2) == v2
  {
    var fs := [(k1, v1), (k2, v2)];
    assert fs[..1] == [(k1, v1)];
    assert Lookup(fs, k1) == Lookup([(k1, v1)], k1);
  }

  /** Python's truth value `bool(v)`: `None`, `False`, `0` and empty containers are false. */
  predicate Truthy(v: Json)
  {
    match v
    case JNull => false
    case JBool(b) => b
    case JInt(n) => n != 0
    case JString(s) => s != []
    case JArray(items) => items != []
    case JObject(fields) => fields != []
  }

  /** `v or default`. */
  function Or(v: Json, default: Json): Json
  {
    if Truthy(v) then v else default
  }
}
