/** JSON-like values as the Python tools see them after decoding a GraphQL
    response: `None`, booleans, integers, strings, lists and dicts. A dict keeps
    its (key, value) pairs in insertion order, as Python dicts do. */
module Json {

  datatype Option<T> = None | Some(value: T)

  /** The outcome of an awaited call: it returned a value or it raised. */
  datatype Outcome<T> = Returned(value: T) | Raised(message: string)

  datatype Json =
    | JNull
    | JBool(b: bool)
    | JInt(i: int)
    | JString(s: string)
    | JList(items: seq<Json>)
    | JObject(fields: seq<(string, Json)>)

  /** `d.get(key)` on a dict given as its pairs: the value of the first pair
      with that key (keys of a decoded dict are distinct). */
  function Lookup(fields: seq<(string, Json)>, key: string): (r: Option<Json>)
    ensures r.Some? <==> exists i :: 0 <= i < |fields| && fields[i].0 == key
    ensures r.Some? ==> exists i :: 0 <= i < |fields| && fields[i] == (key, r.value)
  {
    if fields == [] then None
    else if fields[0].0 == key then Some(fields[0].1)
    else Lookup(fields[1..], key)
  }

  /** `d.get(key, default)`. */
  function GetOr(fields: seq<(string, Json)>, key: string, default: Json): Json
  {
    match Lookup(fields, key)
    case Some(v) => v
    case None => default
  }

  /** `list(d.keys())`. */
  function Keys(fields: seq<(string, Json)>): (r: seq<string>)
    ensures |r| == |fields|
    ensures forall i :: 0 <= i < |fields| ==> r[i] == fields[i].0
  {
    if fields == [] then [] else [fields[0].0] + Keys(fields[1..])
  }

  /** `isinstance(v, (dict, list))`. */
  predicate IsContainer(v: Json)
  {
    v.JList? || v.JObject?
  }
}
