/** Decoded JSON values, as Python's `json` module and the SDKs hand them over.
    Objects keep their keys in insertion order, like a Python dict. Numbers are
    integers only: no floating point value is inspected anywhere in the model. */
module Json {
  import opened Wrappers

  datatype Json =
    | JNull
    | JBool(b: bool)
    | JNumber(n: int)
    | JString(s: string)
    | JArray(items: seq<Json>)
    | JObject(fields: seq<(string, Json)>)

  /** Python truthiness of a decoded value (`if value:`). */
  predicate Truthy(j: Json) {
    match j
    case JNull => false
    case JBool(b) => b
    case JNumber(n) => n != 0
    case JString(s) => s != ""
    case JArray(items) => items != []
    case JObject(fields) => fields != []
  }

  /** The value stored under `key` in the fields of an object (first occurrence). */
  function Lookup(fields: seq<(string, Json)>, key: string): (r: Option<Json>)
    ensures r.Some? <==> exists i :: 0 <= i < |fields| && fields[i].0 == key
  {
    if fields == [] then None
    else if fields[0].0 == key then Some(fields[0].1)
    else Lookup(fields[1..], key)
  }

  /** `value[key]` on a decoded object; None when `value` is not an object or lacks the key. */
  function Get(value: Json, key: string): Option<Json> {
    if value.JObject? then Lookup(value.fields, key) else None
  }

  /** The first field with the key is the one found. */
  lemma {:induction false} LookupFirst(fields: seq<(string, Json)>, key: string, i: nat)
    requires i < |fields| && fields[i].0 == key
    requires forall j :: 0 <= j < i ==> fields[j].0 != key
    ensures Lookup(fields, key) == Some(fields[i].1)
  {
    if i > 0 {
      LookupFirst(fields[1..], key, i - 1);
    }
  }
}
