/**
 * Decoded JSON values, as Go's encoding/json produces them when it decodes
 * into `interface{}`: objects become `map[string]interface{}`, arrays
 * `[]interface{}`, and numbers `float64` (modelled here as integers).
 */
module Json {
  import opened Wrappers

  datatype Json =
    | JNull
    | JBool(b: bool)
    | JNum(n: int)
    | JStr(s: string)
    | JArr(items: seq<Json>)
    | JObj(fields: map<string, Json>)

  type Object = map<string, Json>

  /** Go's `m[k].(string)` with its `ok` result: a missing key reads as nil and fails. */
  function StrAt(m: Object, k: string): (r: Option<string>)
    ensures r.Some? <==> k in m && m[k].JStr?
    ensures r.Some? ==> m[k] == JStr(r.value)
  {
    if k in m && m[k].JStr? then Some(m[k].s) else None
  }

  /** Go's `m[k].(bool)`. */
  function BoolAt(m: Object, k: string): (r: Option<bool>)
    ensures r.Some? <==> k in m && m[k].JBool?
    ensures r.Some? ==> m[k] == JBool(r.value)
  {
    if k in m && m[k].JBool? then Some(m[k].b) else None
  }

  /** Go's `m[k].(float64)`. */
  function NumAt(m: Object, k: string): (r: Option<int>)
    ensures r.Some? <==> k in m && m[k].JNum?
    ensures r.Some? ==> m[k] == JNum(r.value)
  {
    if k in m && m[k].JNum? then Some(m[k].n) else None
  }

  /** Go's `m[k].(map[string]interface{})`. */
  function ObjAt(m: Object, k: string): (r: Option<Object>)
    ensures r.Some? <==> k in m && m[k].JObj?
    ensures r.Some? ==> m[k] == JObj(r.value)
  {
    if k in m && m[k].JObj? then Some(m[k].fields) else None
  }

  /** Go's `m[k].([]interface{})`. */
  function ArrAt(m: Object, k: string): (r: Option<seq<Json>>)
    ensures r.Some? <==> k in m && m[k].JArr?
    ensures r.Some? ==> m[k] == JArr(r.value)
  {
    if k in m && m[k].JArr? then Some(m[k].items) else None
  }

  /** Go's `m[k]` on a map of interfaces: a missing key reads as nil, which encodes as null. */
  function Lookup(m: Object, k: string): (r: Json)
    ensures k !in m ==> r == JNull
    ensures k in m ==> r == m[k]
  {
    if k in m then m[k] else JNull
  }
}
