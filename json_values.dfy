/** A parsed JSON document of unknown shape, as `JSON.parse` hands it to the sanitizer. */
module JsonValues {
  import opened Wrappers

  /** Numbers are integral here; an object is a map from keys to values. */
  datatype Json =
    | JNull
    | JBool(b: bool)
    | JNum(n: int)
    | JStr(s: string)
    | JArr(items: seq<Json>)
    | JObj(fields: map<string, Json>)

  /** `v?.key`, with `None` standing for `undefined`: a value is found only when `v`
      is an object that has the key; null, primitives and arrays have none of the
      keys the sanitizer asks for. */
  function Member(v: Option<Json>, key: string): (r: Option<Json>)
    ensures r.Some? <==> v.Some? && v.value.JObj? && key in v.value.fields
    ensures r.Some? ==> r.value == v.value.fields[key]
  {
    if v.Some? && v.value.JObj? && key in v.value.fields then Some(v.value.fields[key]) else None
  }
}
