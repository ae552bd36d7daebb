/** A JSON value (nlohmann::json in the services, plain objects in the web
    client), kept as a tree; serialisation to text is not modelled. */
module Json {
  import opened Wrappers

  datatype Json =
    | Null
    | Bool(b: bool)
    | Int(i: int)
    | Num(r: real)
    | Str(s: string)
    | Arr(items: seq<Json>)
    | Obj(fields: map<string, Json>)

  /** `j.contains(key)` on an object; false for every other kind of value. */
  predicate Has(j: Json, key: string) {
    j.Obj? && key in j.fields
  }

  /** The member `key` of an object, if any. */
  function Member(j: Json, key: string): (r: Option<Json>)
    ensures r.Some? <==> Has(j, key)
    ensures r.Some? ==> r.value == j.fields[key]
  {
    if j.Obj? && key in j.fields then Some(j.fields[key]) else None
  }
}
