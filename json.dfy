/** The JSON documents exchanged with a RESTCONF server, as Go's `encoding/json` decodes them
    into `map[string]interface{}`. Numbers are kept as integers: floating point is not modelled. */
module Json {
  import opened Wrappers

  datatype Value =
    | Null
    | Bool(b: bool)
    | Number(n: int)
    | String(s: string)
    | Array(items: seq<Value>)
    | Object(fields: map<string, Value>)

  /** The member `key` of an object; nothing for a missing key or a value that is not an object. */
  function Member(doc: Value, key: string): (r: Option<Value>)
    ensures r.Some? <==> doc.Object? && key in doc.fields
    ensures r.Some? ==> r.value == doc.fields[key]
  {
    if doc.Object? && key in doc.fields then Some(doc.fields[key]) else None
  }

  /** Go's `m[key].(map[string]interface{})`: present only when the member is itself an object. */
  predicate HasObject(m: map<string, Value>, key: string)
  {
    key in m && m[key].Object?
  }

  /** Go's `m[key].(string)`: present only when the member is a JSON string. */
  predicate HasString(m: map<string, Value>, key: string)
  {
    key in m && m[key].String?
  }
}
