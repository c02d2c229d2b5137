/** The part of serde_json's `Value` that the plugin inspects. */
module Json {
  import opened Results

  /** A JSON document. Numbers are kept as integers: the plugin never reads one. */
  datatype Json =
    | Null
    | Bool(b: bool)
    | Number(n: int)
    | Str(s: string)
    | Array(items: seq<Json>)
    | Object(fields: map<string, Json>)

  /** `Value::get` with a string key: the member of an object, and nothing for
      any other kind of value. */
  function Get(v: Json, key: string): Option<Json>
  {
    match v
    case Object(fields) => if key in fields then Some(fields[key]) else None
    case _ => None
  }
}
