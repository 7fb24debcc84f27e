/** A JSON value as serde_json's `Value` presents it to the code being modelled.
    Parsing and printing are not modelled: where the source parses text, the model
    receives the parse result as an input. */
module Json {
  import opened Wrappers

  const U64_LIMIT: nat := 0x1_0000_0000_0000_0000

  /** `JFrac` stands for a number with a fraction or exponent; the code only ever asks
      such a number for an unsigned integer, which it is not, so its value is dropped. */
  datatype Json =
    | JNull
    | JBool(b: bool)
    | JInt(i: int)
    | JFrac
    | JStr(s: string)
    | JArr(items: seq<Json>)
    | JObj(fields: map<string, Json>)

  /** `Value::get(key)`: the member of an object, nothing for any other value. */
  function Get(v: Json, key: string): (r: Option<Json>)
    ensures r.Some? <==> v.JObj? && key in v.fields
  {
    if v.JObj? && key in v.fields then Some(v.fields[key]) else None
  }

  /** `v[key]`: like Get, but a missing member reads as `null`. */
  function Index(v: Json, key: string): (r: Json)
    ensures r != JNull ==> Get(v, key) == Some(r)
  {
    match Get(v, key)
    case Some(x) => x
    case None => JNull
  }

  function AsStr(v: Json): (r: Option<string>)
    ensures r.Some? <==> v.JStr?
  {
    if v.JStr? then Some(v.s) else None
  }

  /** `Value::as_u64`: integers in [0, 2^64) only. */
  function AsU64(v: Json): (r: Option<nat>)
    ensures r.Some? ==> v == JInt(r.value) && r.value < U64_LIMIT
  {
    if v.JInt? && 0 <= v.i < U64_LIMIT then Some(v.i) else None
  }

  /** `v.get(key).and_then(as_str)`. */
  function GetStr(v: Json, key: string): (r: Option<string>)
    ensures r.Some? <==> v.JObj? && key in v.fields && v.fields[key].JStr?
  {
    match Get(v, key)
    case Some(x) => AsStr(x)
    case None => None
  }

  /** `v.get(key).and_then(as_u64)`. */
  function GetU64(v: Json, key: string): (r: Option<nat>)
    ensures r.Some? ==> v.JObj? && key in v.fields && v.fields[key] == JInt(r.value)
  {
    match Get(v, key)
    case Some(x) => AsU64(x)
    case None => None
  }

  /** `v.get(key).and_then(as_object)`. */
  function GetObj(v: Json, key: string): (r: Option<map<string, Json>>)
    ensures r.Some? <==> v.JObj? && key in v.fields && v.fields[key].JObj?
  {
    match Get(v, key)
    case Some(x) => if x.JObj? then Some(x.fields) else None
    case None => None
  }

  /** What reading a JSON file yields: nothing, or its parse (`None` when the
      content is not valid JSON). */
  datatype JsonFile = Absent | Present(parsed: Option<Json>)
}
