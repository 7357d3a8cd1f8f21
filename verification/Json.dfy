/**
 Parsed JSON documents. Objects are maps, so two documents are equal exactly
 when they are equal as JSON values; the order of an object's keys is not kept.
 */
module Json {
  import opened Wrappers

  const U64_LIMIT: nat := 0x1_0000_0000_0000_0000

  datatype Value =
    | Null
    | Bool(truth: bool)
    | Int(number: int)
    | Float(digits: string)
    | Str(text: string)
    | Arr(items: seq<Value>)
    | Obj(fields: map<string, Value>)

  type Fields = map<string, Value>

  /** `value.get(key)` */
  function Get(v: Value, key: string): Option<Value> {
    if v.Obj? && key in v.fields then Some(v.fields[key]) else None
  }

  /** `value[key]`, which reads a missing member as null. */
  function At(v: Value, key: string): Value {
    Get(v, key).GetOr(Null)
  }

  function AsStr(v: Value): Option<string> {
    if v.Str? then Some(v.text) else None
  }

  function AsU64(v: Value): Option<nat> {
    if v.Int? && 0 <= v.number < U64_LIMIT then Some(v.number) else None
  }
}
