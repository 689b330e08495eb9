/**
 * The JSON value tree that requests and responses are made of, at the level of
 * serde_json's `Value`: the text form and its parser are not modelled.
 */
module Json {

  /** A JSON value. Numbers are integers here; objects are maps from keys to values. */
  datatype Value =
    | Null
    | Bool(b: bool)
    | Num(n: int)
    | Str(s: string)
    | Arr(items: seq<Value>)
    | Obj(fields: map<string, Value>)

  /**
   * Reading `v[key]`: the field's value when `v` is an object that has it,
   * `Null` for a missing key and for every value that is not an object.
   */
  function Get(v: Value, key: string): Value {
    if v.Obj? && key in v.fields then v.fields[key] else Null
  }
}
