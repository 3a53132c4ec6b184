/** JSON documents as `serde_json::Value` holds them: objects are finite maps. */
module JsonModel {
  import opened Common

  datatype Json =
    | Null
    | Bool(b: bool)
    | Int(i: int)
    | Float(r: real)
    | Str(s: string)
    | Arr(items: seq<Json>)
    | Obj(fields: map<string, Json>)

  /** `as_u64`: integers that fit an unsigned 64-bit word. */
  function AsU64(v: Json): Option<nat> {
    if v.Int? && 0 <= v.i < 0x1_0000_0000_0000_0000 then Some(v.i) else None
  }

  /** `value.get(key)`: the field of an object, nothing for any other value. */
  function Get(v: Json, key: string): Option<Json> {
    if v.Obj? && key in v.fields then Some(v.fields[key]) else None
  }
}
