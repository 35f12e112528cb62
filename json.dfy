/** JSON values as the resource cache hands them out, and Python's `dict.get` on them. */
module Json {
  import opened Wrappers

  /** A decoded JSON value; numbers other than integers are not modelled. */
  datatype Json =
    | Null
    | Bool(b: bool)
    | Int(i: int)
    | Str(s: string)
    | Object(fields: map<string, Json>)
    | Array(items: seq<Json>)

  /** `fields.get(key, default)` on a dict. */
  function GetField(fields: map<string, Json>, key: string, default: Json): Json
  {
    if key in fields then fields[key] else default
  }

  /**
   * `value.get(key, default)` on any decoded value: only an object has `.get`,
   * so every other value gives None (Python raises AttributeError there).
   */
  function Get(value: Json, key: string, default: Json): Option<Json>
  {
    match value
    case Object(fields) => Some(GetField(fields, key, default))
    case _ => None
  }

  /** The empty object `{}`, the default of every nested lookup in the agent. */
  const EmptyObject: Json := Object(map[])
}
