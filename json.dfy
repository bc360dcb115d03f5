/** JSON values as the gateway receives and emits them, after parsing. */
module Json {

  /** A parsed JSON value. Numbers are integers; objects are unordered. */
  datatype Json =
    | JNull
    | JBool(b: bool)
    | JNum(n: int)
    | JStr(s: string)
    | JArr(items: seq<Json>)
    | JObj(fields: map<string, Json>)

  datatype Option<+T> = None | Some(value: T)

  /** `d.get(key, default)` on a dictionary that is known to be one. */
  function GetOr(fields: map<string, Json>, key: string, default: Json): (value: Json) {
    if key in fields then fields[key] else default
  }
}
