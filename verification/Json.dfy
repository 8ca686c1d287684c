/** JSON values as the WebDriver sources use them; text parsing and printing are not modelled. */
module Json {
  import opened Wrappers

  datatype Json =
    | Null
    | Bool(b: bool)
    | Int(i: int)
    | Double(d: real)
    | Str(s: string)
    | Array(items: seq<Json>)
    | Object(fields: Fields)

  type Fields = map<string, Json>

  function GetBool(o: Fields, key: string): (r: Option<bool>)
  {
    if key in o && o[key].Bool? then Some(o[key].b) else None
  }

  function GetString(o: Fields, key: string): (r: Option<string>)
  {
    if key in o && o[key].Str? then Some(o[key].s) else None
  }

  function GetArray(o: Fields, key: string): (r: Option<seq<Json>>)
  {
    if key in o && o[key].Array? then Some(o[key].items) else None
  }

  function GetObject(o: Fields, key: string): (r: Option<Fields>)
  {
    if key in o && o[key].Object? then Some(o[key].fields) else None
  }

  /** asInteger: a double is cut off toward zero. */
  function AsInteger(v: Json): (r: Option<int>)
  {
    match v
    case Int(i) => Some(i)
    case Double(d) => Some(if d >= 0.0 then d.Floor else -((-d).Floor))
    case _ => None
  }
}
