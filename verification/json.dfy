/** JSON values in the sense of RFC 8259, as Python's `json` module decodes them:
    objects become dicts (compared without regard to key order), arrays become lists. */
module JsonValue {

  import opened Wrappers

  datatype Json =
    | Null
    | Bool(b: bool)
    | Num(n: real)
    | Str(s: string)
    | Arr(items: seq<Json>)
    | Obj(fields: map<string, Json>)

  /** A decoded JSON object, i.e. a Python `dict` with string keys. */
  type Object = map<string, Json>

  /** Python truthiness of a decoded value: `None`, `False`, `0`, `""`, `[]` and `{}` are falsy. */
  predicate Truthy(j: Json) {
    match j
    case Null => false
    case Bool(b) => b
    case Num(n) => n != 0.0
    case Str(s) => |s| > 0
    case Arr(items) => |items| > 0
    case Obj(fields) => |fields| > 0
  }

  /** `d.get(key, default)`. */
  function GetOr(d: Object, key: string, default: Json): (r: Json)
    ensures key in d ==> r == d[key]
    ensures key !in d ==> r == default
  {
    if key in d then d[key] else default
  }

  /** `d.get(key)`: an absent key reads as `None`, exactly like a stored `null`. */
  function Get(d: Object, key: string): (r: Json)
    ensures r != Null ==> key in d && d[key] == r
  {
    GetOr(d, key, Null)
  }

  /** The JSON encoding of an optional string: the string, or `null`. */
  function OptStr(o: Option<string>): Json
  {
    match o
    case Some(s) => Str(s)
    case None => Null
  }

  /** The JSON encoding of an optional number: the number, or `null`. */
  function OptNum(o: Option<real>): Json
  {
    match o
    case Some(x) => Num(x)
    case None => Null
  }
}
