/**
 * JSON values as the server (Python dicts) and the dashboard (JavaScript
 * objects) see them. A record is a `Dict`; `Get` is `dict.get(key, default)`
 * and also a JavaScript property read with a fallback.
 */
module Json {

  datatype Option<+T> = None | Some(value: T) {
    function GetOr(default: T): T {
      match this
      case Some(v) => v
      case None => default
    }
  }

  /** A JSON value. Python's `None` and JavaScript's `null`/`undefined` are `Null`. */
  datatype Value =
    | Null
    | Bool(b: bool)
    | Int(i: int)
    | Real(r: real)
    | Str(s: string)
    | Arr(items: seq<Value>)
    | Obj(fields: map<string, Value>)

  type Dict = map<string, Value>

  /** `d.get(key, default)`: the stored value when the key is present, even when it is null. */
  function Get(d: Dict, key: string, default: Value): Value {
    if key in d then d[key] else default
  }

  /** JavaScript truthiness (also Python's, for the scalar values the model uses it on). */
  predicate Truthy(v: Value) {
    match v
    case Null => false
    case Bool(b) => b
    case Int(i) => i != 0
    case Real(r) => r != 0.0
    case Str(s) => s != ""
    case Arr(_) => true
    case Obj(_) => true
  }

  /** JavaScript `a || b`. */
  function Or(a: Value, b: Value): Value {
    if Truthy(a) then a else b
  }

  /** A value that JavaScript string methods accept: a string, or a falsy value that is tested first. */
  predicate TextOrFalsy(v: Value) {
    !Truthy(v) || v.Str?
  }
}
