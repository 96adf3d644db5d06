/** The JSON-shaped values (Python `None`, `bool`, `int`, `str`, `list`, `dict`) that the agents pass around. */
module JsonValue {

  datatype Value =
    | Null
    | Bool(b: bool)
    | Int(i: int)
    | Str(s: string)
    | List(items: seq<Value>)
    | Dict(fields: map<string, Value>)

  /** A Python dict with string keys. */
  type Object = map<string, Value>

  /** Python truthiness: `None`, `False`, `0`, `""`, `[]` and `{}` are false. */
  predicate Truthy(v: Value) {
    match v
    case Null => false
    case Bool(b) => b
    case Int(i) => i != 0
    case Str(s) => s != ""
    case List(xs) => xs != []
    case Dict(m) => m != map[]
  }

  /** `m.get(key, default)`. */
  function Get(m: Object, key: string, default: Value): Value {
    if key in m then m[key] else default
  }

  /**
   * `str(v)` as `format` and f-strings render a value: a string renders as itself, every other
   * value through `repr`, the interpreter's rendering, which the model leaves as a parameter.
   */
  function Text(v: Value, repr: Value -> string): string {
    if v.Str? then v.s else repr(v)
  }

  /** `type(v).__name__`. */
  function TypeName(v: Value): string {
    match v
    case Null => "NoneType"
    case Bool(_) => "bool"
    case Int(_) => "int"
    case Str(_) => "str"
    case List(_) => "list"
    case Dict(_) => "dict"
  }

  /** `str(e)` of the `AttributeError` raised by calling `.get` on a value that is not a dict. */
  function NoGetMessage(v: Value): string {
    "'" + TypeName(v) + "' object has no attribute 'get'"
  }

  /** `str(e)` of the `KeyError` raised by `d[key]` on a dict without `key`. */
  function KeyErrorMessage(key: string): string {
    "'" + key + "'"
  }
}
