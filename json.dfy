/**
 * JSON values as `json.loads` produces them and as the Lambda runtime hands the
 * invocation event over: the handler only ever inspects them with `dict.get`,
 * subscripting and iteration.
 */
module Json {

  /** A JSON value. Objects are Python dicts keyed by strings; numbers are integers here. */
  datatype Value =
    | Null
    | Bool(b: bool)
    | Num(n: int)
    | Str(s: string)
    | Arr(items: seq<Value>)
    | Obj(fields: map<string, Value>)

  /** `{}` */
  const EmptyObject: Value := Obj(map[])

  /** Python's `d.get(key, default)` on a dict. */
  function Get(fields: map<string, Value>, key: string, default: Value): Value
  {
    if key in fields then fields[key] else default
  }

  /** Python can use the value as a dict key: lists and dicts cannot be hashed. */
  predicate Hashable(v: Value)
  {
    !v.Arr? && !v.Obj?
  }

  /** A `for` loop can walk the value: lists, strings and dicts. */
  predicate Iterable(v: Value)
  {
    v.Arr? || v.Str? || v.Obj?
  }

  /** The name Python gives the value's type in its error messages. */
  function TypeName(v: Value): string
  {
    match v
    case Null => "NoneType"
    case Bool(_) => "bool"
    case Num(_) => "int"
    case Str(_) => "str"
    case Arr(_) => "list"
    case Obj(_) => "dict"
  }

  /** What iterating a Python string yields: its characters, each a one-character string. */
  function Characters(s: string): seq<Value>
  {
    seq(|s|, i requires 0 <= i < |s| => Str([s[i]]))
  }
}
