/** JavaScript values as they cross the HTTP boundary (parsed request bodies, response
    bodies, replies the browser client reads), with the truthiness rules that the
    source's `||`, `!x` and `x && y` tests rely on. */
module Json {

  datatype Option<+T> = None | Some(value: T) {
    function GetOr(default: T): T {
      match this
      case Some(v) => v
      case None => default
    }
  }

  datatype Result<+T, +E> = Success(value: T) | Failure(error: E)

  /** A JSON value. Numbers are JavaScript numbers without NaN or the infinities. */
  datatype Json =
    | Null
    | Bool(b: bool)
    | Num(n: real)
    | Str(s: string)
    | Arr(items: seq<Json>)
    | Obj(fields: map<string, Json>)

  /** JavaScript truthiness of a defined value. */
  predicate Truthy(j: Json) {
    match j
    case Null => false
    case Bool(b) => b
    case Num(n) => n != 0.0
    case Str(s) => s != ""
    case Arr(_) => true
    case Obj(_) => true
  }

  /** Truthiness of a value that may be `undefined` (None). */
  predicate Present(v: Option<Json>) {
    v.Some? && Truthy(v.value)
  }

  /** `v === null || v === undefined`: reading a property of such a value throws. */
  predicate Nullish(v: Option<Json>) {
    v.None? || v.value.Null?
  }

  /** `v?.key`: the property when `v` is an object holding it, otherwise undefined. */
  function Member(v: Option<Json>, key: string): Option<Json> {
    if v.Some? && v.value.Obj? && key in v.value.fields then Some(v.value.fields[key]) else None
  }

  /** `a || b` for a possibly undefined `a`. */
  function OrElse(a: Option<Json>, b: Json): Json {
    if Present(a) then a.value else b
  }

  /** A destructuring default `{ key = d } = body`: it applies only when the value is
      undefined, never for `null`, `0`, `false` or `""`. */
  function Defaulted(a: Option<Json>, d: Json): Json {
    if a.Some? then a.value else d
  }

  /** A property written as `key: v` where `v` may be undefined: JSON leaves it out. */
  function OptField(key: string, v: Option<Json>): map<string, Json> {
    if v.Some? then map[key := v.value] else map[]
  }
}
