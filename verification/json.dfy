/** JSON values as exchanged between the demo page and the ranking service,
    together with the two truthiness rules the two sides apply to them
    (Python's on the server, JavaScript's in the browser). */
module Json {

  /** An optional value; `None` stands for a missing dictionary key on the
      Python side and for `undefined` on the JavaScript side. */
  datatype Option<+T> = None | Some(value: T)

  /** The result of an evaluation that may raise: `Raise` carries the text of
      the exception (`str(e)` in Python, `err.message` in JavaScript). */
  datatype Outcome<+T> = Ok(value: T) | Raise(message: string)

  /** A parsed JSON document. Numbers are abstract ordered values: floating-point
      rounding is not modelled. */
  datatype Value =
    | Null
    | Bool(b: bool)
    | Num(x: real)
    | Str(s: string)
    | Arr(items: seq<Value>)
    | Obj(fields: map<string, Value>)

  /** `bool(v)` in Python: null, false, zero and empty containers are false. */
  predicate PyTruthy(v: Value) {
    match v
    case Null => false
    case Bool(b) => b
    case Num(x) => x != 0.0
    case Str(s) => s != ""
    case Arr(items) => items != []
    case Obj(fields) => fields != map[]
  }

  /** `!!v` in JavaScript: arrays and objects are true even when empty
      (NaN does not arise, since numbers are abstract). */
  predicate JsTruthy(v: Value) {
    match v
    case Null => false
    case Bool(b) => b
    case Num(x) => x != 0.0
    case Str(s) => s != ""
    case Arr(_) => true
    case Obj(_) => true
  }

  /** Dictionary lookup that reports a missing key as `None`. */
  function Lookup(m: map<string, Value>, key: string): (r: Option<Value>)
    ensures r.Some? <==> key in m
    ensures r.Some? ==> r.value == m[key]
  {
    if key in m then Some(m[key]) else None
  }

  /** `d.get(key, default)` on a Python dictionary. */
  function GetOr(m: map<string, Value>, key: string, default: Value): (r: Value)
    ensures key in m ==> r == m[key]
    ensures key !in m ==> r == default
  {
    if key in m then m[key] else default
  }

  /** `v.key` in JavaScript for a value that is not null: an object yields its
      own property, every other value yields `undefined`. */
  function Member(v: Value, key: string): (r: Option<Value>)
    ensures r.Some? <==> v.Obj? && key in v.fields
    ensures r.Some? ==> r.value == v.fields[key]
  {
    if v.Obj? then Lookup(v.fields, key) else None
  }

  /** The name Python gives the type of a parsed JSON value (every number is
      reported as `float`). */
  function PyTypeName(v: Value): string {
    match v
    case Null => "NoneType"
    case Bool(_) => "bool"
    case Num(_) => "float"
    case Str(_) => "str"
    case Arr(_) => "list"
    case Obj(_) => "dict"
  }

  /** The message of the `AttributeError` raised by `v.attr` on a value whose
      type has no such attribute. */
  function NoAttribute(v: Value, attr: string): string {
    "'" + PyTypeName(v) + "' object has no attribute '" + attr + "'"
  }
}
