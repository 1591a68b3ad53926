/** JSON values as a request body carries them, with JavaScript's truthiness. */
module JsValue {
  import opened Common

  /** A JSON value; numbers are integers in this model. */
  datatype Value =
    | Null
    | Bool(b: bool)
    | Num(n: int)
    | Str(s: string)
    | Arr(items: seq<Value>)
    | Obj(fields: map<string, Value>)

  /** JavaScript truthiness: `null`, `false`, `0` and `""` are falsy; arrays and objects, even empty ones, are truthy. */
  predicate Truthy(v: Value)
  {
    match v
    case Null => false
    case Bool(b) => b
    case Num(n) => n != 0
    case Str(s) => s != ""
    case Arr(_) => true
    case Obj(_) => true
  }

  /** `v.key`; `None` is `undefined`. Of the values here only objects carry the named properties read by the API. */
  function Property(v: Value, key: string): Option<Value>
  {
    if v.Obj? && key in v.fields then Some(v.fields[key]) else None
  }

  /** `v.key` is truthy. */
  predicate TruthyProperty(v: Value, key: string)
  {
    Property(v, key).Some? && Truthy(Property(v, key).value)
  }

  /** `v?.length > 0`: arrays and strings have a length; an object only if it holds a positive number under `length`. */
  predicate HasPositiveLength(v: Option<Value>)
  {
    v.Some? &&
    match v.value
    case Arr(items) => |items| > 0
    case Str(s) => |s| > 0
    case Obj(fields) => "length" in fields && fields["length"].Num? && fields["length"].n > 0
    case _ => false
  }

  /** `Object.keys(v).length`. */
  function KeyCount(v: Value): nat
  {
    match v
    case Obj(fields) => |fields.Keys|
    case Arr(items) => |items|
    case Str(s) => |s|
    case _ => 0
  }

  /** A positive length makes a value truthy. */
  lemma PositiveLengthIsTruthy(v: Option<Value>)
    requires HasPositiveLength(v)
    ensures Truthy(v.value)
  {
  }
}
