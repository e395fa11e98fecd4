/**
 * JSON-shaped values as the JavaScript frontend and the Python lambdas see
 * them after parsing, with the two languages' truthiness rules, property
 * access, and JavaScript's `String(v)` conversion.
 */
module Values {

  datatype Option<+T> = None | Some(value: T)

  /**
   * A parsed JSON value. `Undefined` is JavaScript's missing property; the
   * Python side never produces it. Numbers are integers: the code modelled
   * here never relies on fractional values.
   */
  datatype Value =
    | Undefined
    | Null
    | Bool(b: bool)
    | Num(n: int)
    | Str(s: string)
    | List(items: seq<Value>)
    | Obj(fields: map<string, Value>)

  /** JavaScript truthiness: `false`, `0`, `""`, `null` and `undefined` are falsy. */
  predicate Truthy(v: Value)
  {
    match v
    case Undefined => false
    case Null => false
    case Bool(b) => b
    case Num(n) => n != 0
    case Str(s) => s != ""
    case List(_) => true
    case Obj(_) => true
  }

  /** Python truthiness: `None`, `False`, `0`, `""`, `[]` and `{}` are falsy. */
  predicate PyTruthy(v: Value)
  {
    match v
    case Undefined => false
    case Null => false
    case Bool(b) => b
    case Num(n) => n != 0
    case Str(s) => s != ""
    case List(items) => items != []
    case Obj(fields) => fields != map[]
  }

  /**
   * JavaScript `a !== b` for two values that come from different JSON
   * parses: arrays and objects are compared by reference, so two of them are
   * never identical; scalars are compared by value.
   */
  predicate StrictlyDiffer(a: Value, b: Value)
  {
    if a.List? || a.Obj? || b.List? || b.Obj? then true else a != b
  }

  /**
   * `v?.[key]`: the property of an object, `undefined` when it is missing or
   * when `v` is not an object.
   */
  function Get(v: Value, key: string): Value
  {
    if v.Obj? && key in v.fields then v.fields[key] else Undefined
  }

  /** Decimal digits of a natural number. */
  function NatToString(n: nat): (s: string)
    ensures |s| > 0
    decreases n
  {
    var d := ['0', '1', '2', '3', '4', '5', '6', '7', '8', '9'][n % 10];
    if n < 10 then [d] else NatToString(n / 10) + [d]
  }

  /** JavaScript `String(v)`; an array joins its elements with commas. */
  function ToJsString(v: Value): string
    decreases v, 1
  {
    match v
    case Undefined => "undefined"
    case Null => "null"
    case Bool(b) => if b then "true" else "false"
    case Num(n) => if n < 0 then "-" + NatToString(-n) else NatToString(n)
    case Str(s) => s
    case List(items) => JoinElements(v, 0)
    case Obj(_) => "[object Object]"
  }

  /** `Array.prototype.join(',')` from index `i` on: null and undefined print as "". */
  function JoinElements(list: Value, i: nat): string
    requires list.List? && i <= |list.items|
    decreases list, 0, |list.items| - i
  {
    if i == |list.items| then ""
    else
      var e := list.items[i];
      var text := if e.Null? || e.Undefined? then "" else ToJsString(e);
      if i + 1 == |list.items| then text else text + "," + JoinElements(list, i + 1)
  }

  /** A one-entry `{"error": message}` body. */
  function ErrorBody(message: string): (r: Value)
    ensures r.Obj? && r.fields.Keys == {"error"} && r.fields["error"] == Str(message)
  {
    Obj(map["error" := Str(message)])
  }
}
