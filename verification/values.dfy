/**
 Values exchanged between the clients and the services: JSON values, plus
 JavaScript's `undefined`, and the handful of JavaScript coercions the
 client code relies on (truthiness, property reads, `String(...)`,
 `JSON.stringify` of a flat object, object spread).
 */
module Values {

  datatype Option<+T> = None | Some(value: T)

  datatype Result<+T, +E> = Ok(value: T) | Err(error: E)

  /** A JSON value, or JavaScript's `undefined`. Numbers are integers. */
  datatype Value =
    | Undefined
    | Null
    | Bool(b: bool)
    | Num(n: int)
    | Str(s: string)
    | Arr(items: seq<Value>)
    | Obj(fields: map<string, Value>)

  /** The own properties of a JavaScript object, or the keys of a Python dict. */
  type Object = map<string, Value>

  /** JavaScript truthiness, as used by `!x` and `x || y`. */
  predicate Truthy(v: Value) {
    match v
    case Undefined => false
    case Null => false
    case Bool(b) => b
    case Num(n) => n != 0
    case Str(s) => s != ""
    case Arr(_) => true
    case Obj(_) => true
  }

  /** `obj.key` on an object: a missing property reads as `undefined`. */
  function Field(obj: Object, key: string): Value {
    if key in obj then obj[key] else Undefined
  }

  /**
   `v.key` for a key that no built-in prototype defines ("error",
   "message", ...): None stands for the TypeError thrown when `v` is
   null or undefined.
   */
  function Property(v: Value, key: string): (r: Option<Value>)
    ensures r.None? <==> v.Null? || v.Undefined?
  {
    match v
    case Undefined => None
    case Null => None
    case Obj(m) => Some(Field(m, key))
    case _ => Some(Undefined)
  }

  /** Optional chaining `v?.key`: never throws. */
  function OptionalProperty(v: Value, key: string): Value {
    match Property(v, key)
    case None => Undefined
    case Some(x) => x
  }

  function DigitChar(d: nat): char
    requires d < 10
  {
    "0123456789"[d]
  }

  function Decimal(n: nat): (s: string)
    ensures |s| > 0
  {
    if n < 10 then [DigitChar(n)] else Decimal(n / 10) + [DigitChar(n % 10)]
  }

  /** `parts.join(",")`. */
  function JoinWithCommas(parts: seq<string>): string {
    if |parts| == 0 then ""
    else if |parts| == 1 then parts[0]
    else parts[0] + "," + JoinWithCommas(parts[1..])
  }

  /** `String(v)`; array elements that are null or undefined print as "". */
  function ToString(v: Value): string {
    match v
    case Undefined => "undefined"
    case Null => "null"
    case Bool(b) => if b then "true" else "false"
    case Num(n) => if n < 0 then "-" + Decimal(-n) else Decimal(n)
    case Str(s) => s
    case Arr(items) =>
      JoinWithCommas(seq(|items|, i requires 0 <= i < |items| =>
                           if items[i].Null? || items[i].Undefined? then "" else ToString(items[i])))
    case Obj(_) => "[object Object]"
  }

  /**
   The message of `new Error(field || fallback)`: the field converted to a
   string when it is truthy, the fallback otherwise.
   */
  function ErrorText(field: Value, fallback: string): (text: string)
    ensures !Truthy(field) ==> text == fallback
    ensures field.Str? && field.s != "" ==> text == field.s
    ensures field.Obj? ==> text == "[object Object]"
  {
    if Truthy(field) then ToString(field) else fallback
  }

  /** `JSON.stringify` of a flat object drops the properties whose value is undefined. */
  function Defined(obj: Object): (r: Object)
    ensures forall k :: k in r <==> k in obj && obj[k] != Undefined
    ensures forall k :: k in r ==> r[k] == obj[k]
  {
    map k | k in obj && obj[k] != Undefined :: obj[k]
  }

  /** The properties `{...v}` copies: those of an object, none of null or a primitive. */
  function Spread(v: Value): Object {
    if v.Obj? then v.fields else map[]
  }
}
