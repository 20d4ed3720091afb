/** The dynamically typed values the JavaScript front ends pass around: props,
    marker records and API records. A record is a map from property names to
    values; reading a property that is absent yields `undefined`. */
module JsValues {

  datatype Value =
    | Undefined
    | Null
    | Bool(b: bool)
    | Num(n: real)
    | NaN
    | Inf(negative: bool)
    | Str(s: string)
    | Fn(id: nat)                        // a function object, e.g. a callback prop
    | Obj(fields: map<string, Value>)

  type Record = map<string, Value>

  /** JavaScript truthiness: `undefined`, `null`, `false`, `0`, `NaN` and `''` are falsy. */
  predicate Truthy(v: Value)
  {
    match v
    case Undefined => false
    case Null => false
    case Bool(b) => b
    case Num(n) => n != 0.0
    case NaN => false
    case Inf(_) => true
    case Str(s) => s != ""
    case Fn(_) => true
    case Obj(_) => true
  }

  /** `a || b`: the first operand when it is truthy, otherwise the second. */
  function Or(a: Value, b: Value): Value
  {
    if Truthy(a) then a else b
  }

  /** `record.key`. */
  function Get(r: Record, key: string): Value
  {
    if key in r then r[key] else Undefined
  }

  /** `v.key` for a value that is not `null`/`undefined`; primitives have no
      own data properties of interest here, so reading them yields `undefined`. */
  function Prop(v: Value, key: string): Value
  {
    if v.Obj? then Get(v.fields, key) else Undefined
  }

  /** `typeof v === 'number'` (NaN and the infinities are numbers too). */
  predicate IsNumber(v: Value)
  {
    v.Num? || v.NaN? || v.Inf?
  }

  /** `v === null || v === undefined`: reading a property of such a value throws a TypeError. */
  predicate IsNullish(v: Value)
  {
    v.Undefined? || v.Null?
  }

  /** An object literal `{latitude: lat, longitude: lng}`. */
  function LatLngObject(lat: Value, lng: Value): Value
  {
    Obj(map["latitude" := lat, "longitude" := lng])
  }

  lemma OrTruthy(a: Value, b: Value)
    ensures Truthy(Or(a, b)) <==> Truthy(a) || Truthy(b)
  {
  }
}
