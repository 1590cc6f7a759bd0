/**
 * The JSON-like values a request body carries, as the controllers see them
 * after Express has parsed the body, with JavaScript's truthiness and the
 * numeric tests the validators apply to them.
 */
module Json {

  /** A value found in a request body. `Undefined` stands for a property that is absent. */
  datatype Value =
    | Undefined
    | Null
    | Bool(b: bool)
    | Int(i: int)                     // a number for which Number.isInteger holds
    | NonInt                          // any other number (a fraction, an infinity), never NaN
    | Str(s: string)
    | Arr(items: seq<Value>)
    | Obj(fields: map<string, Value>)

  /** JavaScript truthiness: "", 0, false, null and undefined are falsy. */
  predicate Truthy(v: Value) {
    match v
    case Undefined => false
    case Null => false
    case Bool(b) => b
    case Int(i) => i != 0
    case NonInt => true
    case Str(s) => s != ""
    case Arr(_) => true
    case Obj(_) => true
  }

  /** The values whose properties cannot be read without a TypeError. */
  predicate Nullish(v: Value) {
    v.Undefined? || v.Null?
  }

  /** The `data` object of a request body; a body without `data` gives the empty object. */
  type Payload = map<string, Value>

  /** `data[key]` */
  function Get(data: Payload, key: string): Value {
    if key in data then data[key] else Undefined
  }

  /**
   * `v[key]` for a value that can be read from; only plain objects carry
   * the keys the controllers ask for.
   */
  function Member(v: Value, key: string): Value
    requires !Nullish(v)
  {
    match v
    case Obj(fields) => Get(fields, key)
    case _ => Undefined
  }

  /** `Number.isInteger(v)` */
  predicate IsInteger(v: Value) {
    v.Int?
  }

  /**
   * `v <= 0`, for the values where the answer matters to the validators:
   * true and false compare as 1 and 0, null as 0, undefined as NaN. For the
   * remaining values (strings, fractions, arrays, objects) the validators
   * reject anyway because `Number.isInteger` fails, so they are given false.
   */
  predicate AtMostZero(v: Value) {
    match v
    case Int(i) => i <= 0
    case Bool(b) => !b
    case Null => true
    case _ => false
  }

  /** The values the price and quantity validators accept. */
  predicate IsPositiveInteger(v: Value) {
    v.Int? && v.i > 0
  }
}
