/**
 * The JavaScript values a record is made of, as the validator sees them, and the
 * two type conversions it borrows from the language: `Number(v)` and `new Date(v)`.
 */
module JsValues {
  import opened Wrappers

  /** A JavaScript number other than NaN (IEEE-754 arithmetic is not modelled). */
  type Num(==)

  /** The time value of a valid JavaScript `Date`. */
  type Instant(==)

  /**
   * A JavaScript value. `JUndefined` is also what a property read yields for a key
   * the object does not have.
   */
  datatype Value =
    | JUndefined
    | JNull
    | JBool(b: bool)
    | JNum(num: Num)
    | JStr(str: string)
    | JDate(time: Instant)
    | JArr(elems: seq<Value>)
    | JObj(fields: map<string, Value>)

  /** The property read `obj[key]`: absent keys read as undefined. */
  function Get(fields: map<string, Value>, key: string): Value
  {
    if key in fields then fields[key] else JUndefined
  }

  /**
   * The conversions of strings, booleans, null, arrays and objects, which this
   * model leaves abstract: `number(v)` is `Number(v)` (None when that is NaN) and
   * `date(v)` is `new Date(v)` (None when that is an invalid date).
   */
  datatype Coercion = Coercion(number: Value -> Option<Num>, date: Value -> Option<Instant>)

  /**
   * `Number(v)`, None standing for NaN. Two cases are fixed by the language for every
   * engine: `Number(undefined)` is NaN and `Number(n)` is `n` for a number `n`.
   */
  function ToNumber(c: Coercion, v: Value): Option<Num>
  {
    match v
    case JUndefined => None
    case JNum(n) => Some(n)
    case _ => c.number(v)
  }

  /**
   * `new Date(v)`, None standing for an invalid date. Fixed by the language:
   * `new Date(undefined)` is invalid and `new Date(d)` copies the time value of a date `d`.
   */
  function ToDate(c: Coercion, v: Value): Option<Instant>
  {
    match v
    case JUndefined => None
    case JDate(t) => Some(t)
    case _ => c.date(v)
  }
}
