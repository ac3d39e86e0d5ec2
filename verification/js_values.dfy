/** The shapes of loosely-typed request and database values that the validators and helpers branch on. */
module JsValues {
  /**
   * A `days` value as it reaches the code: an array of day numbers, a JSON
   * string (already parsed to an array of integers, or not valid JSON), or
   * anything else.
   */
  datatype DaysValue = DaysArray(days: seq<int>) | DaysJson(parsed: ParsedDays) | DaysOther

  datatype ParsedDays = ParsedArray(items: seq<int>) | Unparsable

  /**
   * A scalar request or column value whose type is only known at run time;
   * `OtherScalar` stands for any other non-null value (a fractional number, an object).
   */
  datatype Scalar = Bool(b: bool) | Str(s: string) | Num(n: int) | Null | OtherScalar

  /** JavaScript truthiness of a scalar. */
  predicate ScalarTruthy(v: Scalar) {
    match v
    case Bool(b) => b
    case Str(s) => s != ""
    case Num(n) => n != 0
    case Null => false
    case OtherScalar => true
  }
}
