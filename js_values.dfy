/** JavaScript values as the data-access layer receives them from its callers
    and hands them to the database driver as positional parameters. */
module JsValues {

  /** A property read from a JavaScript object: missing (`undefined`),
      `null`, or a value of type T. */
  datatype Js<+T> = Undefined | Null | Defined(v: T)

  /** A positional parameter in the array passed to the driver. */
  datatype Param =
    | Str(s: string)      // a string value
    | NumStr(n: int)      // the text a template literal makes of the number n
    | Num(n: int)         // a number passed as it is
    | NullValue           // JavaScript `null`
    | UndefinedValue      // JavaScript `undefined`

  /** The text a template literal `${x}` makes of an optional number. */
  function TemplateText(x: Js<int>): Param {
    match x
    case Undefined => Str("undefined")
    case Null => Str("null")
    case Defined(n) => NumStr(n)
  }

  /** Truthiness of an optional string: `undefined`, `null` and "" are falsy. */
  predicate TruthyString(x: Js<string>) {
    x.Defined? && x.v != ""
  }

  /** Truthiness of an optional number: `undefined`, `null` and 0 are falsy. */
  predicate TruthyNumber(x: Js<int>) {
    x.Defined? && x.v != 0
  }
}
