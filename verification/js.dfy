/**
 * The few JavaScript value notions the pipeline's decisions depend on: truthiness,
 * `typeof x === 'boolean'`, thrown values and settled promises.
 */
module Js {
  import Text

  /** A configuration value as JavaScript sees it (NaN is not modelled). */
  datatype Value = Undefined | Null | Bool(b: bool) | Num(n: int) | Str(s: string) | Object

  /** `${v}` in a template string: how JavaScript turns a value into text. */
  function Interpolated(v: Value): string {
    match v
    case Undefined => "undefined"
    case Null => "null"
    case Bool(b) => if b then "true" else "false"
    case Num(n) => Text.IntText(n)
    case Str(s) => s
    case Object => "[object Object]"
  }

  /** `!!v` */
  predicate Truthy(v: Value) {
    match v
    case Undefined => false
    case Null => false
    case Bool(b) => b
    case Num(n) => n != 0
    case Str(s) => s != ""
    case Object => true
  }

  /** A boolean value is kept; any other value gives the default. */
  function BoolOr(v: Value, dflt: bool): (r: bool)
    ensures v.Bool? ==> r == v.b
    ensures !v.Bool? ==> r == dflt
  {
    if v.Bool? then v.b else dflt
  }

  /** What a stage or helper throws: an `Error` object (with its constructor name) or a raw value such as a string. */
  datatype Thrown = ErrorObj(kind: string, message: string) | Raw(text: string)

  /** `new Error(message)` */
  function Error(message: string): Thrown {
    ErrorObj("Error", message)
  }

  /** The TypeError JavaScript raises for a call on, or a property read of, `undefined`. */
  function TypeError(message: string): Thrown {
    ErrorObj("TypeError", message)
  }

  /** A thrown value as a template string shows it: an error's message, otherwise the value's own text. */
  function Describe(e: Thrown): (r: string)
    ensures e.ErrorObj? && e.message != "" ==> r == e.message
    ensures e.Raw? ==> r == e.text
  {
    match e
    case ErrorObj(kind, message) => if message != "" then message else kind
    case Raw(text) => text
  }

  /** How an awaited call settles. */
  datatype Outcome = Resolved | Rejected(error: Thrown)
}
