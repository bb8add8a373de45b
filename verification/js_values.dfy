/** The scalar values the screens read out of fetched records, with JavaScript's
    truthiness and its string conversion. */
module JsValues {

  /** A value that may be missing (undefined in the source). */
  datatype Option<T> = None | Some(value: T)

  /** A primitive JavaScript value. Numbers are integers in this model. */
  datatype JsValue = Str(s: string) | Num(n: int) | Bool(b: bool) | Null | Undefined

  /** JavaScript truthiness: "", 0, false, null and undefined are falsy. */
  predicate Truthy(v: JsValue)
  {
    match v
    case Str(s) => s != ""
    case Num(n) => n != 0
    case Bool(b) => b
    case Null => false
    case Undefined => false
  }

  /** A flat record; reading a property it does not have gives undefined. */
  type Record = map<string, JsValue>

  /** record[key] */
  function Get(r: Record, key: string): JsValue
  {
    if key in r then r[key] else Undefined
  }

  /** value || "" */
  function OrEmpty(v: JsValue): JsValue
  {
    if Truthy(v) then v else Str("")
  }

  /** String(v): what a template literal `${v}` makes of a value. */
  function ToDisplayString(v: JsValue): string
  {
    match v
    case Str(s) => s
    case Num(n) => if n < 0 then "-" + NatToString(-n) else NatToString(n)
    case Bool(b) => if b then "true" else "false"
    case Null => "null"
    case Undefined => "undefined"
  }

  function NatToString(n: nat): string
  {
    if n < 10 then [DigitChar(n)] else NatToString(n / 10) + [DigitChar(n % 10)]
  }

  function DigitChar(d: nat): char
    requires d < 10
  {
    (48 + d) as char
  }
}
