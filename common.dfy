/** Values shared by the PHP plugin model and the two browser scripts. */
module Common {

  datatype Option<+T> = None | Some(value: T)

  /** PHP's `empty()` (and the falsy test `!$x`) on a string: "" and "0" are empty. */
  predicate PhpEmpty(s: string) {
    s == "" || s == "0"
  }

  /** A scalar PHP value, as far as the plugin inspects one. */
  datatype PhpVal = PNull | PBool(b: bool) | PInt(i: int) | PStr(s: string)

  /** PHP truthiness on a scalar: null, false, 0, "" and "0" are falsy. */
  predicate PhpTruthy(v: PhpVal) {
    match v
    case PNull => false
    case PBool(b) => b
    case PInt(i) => i != 0
    case PStr(s) => !PhpEmpty(s)
  }

  /** A JavaScript value, as far as the scripts inspect one. */
  datatype JsVal = JUndefined | JNull | JBool(b: bool) | JNum(n: int) | JStr(s: string) | JObject

  /** JavaScript truthiness (`Boolean(v)`); numbers are modelled as integers. */
  predicate JsTruthy(v: JsVal) {
    match v
    case JUndefined => false
    case JNull => false
    case JBool(b) => b
    case JNum(n) => n != 0
    case JStr(s) => s != ""
    case JObject => true
  }

  /** `typeof v === 'string' ? v : ''`, the scripts' usual guard on a field. */
  function JsStringOr(v: JsVal, default: string): string {
    if v.JStr? then v.s else default
  }
}
