/**
 * The PHP values the token code inspects: what `json_decode($json, true)` yields
 * and what `Token::fromArray` reads, together with PHP's `empty()` rule.
 */
module Php {

  /**
   * A PHP value. Arrays are string-keyed (JSON objects decoded as associative
   * arrays). Floating-point numbers are not part of the model.
   */
  datatype Value =
    | Null
    | Bool(b: bool)
    | Int(i: int)
    | Str(s: string)
    | Arr(entries: map<string, Value>)

  /** A PHP associative array keyed by strings. */
  type PhpArray = map<string, Value>

  /** PHP's `empty()`: null, false, 0, "", "0" and the empty array are empty. */
  predicate IsEmpty(v: Value)
  {
    match v
    case Null => true
    case Bool(b) => !b
    case Int(i) => i == 0
    case Str(s) => s == "" || s == "0"
    case Arr(m) => m == map[]
  }

  /** `$data[$key]`: a missing key reads as null. */
  function Lookup(data: PhpArray, key: string): Value
  {
    if key in data then data[key] else Null
  }
}
