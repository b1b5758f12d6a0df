// JavaScript value conventions shared by the whole model: optional values
// (`undefined`), thrown exceptions, the `??` operator and the string forms a
// number takes inside a template string.
module Js {

  /** A value that may be `undefined` (or `null`). */
  datatype Option<T> = None | Some(value: T)
  {
    /** `this ?? d`: the value when present, otherwise the default. */
    function OrElse(d: T): (r: T)
      ensures Some? ==> r == value
      ensures None? ==> r == d
    {
      match this
      case Some(v) => v
      case None => d
    }
  }

  /** The exception classes the engine can throw. */
  datatype JsError =
    | TypeError     // property read or call on `undefined`
    | RangeError    // invalid typed-array length or offset
    | SingularMatrix   // Matrix4.invert on a determinant of zero
    | ZeroLengthVector // Vector3.normalize of the zero vector

  /** The result of a call that returns a value or throws. */
  datatype Result<T> = Ok(value: T) | Err(error: JsError)

  /** The result of a call that returns nothing or throws. */
  datatype Status = Normal | Thrown(error: JsError)

  /** Whether an optional string is truthy: present and not empty. */
  predicate Truthy(s: Option<string>)
  {
    s.Some? && s.value != ""
  }

  /** The decimal digits of a natural number, as `String(n)` prints it. */
  function NatToString(n: nat): (s: string)
    ensures |s| >= 1
    ensures forall i :: 0 <= i < |s| ==> '0' <= s[i] <= '9'
    decreases n
  {
    if n < 10 then [Digit(n)] else NatToString(n / 10) + [Digit(n % 10)]
  }

  function Digit(d: nat): (c: char)
    requires d < 10
    ensures '0' <= c <= '9'
  {
    ('0' as int + d) as char
  }

  /** `s.startsWith(p)`. */
  predicate StartsWith(s: string, p: string)
  {
    |p| <= |s| && s[..|p|] == p
  }

  /** `s.includes(p)`. */
  predicate Includes(s: string, p: string)
    decreases |s|
  {
    StartsWith(s, p) || (|s| > 0 && Includes(s[1..], p))
  }
}
