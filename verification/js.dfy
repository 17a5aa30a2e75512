/**
 * JavaScript values that the handlers test for truthiness or compare with
 * `===`, and the optional-value wrapper used throughout the model.
 */
module Js {

  datatype Option<+T> = None | Some(value: T)

  /**
   * A value that is a string, `null` or `undefined`.  Dafny's `==` on this
   * type is JavaScript's strict equality `===` on those values.
   */
  datatype JsStr = Str(s: string) | Null | Undefined

  /** JavaScript truthiness: only a non-empty string is truthy. */
  predicate Truthy(v: JsStr)
  {
    v.Str? && v.s != ""
  }

  /** The expression `v || fallback` where `fallback` is a string. */
  function Or(v: JsStr, fallback: string): (r: string)
    ensures Truthy(v) ==> r == v.s
    ensures !Truthy(v) ==> r == fallback
  {
    if Truthy(v) then v.s else fallback
  }
}
