/** The optional value used wherever the source tests a value against
    `null` or `undefined`. */
module Wrappers {

  datatype Option<+T> = None | Some(value: T)

  /** JavaScript's `a || b` on two strings: the empty string is falsy.
      Throughout the model an absent string (`undefined`, `null`) is written
      as the empty string, which every use in the source treats alike. */
  function Or(a: string, b: string): (r: string)
    ensures a != "" ==> r == a
    ensures a == "" ==> r == b
  {
    if a != "" then a else b
  }
}
