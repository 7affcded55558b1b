/** The optional value used wherever the source has a value that may be `null`. */
module Wrappers {

  datatype Option<+T> = None | Some(value: T)

  function Max(a: int, b: int): (m: int)
  {
    if a >= b then a else b
  }
}
