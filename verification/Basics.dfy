/** Shared vocabulary of the models. */
module Basics {
  /** A database NULL, a missing row, or the value. */
  datatype Option<+T> = None | Some(value: T)

  function One(b: bool): nat {
    if b then 1 else 0
  }
}
