/** What every module shares: the result shapes, a byte, and the step of a walk over a
    map's keys. */
module Wrappers {
  datatype Option<+T> = None | Some(value: T)

  datatype Result<+T, +E> = Ok(value: T) | Err(error: E)

  newtype Byte = x: int | 0 <= x < 256

  /** Some element: a walk takes keys in an order it does not choose. */
  method Next<T>(s: set<T>) returns (x: T)
    requires s != {}
    ensures x in s
  {
    x :| x in s;
  }
}
