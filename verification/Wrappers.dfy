/** Result types shared by the other modules. */
module Wrappers {

  datatype Option<+T> = None | Some(value: T)

  datatype Result<+T> = Success(value: T) | Failure

  /** Integers a 64-bit Go `int` can hold. */
  const MAX_INT: int := 0x7FFF_FFFF_FFFF_FFFF

  predicate IsInt(n: int) {
    -MAX_INT - 1 <= n <= MAX_INT
  }
}
