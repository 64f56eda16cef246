/** Shared result types and the JavaScript safe-integer range. */
module Common {
  datatype Option<+T> = None | Some(value: T)

  /** The result of an operation that either returns or throws a typed error. */
  datatype Outcome<+T, +E> = Ok(value: T) | Refused(error: E)

  const MAX_SAFE_INTEGER: int := 0x1F_FFFF_FFFF_FFFF

  predicate SafeInteger(n: int) {
    -MAX_SAFE_INTEGER <= n <= MAX_SAFE_INTEGER
  }
}
