/** Failure-carrying wrappers: `Option` stands for a nullable reference or a
    `java.util.Optional`, `Result` for a value or the exception that replaces it. */
module Wrappers {
  datatype Option<+T> = None | Some(value: T)

  datatype Result<+T, +E> = Ok(value: T) | Err(error: E)
}

/** Java `int` arithmetic, where the model needs it written out. */
module Int32 {
  const MinValue: int := -0x8000_0000
  const MaxValue: int := 0x7fff_ffff

  predicate InRange(n: int) {
    MinValue <= n <= MaxValue
  }

  /** `n - 1` on a Java `int`: the minimum wraps round to the maximum. */
  function Decrement(n: int): (r: int)
    requires InRange(n)
    ensures InRange(r)
    ensures n > MinValue ==> r == n - 1
    ensures n == MinValue ==> r == MaxValue
  {
    if n == MinValue then MaxValue else n - 1
  }
}
