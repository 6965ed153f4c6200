/** The few pieces of Python's semantics that the shape arithmetic relies on:
    the exceptions it can raise, and integer floor division. */
module PythonSemantics {

  /** The Python exceptions raised by the modelled code itself. */
  datatype Exception = IndexError | AssertionError | ZeroDivisionError

  /** A computation that either returns a value or raises an exception. */
  datatype Result<T> = Ok(value: T) | Err(error: Exception)

  datatype Option<T> = None | Some(value: T)

  /** Python's `a // b`: the quotient rounded towards minus infinity.
      Dafny's `/` is Euclidean, which agrees only when `b > 0`. */
  function FloorDiv(a: int, b: int): (q: int)
    requires b != 0
    ensures b > 0 ==> q * b <= a < q * b + b
    ensures b < 0 ==> q * b + b < a <= q * b
  {
    if b > 0 then a / b else (-a) / (-b)
  }
}
