/** Small value types shared by every module of the model. */
module Common {

  /** Python's `Optional[T]`: `None` or a present value. */
  datatype Option<+T> = None | Some(value: T)

  /** What a Python call does: it returns a value or raises an exception. */
  datatype Outcome<+T, +E> = Returned(value: T) | Raised(error: E)

  /** Python's `min(a, b)` on numbers. */
  function MinReal(a: real, b: real): (r: real)
    ensures r <= a && r <= b
    ensures r == a || r == b
  {
    if b < a then b else a
  }
}
