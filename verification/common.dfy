/** Small shared vocabulary: an optional value, a value-or-error, and the
    integer max/min the pricing code takes from Python's built-ins. */
module Common {

  /** A value that may be absent; stands in for `None` and for the
      `float('inf')` "nothing found yet" sentinel. */
  datatype Option<+T> = None | Some(value: T)

  /** The outcome of a computation that can raise. */
  datatype Result<+T, +E> = Ok(value: T) | Err(error: E)

  function Max(a: int, b: int): (r: int)
    ensures r >= a && r >= b && (r == a || r == b)
  {
    if a < b then b else a
  }

  function Min(a: int, b: int): (r: int)
    ensures r <= a && r <= b && (r == a || r == b)
  {
    if a < b then a else b
  }
}
