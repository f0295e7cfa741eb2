/** Python's optional arguments: a value, or `None` when the caller leaves
    the argument out. */
module Optional {
  datatype Option<T> = None | Some(value: T)

  /** `x if x is not None else fallback`, the way the driver fills in an
      argument left out. */
  function Otherwise<T>(x: Option<T>, fallback: T): T {
    if x.Some? then x.value else fallback
  }
}
