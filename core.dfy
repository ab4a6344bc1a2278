/** The pieces of the Core library that a dynamic polygon relies on: an
    undefined-or-defined value, the `defaultValue` choice between two such
    values, and the DeveloperError failure that a debug-build argument check
    raises. */
module Core {

  /** A JavaScript value that is either `undefined` (None) or defined (Some). */
  datatype Option<+T> = None | Some(value: T)

  /** `defaultValue(a, b)`: `a` when it is defined, otherwise `b`. */
  function DefaultValue<T>(a: Option<T>, b: Option<T>): (r: Option<T>)
    ensures r == a || r == b
    ensures a.Some? ==> r == a
    ensures r.Some? <==> a.Some? || b.Some?
  {
    if a.Some? then a else b
  }

  /** The error a debug-build argument check throws. */
  datatype DeveloperError = DeveloperError(message: string)

  /** How an operation that may throw a DeveloperError ended. */
  datatype Outcome = Pass | Fail(error: DeveloperError)
}
