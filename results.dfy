/** Failure-carrying values used by the recipe model in place of Python exceptions. */
module Results {

  /** A value that may be absent, like a dictionary lookup that finds nothing. */
  datatype Option<+T> = None | Some(value: T)

  /** The outcome of a step that returns nothing but may raise an error. */
  datatype Outcome<+E> = Pass | Fail(error: E)
}
