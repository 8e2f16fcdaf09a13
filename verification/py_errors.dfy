/** The exceptions the snapshot constructor can meet, and the
    value-or-exception wrappers used to model Python calls that may raise. */
module PyErrors {

  /** A closed classification of the exceptions a filesystem query can raise.
      `text` is what `str(err)` yields, which the constructor formats into
      its diagnostic message. */
  datatype Error =
    | PermissionErr(text: string)
    | NotFound(text: string)
    | Other(text: string)

  /** The answer of a Python call: a value, or the exception it raised. */
  datatype Result<+T> = Ok(value: T) | Err(error: Error)

  datatype Option<+T> = None | Some(value: T)

  /** The exception kinds the constructor's resolve step catches:
      `PermissionError` and `FileNotFoundError`, and nothing else. */
  predicate CaughtByResolve(e: Error) {
    e.PermissionErr? || e.NotFound?
  }
}
