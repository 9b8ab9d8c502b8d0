/** Failure-carrying values shared by both applications: an absent value
    (Python `None`, a missing dictionary key) and the outcome of a step that
    may raise. */
module Results {

  datatype Option<+T> = None | Some(value: T) {
    /** `value` if present, otherwise `default` (Python `dict.get(k, default)`). */
    function GetOr(default: T): T {
      match this
      case Some(v) => v
      case None => default
    }
  }

  /** `Err` stands for an exception that the Python code does not catch. */
  datatype Result<+T, +E> = Ok(value: T) | Err(error: E)
}
