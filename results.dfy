/** Failure-carrying wrappers used across the model: an optional value, a
    result that is either a value or an error, and an outcome that is either a
    pass or an error (a call that returns nothing or throws). */
module Results {

  datatype Option<+T> = None | Some(value: T)

  datatype Result<+T, +E> = Ok(value: T) | Err(error: E)

  datatype Outcome<+E> = Pass | Fail(error: E)
}
