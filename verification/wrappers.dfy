/** Outcomes of calls into the hosted model: the model never performs them, it
    receives their results as values of these types. */
module Wrappers {

  datatype Option<+T> = None | Some(value: T)

  /** A call that either resolved with a value or rejected with an error message. */
  datatype Result<+R> = Ok(value: R) | Err(message: string)
}
