/** Result types standing for the exceptions the services raise. */
module Outcomes {

  datatype Option<+T> = None | Some(value: T)

  datatype Result<+T> = Ok(value: T) | Err(code: string)

  /** A procedure that returns nothing, or raises a controlled error. */
  datatype Outcome = Pass | Fail(code: string)
}
