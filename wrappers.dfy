/** Presence/absence and success/failure values used for remote read outcomes. */
module Wrappers {

  datatype Option<+T> = None | Some(value: T)

  /** The outcome of one remote read: a response, or the error the client returned. */
  datatype Result<+T> = Ok(value: T) | Err(error: string)
}
