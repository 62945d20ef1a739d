/** The types shared by every component. */
module Wrappers {

  datatype Option<+T> = None | Some(value: T)

  datatype Result<+T, +E> = Ok(value: T) | Err(error: E)

  /** Whether a command reaches its server, and whether the reply reaches the caller. */
  datatype Link = Healthy | Refused | ReplyLost
}
