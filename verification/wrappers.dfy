module Wrappers {
  datatype Option<+T> = None | Some(value: T)

  datatype Result<+T> = Ok(value: T) | Err(error: Error)

  // The errors of internal/core that the modelled code returns.
  datatype Error = Invalid | NotFound | Conflict | Idempotency | NotConnected | Quota | Busy | AvatarFetch
}
