/** Failure-carrying value types used across the model: the Go code returns
    `(value, error)` pairs and `(bool, value)` pairs, which become these. */
module Wrappers {

  datatype Option<+T> = None | Some(value: T)

  /** `Ok(v)` is a call that returned `err == nil`; `Err(msg)` carries the text
      of the Go `error` value. */
  datatype Result<+T> = Ok(value: T) | Err(msg: string)
}
