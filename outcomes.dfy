/** Failure-carrying wrappers shared by every module of the model. */
module Outcomes {

  /** An optional value: JavaScript `null`/`undefined` versus a present value. */
  datatype Option<+T> = None | Some(value: T)

  /** The result of an operation that can throw (JavaScript) or return `Err` (Rust). */
  datatype Result<+T, +E> = Ok(value: T) | Err(error: E)

  /** The abstract outcome of a call into code outside the model (a wallet, the network). */
  datatype Outcome<+T> = Done(value: T) | Failed(reason: string)
}
