/** Failure-carrying wrappers shared by the whole model. */
module Wrappers {

  /** A value that may be absent: Python's `None` versus a present value. */
  datatype Option<T> = None | Some(value: T)

  /** The outcome of a call into a collaborator that may raise: `Ok` carries
      what the call returned, `Raised` stands for any exception it threw. */
  datatype Outcome<T> = Ok(value: T) | Raised
}
