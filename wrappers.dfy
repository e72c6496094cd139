/** Result types shared by the whole model. Every Python
    exception the parser can raise (KeyError, IndexError, TypeError, ValueError,
    AttributeError, decimal.InvalidOperation) is one failure outcome here. */
module Wrappers {

  datatype Option<+T> = None | Some(value: T)

  /** The outcome of an operation that may raise. */
  datatype Result<+T> = Ok(value: T) | Failed
}
