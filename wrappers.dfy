/** Option and Result, plus the kinds of Python exception that the modelled code can raise. */
module Wrappers {

  datatype Option<+T> = None | Some(value: T)

  /** The exception classes that escape from the modelled Python functions. */
  datatype Fault =
    | KeyError           // dict lookup of a missing key
    | IndexError         // list index out of range
    | AttributeError     // method called on None
    | UnboundLocalError  // local read before any assignment
    | TypeError          // ordering comparison between a list and an int
    | RequestError       // any exception raised by the HTTP client
    | OSError            // named-pipe creation or process spawn failed

  /** A value, or the exception that was raised instead. */
  datatype Result<+T> = Ok(value: T) | Err(fault: Fault)
}
