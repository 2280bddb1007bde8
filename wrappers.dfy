/** Option and Result values standing in for null pointers, std::optional and thrown exceptions. */
module Wrappers {
  datatype Option<T> = None | Some(value: T)
  {
    predicate IsSome() { this.Some? }

    function GetOr(default: T): T
    {
      if this.Some? then value else default
    }
  }

  /** The two exception classes the builders throw. */
  datatype ErrorKind = InvalidArgument | RuntimeError

  /** Outcome of a builder call: it either completed or threw with a message. */
  datatype Status = Done | Threw(kind: ErrorKind, message: string)
  {
    predicate Succeeded() { this.Done? }
  }

  datatype Result<T> = Ok(value: T) | Err(message: string)
}
