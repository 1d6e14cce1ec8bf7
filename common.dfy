/** Failure-carrying values shared by every module: an optional value, the
    exceptions the client raises, and a result that is either a value or one
    of those exceptions. */
module Common {

  datatype Option<+T> = None | Some(value: T)

  /** The exceptions raised by the modelled code, one constructor per kind.
      `IOError` carries the path whose request failed. */
  datatype Error =
    | ValueError(msg: string)
    | KeyError(key: string)
    | TypeError
    | IndexError
    | AttributeError
    | IOError(path: string)
    | MissingArgumentError(what: string)
    | IllegalArgumentError(msg: string)

  datatype Result<+T> = Ok(value: T) | Err(error: Error)
}
