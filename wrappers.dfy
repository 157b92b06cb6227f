/** Option and Result values, and the error kinds the application reports. */
module Wrappers {

  datatype Option<T> = None | Some(value: T)
  {
    function UnwrapOr(default: T): (r: T)
      ensures this.Some? ==> r == value
      ensures this.None? ==> r == default
    {
      match this
      case Some(v) => v
      case None => default
    }
  }

  /** The application's error type: each variant is one kind of failure the source reports. */
  datatype Error =
    | InvalidInput(msg: string)
    | Database(msg: string)
    | Config(msg: string)
    | McpValidation(msg: string)
    | Io(msg: string)
    | Localized(key: string, zh: string, en: string)
    | Message(msg: string)
    | JsonSerialize(msg: string)

  datatype Result<T> = Ok(value: T) | Err(error: Error)
  {
    predicate IsFailure() { Err? }
  }
}
