/** Option and Result, the two failure-carrying types the heading element
    returns: `Option<Value>` from field reflection and `SourceResult<Content>`
    from construction, show and finalize. */
module Wrappers {

  datatype Option<+T> = None | Some(value: T) {
    function GetOr(default: T): T
    {
      match this
      case Some(v) => v
      case None => default
    }
  }

  /** The one error the model raises: a required argument is missing.
      Errors from casting argument values are left out. */
  datatype SourceError = MissingArgument(what: string)

  datatype Result<+T> = Ok(value: T) | Err(error: SourceError)
}
