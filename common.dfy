/** Failure-carrying values shared by every module of the model, and the
    Python exceptions that the modelled code raises or lets escape. */
module Common {

  datatype Option<+T> = None | Some(value: T) {
    function GetOr(default: T): T {
      match this
      case Some(v) => v
      case None => default
    }
  }

  datatype Result<+T, +E> = Ok(value: T) | Err(error: E)

  /** A Python exception. Exceptions raised inside code the model does not
      see (an imported processor, werkzeug, the XML parser) are kept only as
      the one-line text of their traceback. */
  datatype Exception =
    | KeyError(key: string)
    | TypeError
    | AttributeError(attribute: string)
    | Raised(text: string)
}
