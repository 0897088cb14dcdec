/** Optional values and the outcome of a call into code outside the model. */
module Wrappers {

  /** A value that may be missing: a JavaScript `undefined`, a Python `None`
      or a dictionary key that is not there. */
  datatype Option<+T> = None | Some(value: T) {
    function GetOr(default: T): T {
      match this
      case Some(v) => v
      case None => default
    }
  }

  /** What a call into a collaborator the model does not see produced:
      either it returned a value or it raised an exception with a message. */
  datatype Call<+T> = Returned(value: T) | Raised(message: string)
}
