/** Optional values and collaborator replies shared by every module. */
module Wrappers {

  /** A value that may be absent (`null` / `undefined` in the source). */
  datatype Option<+T> = None | Some(value: T) {
    function GetOr(default: T): T {
      match this
      case Some(v) => v
      case None => default
    }
  }

  /** What an external collaborator answered: a value, or a thrown error with its text. */
  datatype Reply<+T> = Ok(value: T) | Fail(reason: string)
}
