/** C# reference values that may be null (`string` in the Editor's properties). */
module Nullable {

  /** `None` stands for C#'s `null`. */
  datatype Option<+T> = None | Some(value: T) {

    /** The null-coalescing operator `this ?? default`. */
    function GetOr(default: T): T {
      match this
      case Some(v) => v
      case None => default
    }
  }
}
