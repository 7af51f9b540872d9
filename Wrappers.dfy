/** An owning pointer that may be null: `None` is the null pointer,
    `Some(v)` a pointer to a cell holding `v`. */
module Wrappers {

  datatype Option<+T> = None | Some(value: T) {

    /** The pointee, or `default` when the pointer is null. */
    function GetOr(default: T): (r: T)
      ensures Some? ==> r == value
      ensures None? ==> r == default
    {
      match this
      case Some(v) => v
      case None => default
    }
  }
}
