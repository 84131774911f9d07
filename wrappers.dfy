/** Small value wrappers shared by every module of the model. */
module Wrappers {

  /** Python's `None` next to a value: a field that may hold None. */
  datatype Option<+T> = None | Some(value: T) {
    function GetOr(default: T): T {
      match this
      case Some(v) => v
      case None => default
    }
  }

  /** A dictionary key that may never have been assigned: `Absent` is a missing
      key, `Set(v)` a key holding `v` (which may itself be None). */
  datatype Key<+T> = Absent | Set(value: T)
}
