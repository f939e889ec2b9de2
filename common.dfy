/** Small helper types shared by the agent-manager model. */
module Common {

  /** A value that may be absent: a null pointer, a missing JSON key or a
      host lookup that failed. */
  datatype Option<T> = None | Some(value: T) {
    function GetOr(default: T): T {
      match this
      case Some(v) => v
      case None => default
    }
  }
}
