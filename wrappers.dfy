/** Optional values: a form field left unset, an optional answer, a computation that yields NaN. */
module Wrappers {

  datatype Option<+T> = None | Some(value: T) {

    /**
     * The wrapped value, or `default` when there is none: a field the form leaves unset keeps
     * the record's value, as the spread `{ ...record, ...form }` does.
     */
    function GetOr(default: T): T {
      match this
      case Some(v) => v
      case None => default
    }
  }
}
