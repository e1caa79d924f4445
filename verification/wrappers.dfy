/** Values shared by every module: Python's `None` and `dict.get`. */
module Wrappers {

  /** The optional value used wherever the Python code returns or stores `None`. */
  datatype Option<+T> = None | Some(value: T) {

    /** The value, or `default` when there is none (Python's `x or default`). */
    function GetOr(default: T): T {
      match this
      case Some(v) => v
      case None => default
    }
  }

  /** `d.get(key, default)` */
  function Lookup<K, V>(d: map<K, V>, key: K, default: V): V {
    if key in d then d[key] else default
  }
}
