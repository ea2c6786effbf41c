/** An optional value: a dictionary entry or attribute that may be absent. */
module Options {

  datatype Option<+T> = None | Some(value: T) {

    /** The value if present, else the given default (Python's `d.get(k, default)`). */
    function GetOr(default: T): T {
      match this
      case Some(v) => v
      case None => default
    }
  }
}
