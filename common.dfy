/** Optional values: a JSON field or an HTTP header that may be absent. */
module Common {

  datatype Option<+T> = None | Some(value: T) {

    /** The carried value, or `default` when absent. */
    function GetOr(default: T): T {
      match this
      case Some(v) => v
      case None => default
    }
  }

  /** Truthiness of an optional string in both Python and JavaScript:
      absent and empty are false, any other string is true. */
  predicate Truthy(s: Option<string>) {
    s.Some? && s.value != ""
  }
}
