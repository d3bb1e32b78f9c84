/** Optional values, with JavaScript's `??` and truthiness on optional strings. */
module Optional {
  datatype Option<+T> = None | Some(value: T) {
    function GetOr(default: T): T {
      match this
      case None => default
      case Some(v) => v
    }

    /** `this ?? other` */
    function Or(other: Option<T>): Option<T> {
      if Some? then this else other
    }
  }

  /** A present, non-empty string. */
  predicate Truthy(o: Option<string>) {
    o.Some? && o.value != ""
  }
}
