/** The option type shared by every module: the source's `null` or `undefined`. */
module Options {
  datatype Option<+T> = None | Some(value: T) {
    function GetOr(default: T): T {
      match this
      case Some(v) => v
      case None => default
    }

    /** The first operand that is present, as the source's `??` chains compute it. */
    function OrElse(other: Option<T>): Option<T> {
      if Some? then this else other
    }
  }

  /** An optional string that the source treats as true in a condition: present and not empty. */
  predicate Truthy(value: Option<string>)
    ensures Truthy(value) <==> value.Some? && |value.value| > 0
  {
    value.Some? && value.value != ""
  }
}
