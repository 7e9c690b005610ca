/** Optional values: JavaScript's `undefined`/`null` for a field or a lookup
    that may be absent. */
module Options {

  datatype Option<+T> = None | Some(value: T) {

    /** The value, or `default` when absent (the `??` operator). */
    function GetOr(default: T): T {
      match this
      case Some(v) => v
      case None => default
    }
  }

  /** The outcome of an asynchronous call that either resolves with a value
      or rejects (throws) with a message. */
  datatype Outcome<+T> = Resolved(value: T) | Thrown(message: string)
}
