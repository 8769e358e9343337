/** Optional values, used for the ledger's optional fields (a TypeScript
    `field?: T` or a `T | undefined`) and for lookups that may find nothing. */
module Wrappers {

  datatype Option<+T> = None | Some(value: T) {

    /** The wrapped value, or `default` when there is none (the `??` operator). */
    function GetOr(default: T): T {
      match this
      case Some(v) => v
      case None => default
    }
  }
}
