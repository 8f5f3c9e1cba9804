/** Small value wrappers for the three kinds of "missing" a TypeScript value can have. */
module Wrappers {

  /** A key that may be absent (`undefined` in TypeScript, an optional property). */
  datatype Option<+T> = None | Some(value: T) {

    /** The wrapped value, or `default` when absent (TypeScript's `x ?? default`). */
    function GetOr(default: T): T {
      match this
      case Some(v) => v
      case None => default
    }
  }

  /** A value that may be the explicit `null` (`T | null` in TypeScript). */
  datatype Nullable<+T> = Null | NonNull(value: T)

  /**
   * The value a key ends up with in `{...base, ...over}`: the later object's own
   * value when it has the key, the earlier one's otherwise.
   */
  function Spread<T>(base: Option<T>, over: Option<T>): Option<T> {
    if over.Some? then over else base
  }
}
