/** The nullable values of the build plugin (Kotlin `T?`) as an explicit option. */
module Wrappers {

  datatype Option<+T> = None | Some(value: T)

  /** Kotlin's elvis operator `x ?: default`. */
  function OrElse<T>(o: Option<T>, default: T): (r: T)
    ensures o.None? ==> r == default
    ensures o.Some? ==> r == o.value
  {
    match o
    case None => default
    case Some(v) => v
  }
}
