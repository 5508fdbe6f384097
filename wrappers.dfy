/** Optional values, for dictionary entries and fields a stored record may lack. */
module Wrappers {
  datatype Option<+T> = None | Some(value: T)

  /** The value when present, otherwise the default (the `x || d` / spread-default idiom). */
  function GetOr<T>(o: Option<T>, default: T): T
  {
    match o
    case Some(v) => v
    case None => default
  }
}
