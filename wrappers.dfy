/** The optional value used throughout the model: `None` stands for JavaScript's
    `undefined` (a missing property) or for a missing selection. */
module Wrappers {

  datatype Option<+T> = None | Some(value: T)

  /** The value held, or `default` when there is none. */
  function GetOr<T>(o: Option<T>, default: T): T {
    match o
    case Some(v) => v
    case None => default
  }
}
