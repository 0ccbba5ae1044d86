/** The optional value used wherever the programs use Python's `None`. */
module Wrappers {

  datatype Option<+T> = None | Some(value: T)

  /** The empty sequence for `None`, the one-element sequence for `Some(v)`. */
  function ToSeq<T>(o: Option<T>): seq<T>
  {
    match o
    case None => []
    case Some(v) => [v]
  }
}
