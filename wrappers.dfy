/** The optional value that the channel returns from a receive and that stands for a
    nullable slot (`NULL` or a value) in the channel's record. */
module Wrappers {

  datatype Option<+T> = None | Some(value: T)

  /** The values an optional result carries: none or exactly one. */
  function Values<T>(o: Option<T>): multiset<T>
  {
    match o
    case None => multiset{}
    case Some(v) => multiset{v}
  }
}
