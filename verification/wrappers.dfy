/** Failure-carrying datatypes and text helpers shared by every component. */
module Wrappers {

  datatype Option<+T> = None | Some(value: T)

  function AsList<T>(o: Option<T>): seq<T> {
    if o.Some? then [o.value] else []
  }

  datatype Result<+T, +E> = Ok(value: T) | Err(error: E)

  /**
   A stock symbol after upper-casing. Every lookup of the program upper-cases the name
   first, so two names are the same symbol exactly when their upper-case forms agree.
   */
  datatype Symbol = Symbol(id: nat)
}
