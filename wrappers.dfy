/** Option and Result, the two failure-carrying values the model needs. */
module Wrappers {

  datatype Option<+T> = None | Some(value: T)

  datatype Result<+R, +E> = Success(value: R) | Failure(error: E)

  /** The set holding the value of `o`, if there is one. */
  function OptionSet<T>(o: Option<T>): (s: set<T>)
    ensures o.Some? ==> s == {o.value}
    ensures o.None? ==> s == {}
  {
    if o.Some? then {o.value} else {}
  }
}
