/** The optional value of JavaScript's `undefined`-returning lookups. */
module Wrappers {

  datatype Option<T> = None | Some(value: T)
}
