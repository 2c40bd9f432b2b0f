/** Option and Result, the two failure-carrying shapes the day-book model uses
    in place of JavaScript's `undefined` and of an alert followed by `return`. */
module Wrappers {

  datatype Option<+T> = None | Some(value: T)

  /** `Err` carries the warning the application would show; the state it
      would have changed is left as it was. */
  datatype Result<+T, +E> = Ok(value: T) | Err(error: E)
}
