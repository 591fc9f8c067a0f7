/** Option for JavaScript's `null`/`undefined`, and Eval for a computation that
    either returns or raises an exception nobody catches. */
module Wrappers {

  /** `None` stands for a value that is `null` or `undefined` in the source. */
  datatype Option<+T> = None | Some(value: T)

  /** The result of running a piece of the source: it either returns a value, or
      raises an exception that nothing on the way up catches. */
  datatype Eval<+T> = Returned(value: T) | Threw
}
