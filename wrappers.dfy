/** Optional values: `None` stands for JavaScript's `null` (or a number that
    parsed as NaN, or a fetch that threw), `Some` for a present value. */
module Wrappers {
  datatype Option<+T> = None | Some(value: T)
}
