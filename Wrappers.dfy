/** Optional values. In this model `None` stands for a JavaScript value that is
    not a finite number (NaN, or `undefined` read from a missing field). */
module Wrappers {

  datatype Option<+T> = None | Some(value: T)
}
