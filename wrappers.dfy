/** Optional values. In this model `None` stands for JavaScript's
    `undefined` (a missing array element, an absent optional field) or,
    for numbers, for `NaN`. */
module Wrappers {

  datatype Option<+T> = None | Some(value: T)
}
