/** The optional value used throughout the model: `None` stands for JavaScript's
    `undefined` (a missing property) or for a `null` the source allows. */
module Wrappers {

  datatype Option<+T> = None | Some(value: T)
}
