/** The optional value used wherever the source uses `null`, `undefined` or `Infinity` as "no value". */
module Wrappers {

  datatype Option<+T> = None | Some(value: T)
}
