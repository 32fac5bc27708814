/** The optional value used wherever the scripts use `null` (or an
    `undefined` that stands for "nothing"). */
module Wrappers {

  datatype Option<+T> = None | Some(value: T)
}
