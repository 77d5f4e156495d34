/** Option, used where the source returns `null` for "no result". */
module Wrappers {

  datatype Option<+T> = None | Some(value: T)

}
