/** An optional value: absent (None) or present (Some). */
module Wrappers {

  datatype Option<+T> = None | Some(value: T)

}
