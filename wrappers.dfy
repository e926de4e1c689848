/** The optional value used wherever the widget holds `null`/`undefined`. */
module Wrappers {
  datatype Option<+T> = None | Some(value: T)
}
