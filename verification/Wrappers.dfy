/** The one failure type the whole project shares. */
module Wrappers {

  datatype Option<+T> = None | Some(value: T)
}
