/** Option type used for the optional session-start marker and for decode failures. */
module Wrappers {

  datatype Option<+T> = None | Some(value: T)

}
