/** The optional value used for a timestamp that may be absent and for an
    external call that may raise instead of returning. */
module Wrappers {

  datatype Option<+T> = None | Some(value: T)
}
