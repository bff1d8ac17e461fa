/** The optional value used wherever the modelled code may find nothing (a selector that
    matches no element, a slot that was never written). */
module Wrappers {

  datatype Option<+T> = None | Some(value: T)
}
