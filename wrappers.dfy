/** The optional value used where the viewer keeps `null` or clears a text field. */
module Wrappers {

  datatype Option<+T> = None | Some(value: T)
}
