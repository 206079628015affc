/** The optional value used for the scene's transient interaction state,
    where the source keeps `None` until a press sets a value. */
module Wrappers {

  datatype Option<+T> = None | Some(value: T)
}
