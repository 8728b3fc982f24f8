/** Option, standing for the nullable pointers of the window manager. */
module Wrappers {

  datatype Option<+T> = None | Some(value: T)
}
