/** Values shared by the other modules. */
module Wrappers {
  /** Stands for a pointer that may be null, or for a value that may be absent. */
  datatype Option<+T> = None | Some(value: T)
}
