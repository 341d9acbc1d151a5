/** Small helper datatypes shared by the component models. */
module Wrappers {

  /** A value that may be absent: the model of a nullable React state cell. */
  datatype Option<+T> = None | Some(value: T)
}
