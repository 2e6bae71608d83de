/** A value that may be absent; stands for the Java `null` results of the system. */
module Wrappers {
  datatype Option<T> = None | Some(value: T)
}
