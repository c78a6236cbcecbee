/** An optional value, for absent JSON bodies, absent gateway calls and partial read-backs. */
module Wrappers {

  datatype Option<T> = None | Some(value: T)
}
