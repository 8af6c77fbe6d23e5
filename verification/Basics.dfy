/** The two notions every other module shares. */
module Basics {

  type Byte = bv8

  datatype Option<T> = None | Some(value: T)
}
